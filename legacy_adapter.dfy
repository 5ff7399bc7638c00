/** MusicPlayerAdapter: presents a LegacyMusicPlayer, which only knows start
    and halt, as a player with play, pause and stop. The mapping is lossy:
    pause and stop both become halt. */
module LegacyAdapter {
  import opened PlayerStates

  /** The two operations of the legacy player. */
  datatype LegacyCall = Start | Halt

  const LegacyStarted := "Legacy music player started"
  const LegacyHalted := "Legacy music player halted"

  /** The line the legacy player prints for a call. */
  function Announcement(c: LegacyCall): (line: string)
    ensures line == LegacyStarted <==> c == Start
  {
    match c
    case Start => LegacyStarted
    case Halt => LegacyHalted
  }

  /** The legacy call the adapter makes for a player operation: only play
      starts the legacy player; pause and stop both halt it. */
  function Translate(op: Op): (c: LegacyCall)
    ensures c == Start <==> op == Play
    ensures c == Halt <==> op in {Pause, Stop}
  {
    match op
    case Play => Start
    case Pause => Halt
    case Stop => Halt
  }

  /** The legacy calls made for a sequence of adapter calls. */
  function TranslateAll(ops: seq<Op>): (r: seq<LegacyCall>)
    ensures |r| == |ops|
    ensures forall i :: 0 <= i < |ops| ==> (r[i] == Start <==> ops[i] == Play)
    decreases |ops|
  {
    if ops == [] then [] else [Translate(ops[0])] + TranslateAll(ops[1..])
  }

  /** Number of occurrences of `x` in `s`. */
  function Count<T(==)>(s: seq<T>, x: T): nat
    decreases |s|
  {
    if s == [] then 0 else (if s[0] == x then 1 else 0) + Count(s[1..], x)
  }

  /** Over any sequence of adapter calls, the legacy player is started once per
      play and halted once per pause or stop. */
  lemma {:induction false} CallCounts(ops: seq<Op>)
    ensures Count(TranslateAll(ops), Start) == Count(ops, Play)
    ensures Count(TranslateAll(ops), Halt) == Count(ops, Pause) + Count(ops, Stop)
    decreases |ops|
  {
    if ops != [] {
      CallCounts(ops[1..]);
    }
  }

  /** The legacy player records the calls it receives; each call prints one
      line, `Announcement` of the call. */
  class LegacyMusicPlayer {
    var calls: seq<LegacyCall>

    constructor ()
      ensures calls == []
    {
      calls := [];
    }

    method Start()
      modifies this
      ensures calls == old(calls) + [LegacyCall.Start]
    {
      calls := calls + [LegacyCall.Start];
    }

    method Halt()
      modifies this
      ensures calls == old(calls) + [LegacyCall.Halt]
    {
      calls := calls + [LegacyCall.Halt];
    }
  }

  /** Wraps a legacy player it shares with its creator (it does not own it). */
  class MusicPlayerAdapter {
    const legacy: LegacyMusicPlayer

    constructor (legacy: LegacyMusicPlayer)
      ensures this.legacy == legacy
    {
      this.legacy := legacy;
    }

    method Play()
      modifies legacy
      ensures legacy.calls == old(legacy.calls) + [Translate(Op.Play)]
      ensures legacy.calls == old(legacy.calls) + [Start]
    {
      legacy.Start();
    }

    method Pause()
      modifies legacy
      ensures legacy.calls == old(legacy.calls) + [Translate(Op.Pause)]
      ensures legacy.calls == old(legacy.calls) + [Halt]
    {
      legacy.Halt();
    }

    method Stop()
      modifies legacy
      ensures legacy.calls == old(legacy.calls) + [Translate(Op.Stop)]
      ensures legacy.calls == old(legacy.calls) + [Halt]
    {
      legacy.Halt();
    }
  }

  /** The demonstration sequence on an adapted legacy player: play, pause,
      stop. Returns the legacy calls made and the lines they print. */
  method AdapterDemo() returns (calls: seq<LegacyCall>, output: seq<string>)
    ensures calls == TranslateAll([Op.Play, Op.Pause, Op.Stop])
    ensures calls == [Start, Halt, Halt]
    ensures output == [LegacyStarted, LegacyHalted, LegacyHalted]
  {
    var legacyPlayer := new LegacyMusicPlayer();
    var adapted := new MusicPlayerAdapter(legacyPlayer);
    adapted.Play();
    adapted.Pause();
    adapted.Stop();
    calls := legacyPlayer.calls;
    output := [Announcement(calls[0]), Announcement(calls[1]), Announcement(calls[2])];
  }
}
