/** The player's finite-state behaviour: the three playback states, the three
    operations, the 3 x 3 transition table that the state handler classes
    StoppedState, PlayingState and PausedState implement between them, and
    the runs obtained by issuing a sequence of operations. */
module PlayerStates {

  /** The state handler a context currently holds. */
  datatype State = Stopped | Playing | Paused

  /** The operations a context forwards to its current handler. */
  datatype Op = Play | Pause | Stop

  /** What one handler call does: the state the context holds afterwards and
      the one line the handler prints. */
  datatype Transition = Transition(next: State, message: string)

  /** What a sequence of calls does: the final state and the printed lines,
      in order. */
  datatype Trace = Trace(final: State, log: seq<string>)

  const StartingPlay := "Starting play"
  const CannotPause := "Cannot pause. Player is stopped"
  const AlreadyStopped := "Already stopped"
  const AlreadyPlaying := "Already playing"
  const Pausing := "Pausing"
  const Stopping := "Stopping"
  const ResumingPlay := "Resuming play"
  const AlreadyPaused := "Already paused"
  const StoppingFromPause := "Stopping from pause"

  /** The transition table, one row per handler class. Every cell is defined.
      Read by operation: play always ends in Playing, stop always ends in
      Stopped, and pause ends in Paused unless the player was stopped. */
  function Step(s: State, op: Op): (r: Transition)
    ensures op == Play ==> r.next == Playing
    ensures op == Stop ==> r.next == Stopped
    ensures op == Pause ==> r.next == (if s == Stopped then Stopped else Paused)
    ensures r.next == s <==> r.message in {CannotPause, AlreadyStopped, AlreadyPlaying, AlreadyPaused}
  {
    match s
    case Stopped =>
      (match op
       case Play => Transition(Playing, StartingPlay)
       case Pause => Transition(Stopped, CannotPause)
       case Stop => Transition(Stopped, AlreadyStopped))
    case Playing =>
      (match op
       case Play => Transition(Playing, AlreadyPlaying)
       case Pause => Transition(Paused, Pausing)
       case Stop => Transition(Stopped, Stopping))
    case Paused =>
      (match op
       case Play => Transition(Playing, ResumingPlay)
       case Pause => Transition(Paused, AlreadyPaused)
       case Stop => Transition(Stopped, StoppingFromPause))
  }

  /** The nine printed lines are pairwise distinct, so a line tells which
      handler ran and which operation it served. */
  lemma MessageIdentifiesTransition(s1: State, op1: Op, s2: State, op2: Op)
    requires Step(s1, op1).message == Step(s2, op2).message
    ensures s1 == s2 && op1 == op2
  {
  }

  /** Issuing the operations `ops`, in order, on a context holding `s`. */
  function Run(s: State, ops: seq<Op>): (r: Trace)
    ensures |r.log| == |ops|
    ensures ops != [] && ops[|ops| - 1] == Stop ==> r.final == Stopped
    ensures ops != [] && ops[|ops| - 1] == Play ==> r.final == Playing
    decreases |ops|
  {
    if ops == [] then Trace(s, [])
    else
      var t := Step(s, ops[0]);
      var rest := Run(t.next, ops[1..]);
      Trace(rest.final, [t.message] + rest.log)
  }

  /** A run of `a` then `b` is the run of `a` followed by the run of `b` from
      wherever `a` left the context: the context remembers nothing of its
      past beyond its current state. */
  lemma {:induction false} RunAppend(s: State, a: seq<Op>, b: seq<Op>)
    ensures Run(s, a + b).final == Run(Run(s, a).final, b).final
    ensures Run(s, a + b).log == Run(s, a).log + Run(Run(s, a).final, b).log
    decreases |a|
  {
    if a == [] {
      assert a + b == b;
    } else {
      assert (a + b)[0] == a[0];
      assert (a + b)[1..] == a[1..] + b;
      RunAppend(Step(s, a[0]).next, a[1..], b);
    }
  }

  /** One more call extends the run by exactly one transition. */
  lemma RunSnoc(s: State, ops: seq<Op>, op: Op)
    ensures Run(s, ops + [op]).final == Step(Run(s, ops).final, op).next
    ensures Run(s, ops + [op]).log == Run(s, ops).log + [Step(Run(s, ops).final, op).message]
  {
    RunAppend(s, ops, [op]);
  }

  /** After any history, two stops in a row end in Stopped, and the second one
      reports that the player was already stopped. */
  lemma StopTwice(s: State, ops: seq<Op>)
    ensures Run(s, ops + [Stop, Stop]).final == Stopped
    ensures Run(s, ops + [Stop]).final == Stopped
    ensures Run(s, ops + [Stop, Stop]).log == Run(s, ops + [Stop]).log + [AlreadyStopped]
  {
    RunSnoc(s, ops + [Stop], Stop);
    assert ops + [Stop] + [Stop] == ops + [Stop, Stop];
  }

  /** A stopped player that is never asked to play stays stopped, and each call
      prints the matching refusal. */
  lemma {:induction false} WithoutPlayStaysStopped(ops: seq<Op>)
    requires Play !in ops
    ensures Run(Stopped, ops).final == Stopped
    ensures forall i :: 0 <= i < |ops| ==>
      Run(Stopped, ops).log[i] == (if ops[i] == Pause then CannotPause else AlreadyStopped)
    decreases |ops|
  {
    if ops != [] {
      assert ops[0] in ops;
      assert forall i :: 1 <= i < |ops| ==> ops[1..][i - 1] == ops[i];
      WithoutPlayStaysStopped(ops[1..]);
    }
  }

  /** Two runs from the same state that print the same lines were driven by
      the same operations. */
  lemma {:induction false} LogDeterminesOps(s: State, a: seq<Op>, b: seq<Op>)
    requires Run(s, a).log == Run(s, b).log
    ensures a == b
    decreases |a|
  {
    if a != [] {
      assert |b| == |a|;
      assert Run(s, a).log[0] == Step(s, a[0]).message;
      assert Run(s, b).log[0] == Step(s, b[0]).message;
      MessageIdentifiesTransition(s, a[0], s, b[0]);
      assert Run(s, a).log[1..] == Run(Step(s, a[0]).next, a[1..]).log;
      assert Run(s, b).log[1..] == Run(Step(s, b[0]).next, b[1..]).log;
      LogDeterminesOps(Step(s, a[0]).next, a[1..], b[1..]);
      assert a == [a[0]] + a[1..];
      assert b == [b[0]] + b[1..];
    }
  }

  /** Every state can be reached from a fresh (stopped) context. */
  lemma EveryStateReachable(t: State)
    ensures exists ops: seq<Op> :: |ops| <= 2 && Run(Stopped, ops).final == t
  {
    match t
    case Stopped => assert Run(Stopped, []).final == Stopped;
    case Playing => assert Run(Stopped, [Play]).final == Playing;
    case Paused =>
      assert Run(Stopped, [Play, Pause]) == Trace(Paused, [StartingPlay, Pausing]);
  }
}
