/** MusicPlayerContext: the object that holds the current state handler and
    forwards play, pause and stop to it. The handler prints one line and may
    then replace the context's state through setState. Printing is modelled
    as appending to the context's `log`. */
module PlayerContext {
  import opened PlayerStates

  class MusicPlayerContext {
    /** The current state handler. */
    var state: State
    /** The lines printed so far by this context's handlers. */
    var log: seq<string>
    /** The operations issued on this context since it was created. */
    ghost var history: seq<Op>

    /** The state and the printed lines are always those of running the
        issued operations from a fresh, stopped context. */
    ghost predicate Valid()
      reads this
    {
      Run(Stopped, history) == Trace(state, log)
    }

    /** A fresh context starts in the stopped state and has printed nothing. */
    constructor ()
      ensures Valid()
      ensures state == Stopped && log == [] && history == []
    {
      state := Stopped;
      log := [];
      history := [];
    }

    /** Replaces the current handler; only the handlers call it. */
    method SetState(s: State)
      modifies this`state
      ensures state == s
    {
      state := s;
    }

    /** The current handler serves `op`: it prints its line, then switches the
        context to the next state when that differs from the current one. */
    method Handle(op: Op)
      requires Valid()
      modifies this
      ensures Valid()
      ensures history == old(history) + [op]
      ensures state == Step(old(state), op).next
      ensures log == old(log) + [Step(old(state), op).message]
    {
      var t := Step(state, op);
      log := log + [t.message];
      if t.next != state {
        SetState(t.next);
      }
      RunSnoc(Stopped, history, op);
      history := history + [op];
    }

    method Play()
      requires Valid()
      modifies this
      ensures Valid()
      ensures history == old(history) + [Op.Play]
      ensures state == Playing
      ensures log == old(log) + [Step(old(state), Op.Play).message]
    {
      Handle(Op.Play);
    }

    method Pause()
      requires Valid()
      modifies this
      ensures Valid()
      ensures history == old(history) + [Op.Pause]
      ensures state == (if old(state) == Stopped then Stopped else Paused)
      ensures log == old(log) + [Step(old(state), Op.Pause).message]
    {
      Handle(Op.Pause);
    }

    method Stop()
      requires Valid()
      modifies this
      ensures Valid()
      ensures history == old(history) + [Op.Stop]
      ensures state == Stopped
      ensures log == old(log) + [Step(old(state), Op.Stop).message]
    {
      Handle(Op.Stop);
    }
  }

  /** The demonstration sequence on a fresh context: play, pause, play, stop.
      Returns the state after each call and everything printed. */
  method StateDemo() returns (visited: seq<State>, output: seq<string>)
    ensures visited == [Playing, Paused, Playing, Stopped]
    ensures output == [StartingPlay, Pausing, ResumingPlay, Stopping]
  {
    var context := new MusicPlayerContext();
    context.Play();
    visited := [context.state];
    context.Pause();
    visited := visited + [context.state];
    context.Play();
    visited := visited + [context.state];
    context.Stop();
    visited := visited + [context.state];
    output := context.log;
  }
}
