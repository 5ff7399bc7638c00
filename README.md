# Music player state machine

A Dafny model of the music player in `lab3/src/Main.java`: the state machine
formed by `MusicPlayerContext` and its three state handlers (`StoppedState`,
`PlayingState`, `PausedState`), and the `MusicPlayerAdapter` that presents a
`LegacyMusicPlayer` (start/halt) as a player with play, pause and stop.

- `player_states.dfy` (module `PlayerStates`): the states and operations as
  datatypes, the 3 x 3 transition table `Step` (next state and printed line
  for every state and operation), `Run` for a sequence of calls, and lemmas
  about runs.
- `player_context.dfy` (module `PlayerContext`): the class
  `MusicPlayerContext` with a mutable `state` field and a `log` of printed
  lines. Its `Play`, `Pause` and `Stop` methods forward to `Handle`, the
  modelled handler call, which prints one line and then calls `SetState` when
  the state changes. A ghost `history` of issued operations ties the object
  to the pure table: `Valid()` says `Run(Stopped, history)` is exactly the
  current state and log. `StateDemo` is the demonstration sequence of the
  program's entry point.
- `legacy_adapter.dfy` (module `LegacyAdapter`): the legacy player records
  the calls it receives, the adapter forwards play to start and both pause
  and stop to halt, and `Translate`/`TranslateAll` state that mapping as
  functions.

Printing to standard output is modelled as appending a line to a
`seq<string>` (the context's `log`) or, for the legacy player, as recording
the call (`calls`), whose printed line is `Announcement` of the call.

## Model

| member | source | states |
|---|---|---|
| PlayerStates.Step | lab3/src/Main.java:122-176 | the transition table is total; play always ends in Playing, stop always in Stopped, pause in Paused unless the player is stopped; the state is unchanged exactly when the line printed is one of the four refusals ("Cannot pause. Player is stopped", "Already stopped", "Already playing", "Already paused") |
| PlayerStates.MessageIdentifiesTransition | lab3/src/Main.java:122-176 | the nine printed lines are pairwise distinct: a line determines the handler state and the operation |
| PlayerStates.Run | lab3/src/Main.java:109-120 | a sequence of calls prints exactly one line per call; a sequence ending in stop ends Stopped, one ending in play ends Playing |
| PlayerStates.RunAppend | lab3/src/Main.java:98-120 | the context keeps no memory beyond its current state: running a then b is running b from where a left off, and the printed lines concatenate |
| PlayerStates.RunSnoc | lab3/src/Main.java:109-120 | one more call adds exactly one transition of the table to a run |
| PlayerStates.StopTwice | lab3/src/Main.java:134-138 | after any history, stop ends in Stopped, and a second stop stays Stopped and prints "Already stopped" |
| PlayerStates.WithoutPlayStaysStopped | lab3/src/Main.java:160-176 | a stopped player never asked to play stays stopped and prints "Cannot pause. Player is stopped" for each pause and "Already stopped" for each stop |
| PlayerStates.LogDeterminesOps | lab3/src/Main.java:122-176 | two runs from the same state that print the same lines were driven by the same operations |
| PlayerStates.EveryStateReachable | lab3/src/Main.java:101-103 | from a fresh stopped context every state is reachable in at most two calls |
| PlayerContext.MusicPlayerContext.constructor | lab3/src/Main.java:101-103 | a new context is in the Stopped state, has printed nothing and satisfies the invariant |
| PlayerContext.MusicPlayerContext.SetState | lab3/src/Main.java:105-107 | replaces the current state and changes nothing else |
| PlayerContext.MusicPlayerContext.Handle | lab3/src/Main.java:122-176 | the current handler appends exactly its one line to the log and moves the state to the table's next state; nothing else changes and state and log stay those of running the issued operations from Stopped |
| PlayerContext.MusicPlayerContext.Play | lab3/src/Main.java:109-111 | play ends in Playing and prints the current state's play line |
| PlayerContext.MusicPlayerContext.Pause | lab3/src/Main.java:113-115 | pause ends in Paused, or stays Stopped when stopped, and prints the current state's pause line |
| PlayerContext.MusicPlayerContext.Stop | lab3/src/Main.java:117-119 | stop ends in Stopped and prints the current state's stop line |
| PlayerContext.StateDemo | lab3/src/Main.java:199-204 | play, pause, play, stop on a fresh context pass through Playing, Paused, Playing, Stopped and print "Starting play", "Pausing", "Resuming play", "Stopping" |
| LegacyAdapter.Announcement | lab3/src/Main.java:59-66 | the legacy player prints "Legacy music player started" exactly for start |
| LegacyAdapter.Translate | lab3/src/Main.java:76-89 | the adapter starts the legacy player exactly for play and halts it exactly for pause and stop |
| LegacyAdapter.TranslateAll | lab3/src/Main.java:76-89 | a sequence of adapter calls makes one legacy call per adapter call, a start exactly where the call is play |
| LegacyAdapter.CallCounts | lab3/src/Main.java:76-89 | over any sequence of adapter calls, the legacy player is started once per play and halted once per pause or stop |
| LegacyAdapter.LegacyMusicPlayer.Start | lab3/src/Main.java:60-62 | start records exactly one start call |
| LegacyAdapter.LegacyMusicPlayer.Halt | lab3/src/Main.java:64-66 | halt records exactly one halt call |
| LegacyAdapter.MusicPlayerAdapter.constructor | lab3/src/Main.java:72-74 | the adapter wraps the given legacy player, shared with the caller |
| LegacyAdapter.MusicPlayerAdapter.Play | lab3/src/Main.java:77-79 | play makes exactly one legacy call, start |
| LegacyAdapter.MusicPlayerAdapter.Pause | lab3/src/Main.java:82-84 | pause makes exactly one legacy call, halt, never start |
| LegacyAdapter.MusicPlayerAdapter.Stop | lab3/src/Main.java:87-89 | stop makes exactly one legacy call, halt, never start |
| LegacyAdapter.AdapterDemo | lab3/src/Main.java:191-196 | play, pause, stop on an adapted legacy player make the legacy calls start, halt, halt and print "Legacy music player started" then "Legacy music player halted" twice |

## Left out

- Console output: each `System.out.println` is an append to a sequence of lines, not I/O.
- Object identity of the handler objects: a fresh `StoppedState`, `PlayingState` or `PausedState` is allocated on every transition in the source; the model uses one enum value per handler class and a single `Step` table instead of virtual dispatch. Consequently `Handle` calls `SetState` only when the state changes, which is what the source does (the handlers that keep the state make no `setState` call).
- `SetState` as an entry point for outside callers: only the handlers call it, so the invariant `Valid()` is not claimed for it.
- The `MusicPlayer` and `MusicPlayerFactory` interfaces, `ModernMusicPlayer`, `ClassicMusicPlayer` and their two factories: they only allocate objects or print constant strings.
- The factory and modern/classic player part of `Main.main`: fixed demonstration calls with no logic; the adapter and state-machine parts are `AdapterDemo` and `StateDemo`.
- Concurrent use of one context: the source is single-threaded.
