# EventPlayer lifecycle and stop listeners

A Dafny model of `EventPlayer` from the bottimus Discord bot
(`src/com/flaiker/bottimus/players/EventPlayer.java`). The class is an audio player base class. It adds two things to a
third-party `Player`:

- four lifecycle flags (`started`, `playing`, `paused`, `stopped`), changed by
  `play`, `pause`, `stop` and the protected `reset`;
- an ordered list of stop listeners. These run when the underlying player has no
  more audio, that is, when its `provide20MsAudio` returns null.

Layout:

- `Failures.dfy` (module `Failures`): the two exceptions the class throws, with their
  messages, and the `Result` / `Outcome` / `Option` wrappers.
- `PlaybackFlags.dfy` (module `PlaybackFlags`): the flags as a value.
  - Each control call is a pure transition on that value.
  - The invariant is `Consistent`: never both playing and paused, and playing only
    when started and not stopped.
  - The four named lifecycle states are idle, active, paused and stopped.
  - Lemmas cover arbitrary sequences of calls.
- `ListenerRegistry.dfy` (module `ListenerRegistry`): first-occurrence lookup and
  removal, as `ArrayList.contains` and `ArrayList.remove(Object)` do.
- `Players.dfy` (module `Players`): the class `EventPlayer`.
  - It has the four `bool` fields and the listener list as a `seq` field.
  - Each method assigns only the flags the source assigns (its `modifies` frame).
    Its `ensures` ties the new flags to the matching `PlaybackFlags` transition.
  - Every method that changes the player requires and keeps the invariant `Valid()`.
  - Running a listener is modelled as appending its identity to the field `runs`.
- `Scenarios.dfy` (module `Scenarios`): call sequences on a new player. Each states
  what the class contracts guarantee about them.

The underlying player's frame, the value of `super.provide20MsAudio()`, is passed
to `Provide20MsAudio` as a parameter: `None` stands for Java's `null`.

At end of stream, `provide20MsAudio` (lines 103-108) runs the listeners but leaves every
flag alone: `Provide20MsAudio` modifies only `runs`, and `Scenarios.EndOfStream` shows
that a player that was playing is still playing and not stopped afterwards.

## Model

| member | source | states |
|---|---|---|
| PlaybackFlags.Initial | src/com/flaiker/bottimus/players/EventPlayer.java:30-33 | a new player's flags are the idle state: stopped, not started, not playing, not paused; they satisfy the invariant |
| PlaybackFlags.Play | src/com/flaiker/bottimus/players/EventPlayer.java:61-67 | fails exactly when started and stopped, with the "Cannot restart" IllegalState error; otherwise the player is active (started, playing, not paused, not stopped); always succeeds from idle, active or paused, always fails from stopped |
| PlaybackFlags.Pause | src/com/flaiker/bottimus/players/EventPlayer.java:70-73 | paused and not playing, started and stopped untouched, invariant holds; active or paused becomes paused; pausing never changes whether a later play succeeds (so pausing before play is legal and harmless) |
| PlaybackFlags.Stop | src/com/flaiker/bottimus/players/EventPlayer.java:76-80 | stopped and neither playing nor paused, started untouched; active, paused or stopped become stopped, idle stays idle; afterwards play fails exactly when the player had been started |
| PlaybackFlags.Reset | src/com/flaiker/bottimus/players/EventPlayer.java:110-115 | whatever the prior flags, the result equals a new player's flags, and play succeeds from it |
| PlaybackFlags.StopIdempotent | src/com/flaiker/bottimus/players/EventPlayer.java:76-80 | stopping twice equals stopping once |
| PlaybackFlags.RunConsistent | src/com/flaiker/bottimus/players/EventPlayer.java:61-80 | any sequence of play, pause, stop and reset calls from a consistent state ends in a consistent state (never playing and paused; playing implies started and not stopped) |
| PlaybackFlags.ReachableConsistent | src/com/flaiker/bottimus/players/EventPlayer.java:30-33 | every state reachable from a new player is consistent |
| PlaybackFlags.StartedOnlyByPlay | src/com/flaiker/bottimus/players/EventPlayer.java:63 | if started goes from false to true over a call sequence, that sequence contains a play |
| PlaybackFlags.StartedClearedOnlyByReset | src/com/flaiker/bottimus/players/EventPlayer.java:111 | if started goes from true to false over a call sequence, that sequence contains a reset |
| PlaybackFlags.StoppedSessionIsFinal | src/com/flaiker/bottimus/players/EventPlayer.java:62 | from a started-and-stopped state, no sequence of calls without reset makes the player play again; it stays started and stopped |
| ListenerRegistry.RemoveFirst | src/com/flaiker/bottimus/players/EventPlayer.java:57 | removing an absent element changes nothing; removing a present one shortens the list by one and drops exactly one copy of it from the multiset, keeping all other copies |
| ListenerRegistry.FirstIndex | src/com/flaiker/bottimus/players/EventPlayer.java:54 | finds nothing exactly when the element is absent; otherwise the index holds the element and no earlier position does |
| ListenerRegistry.RemoveFirstAt | src/com/flaiker/bottimus/players/EventPlayer.java:57 | removal deletes exactly the first occurrence's position and keeps the order of everything else |
| ListenerRegistry.AppendThenRemove | src/com/flaiker/bottimus/players/EventPlayer.java:44-46 | appending an element and then removing it removes the earliest copy: a duplicate registration survives one removal |
| Players.EventPlayer.constructor | src/com/flaiker/bottimus/players/EventPlayer.java:30-37 | a new player has the initial flags, no listeners and nothing run |
| Players.EventPlayer.AddStoppedListener | src/com/flaiker/bottimus/players/EventPlayer.java:44-46 | the listener is appended at the end (duplicates allowed), nothing else changes; invariant kept |
| Players.EventPlayer.RemoveStoppedListener | src/com/flaiker/bottimus/players/EventPlayer.java:53-58 | fails with the "never added" IllegalArgument error exactly when the listener is absent, then changes nothing; otherwise the first occurrence is deleted and the rest keep their order; flags untouched |
| Players.EventPlayer.Play | src/com/flaiker/bottimus/players/EventPlayer.java:61-67 | follows PlaybackFlags.Play: on success the flags are the active state, on failure the error is returned and no flag changes; the invariant is kept and listeners are untouched |
| Players.EventPlayer.Pause | src/com/flaiker/bottimus/players/EventPlayer.java:70-73 | new flags are PlaybackFlags.Pause of the old ones; started, stopped and the listeners are untouched; invariant kept |
| Players.EventPlayer.Stop | src/com/flaiker/bottimus/players/EventPlayer.java:76-80 | new flags are PlaybackFlags.Stop of the old ones; started and the listeners are untouched; invariant kept |
| Players.EventPlayer.IsStarted | src/com/flaiker/bottimus/players/EventPlayer.java:82-85 | returns the started flag and changes nothing |
| Players.EventPlayer.IsPlaying | src/com/flaiker/bottimus/players/EventPlayer.java:87-90 | returns the playing flag and changes nothing |
| Players.EventPlayer.IsPaused | src/com/flaiker/bottimus/players/EventPlayer.java:92-95 | returns the paused flag and changes nothing |
| Players.EventPlayer.IsStopped | src/com/flaiker/bottimus/players/EventPlayer.java:97-100 | returns the stopped flag and changes nothing |
| Players.EventPlayer.Provide20MsAudio | src/com/flaiker/bottimus/players/EventPlayer.java:102-108 | returns the underlying frame unchanged; on end of stream the run log grows by exactly the listener list, in registration order; otherwise nothing runs; no flag and no listener changes |
| Players.EventPlayer.Reset | src/com/flaiker/bottimus/players/EventPlayer.java:110-115 | new flags are a new player's flags whatever the prior state; the listener list is untouched |
| Scenarios.FreshPlayerFlags | src/com/flaiker/bottimus/players/EventPlayer.java:30-33 | the accessors of a new player report stopped and nothing else |
| Scenarios.PauseBeforePlay | src/com/flaiker/bottimus/players/EventPlayer.java:70-73 | pause on a new player is accepted and a following play succeeds |
| Scenarios.PlayStopPlay | src/com/flaiker/bottimus/players/EventPlayer.java:62 | play, stop, play: the second play fails with the restart error and the player stays stopped and not playing |
| Scenarios.EndOfStream | src/com/flaiker/bottimus/players/EventPlayer.java:103-108 | three listeners run once each, in registration order, at end of stream; the end of stream is passed on and the player stays playing and not stopped |
| Scenarios.FrameAvailable | src/com/flaiker/bottimus/players/EventPlayer.java:105 | while a frame is available the frame is returned and no listener runs |
| Scenarios.ResetKeepsListeners | src/com/flaiker/bottimus/players/EventPlayer.java:110-115 | after stop and reset the player plays again and a listener added before the reset still runs |
| Scenarios.RemoveNeverAdded | src/com/flaiker/bottimus/players/EventPlayer.java:54-55 | removing an unregistered listener fails with the "never added" error |
| Scenarios.RemoveDuplicate | src/com/flaiker/bottimus/players/EventPlayer.java:53-58 | with a listener registered twice, one removal drops only its first registration |

## Left out

- The JDA `Player` superclass and the audio bytes. `super.provide20MsAudio()` is a
  parameter of `Provide20MsAudio`. Audio encoding, timing and the 20 ms frame size
  are not modelled.
- What listeners do. Each `Runnable` is an identifier, and running it appends that
  identifier to `runs`. The model does not cover listeners that change the list
  during the notification loop, or listeners that throw; the code handles neither.
- Listener identity is plain equality on identifiers, not Java `equals` on
  `Runnable` objects.
- Thread safety. The class has no synchronisation, and the model treats every call
  as sequential.
- `ListenerRegistry.FirstIndex` scans the list once. The Java code scans it twice:
  once for `contains`, once inside `remove`. Both scans find the same first
  occurrence, so the result is the same.
