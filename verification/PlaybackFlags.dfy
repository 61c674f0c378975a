/** The lifecycle of an EventPlayer as values: its four boolean flags and
    the pure transition each control call applies to them. The class
    EventPlayer (module Players) is specified against these functions. */
module PlaybackFlags {
  import opened Failures

  /** The fields `started`, `playing`, `paused` and `stopped`. */
  datatype Flags = Flags(started: bool, playing: bool, paused: bool, stopped: bool)

  /** The invariant every operation keeps: the player is never both playing
      and paused, and it only plays once started and while not stopped. */
  predicate Consistent(f: Flags) {
    !(f.playing && f.paused) && (f.playing ==> f.started && !f.stopped)
  }

  // The four named states of the playback lifecycle. Flags may also hold
  // combinations outside these four (pausing a player that never played).

  /** Never played (or reset): stopped, not started. */
  predicate InIdleState(f: Flags) {
    !f.started && !f.playing && !f.paused && f.stopped
  }

  /** Playing. */
  predicate InActiveState(f: Flags) {
    f.started && f.playing && !f.paused && !f.stopped
  }

  /** Paused after playing. */
  predicate InPausedState(f: Flags) {
    f.started && !f.playing && f.paused && !f.stopped
  }

  /** Stopped after having played: a session that cannot be resumed. */
  predicate InStoppedSession(f: Flags) {
    f.started && !f.playing && !f.paused && f.stopped
  }

  /** The flags of a newly constructed player. */
  function Initial(): (r: Flags)
    ensures InIdleState(r) && Consistent(r)
  {
    Flags(started := false, playing := false, paused := false, stopped := true)
  }

  /** `play`: refuses to restart a session that was started and then
      stopped; otherwise the player is playing. */
  function Play(f: Flags): (r: Result<Flags>)
    ensures r.Failure? <==> f.started && f.stopped
    ensures r.Failure? ==> r.error == CannotRestart
    ensures r.Success? ==> InActiveState(r.value) && Consistent(r.value)
    ensures InIdleState(f) || InActiveState(f) || InPausedState(f) ==> r.Success?
    ensures InStoppedSession(f) ==> r.Failure?
  {
    if f.started && f.stopped then Failure(CannotRestart)
    else Success(Flags(started := true, playing := true, paused := false, stopped := false))
  }

  /** `pause`: no precondition; records paused and not playing. */
  function Pause(f: Flags): (r: Flags)
    ensures r.paused && !r.playing
    ensures r.started == f.started && r.stopped == f.stopped
    ensures Consistent(r)
    ensures InActiveState(f) || InPausedState(f) ==> InPausedState(r)
    ensures Play(r).Success? <==> Play(f).Success?
  {
    f.(playing := false, paused := true)
  }

  /** `stop`: always succeeds; the player is stopped and neither playing
      nor paused. */
  function Stop(f: Flags): (r: Flags)
    ensures r.stopped && !r.playing && !r.paused
    ensures r.started == f.started
    ensures Consistent(r)
    ensures InActiveState(f) || InPausedState(f) || InStoppedSession(f) ==> InStoppedSession(r)
    ensures InIdleState(f) ==> InIdleState(r)
    ensures Play(r).Failure? <==> r.started
  {
    f.(playing := false, paused := false, stopped := true)
  }

  /** `reset`: back to the flags of a new player, whatever the state. */
  function Reset(f: Flags): (r: Flags)
    ensures r == Initial()
    ensures InIdleState(r) && Play(r).Success?
  {
    Flags(started := false, playing := false, paused := false, stopped := true)
  }

  /** Calling `stop` twice is the same as calling it once. */
  lemma StopIdempotent(f: Flags)
    ensures Stop(Stop(f)) == Stop(f)
  {
  }

  /** A control call on the player, as far as the flags are concerned.
      Listener registration and frame production leave the flags alone. */
  datatype Op = PlayOp | PauseOp | StopOp | ResetOp

  /** The flags after one control call; a refused `play` changes nothing. */
  function Step(f: Flags, op: Op): Flags {
    match op
    case PlayOp => (match Play(f) case Success(g) => g case Failure(_) => f)
    case PauseOp => Pause(f)
    case StopOp => Stop(f)
    case ResetOp => Reset(f)
  }

  /** The flags after a sequence of control calls, in order. */
  function Run(f: Flags, ops: seq<Op>): Flags
    decreases |ops|
  {
    if ops == [] then f else Run(Step(f, ops[0]), ops[1..])
  }

  /** Every sequence of control calls keeps the invariant. */
  lemma {:induction false} RunConsistent(f: Flags, ops: seq<Op>)
    requires Consistent(f)
    ensures Consistent(Run(f, ops))
    decreases |ops|
  {
    if ops != [] {
      RunConsistent(Step(f, ops[0]), ops[1..]);
    }
  }

  /** In particular, every reachable state of a new player is consistent. */
  lemma ReachableConsistent(ops: seq<Op>)
    ensures Consistent(Run(Initial(), ops))
  {
    RunConsistent(Initial(), ops);
  }

  /** `started` goes from false to true only through `play`. */
  lemma {:induction false} StartedOnlyByPlay(f: Flags, ops: seq<Op>)
    requires !f.started && Run(f, ops).started
    ensures PlayOp in ops
    decreases |ops|
  {
    if ops[0] != PlayOp {
      StartedOnlyByPlay(Step(f, ops[0]), ops[1..]);
    }
  }

  /** `started` goes from true to false only through `reset`. */
  lemma {:induction false} StartedClearedOnlyByReset(f: Flags, ops: seq<Op>)
    requires f.started && !Run(f, ops).started
    ensures ResetOp in ops
    decreases |ops|
  {
    if ops[0] != ResetOp {
      StartedClearedOnlyByReset(Step(f, ops[0]), ops[1..]);
    }
  }

  /** A session that was started and then stopped is over: without a
      `reset`, no sequence of calls makes the player play again. */
  lemma {:induction false} StoppedSessionIsFinal(f: Flags, ops: seq<Op>)
    requires Consistent(f) && f.started && f.stopped
    requires ResetOp !in ops
    ensures Run(f, ops).started && Run(f, ops).stopped && !Run(f, ops).playing
    decreases |ops|
  {
    if ops != [] {
      StoppedSessionIsFinal(Step(f, ops[0]), ops[1..]);
    }
  }
}
