/** Call sequences on a new EventPlayer, and what a caller can conclude
    from the class's contracts alone. */
module Scenarios {
  import opened Failures
  import opened Players

  /** A new player reports stopped, and not started, playing or paused. */
  method FreshPlayerFlags() returns (started: bool, playing: bool, paused: bool, stopped: bool)
    ensures !started && !playing && !paused && stopped
  {
    var p := new EventPlayer();
    started := p.IsStarted();
    playing := p.IsPlaying();
    paused := p.IsPaused();
    stopped := p.IsStopped();
  }

  /** Pausing before any `play` is accepted, and `play` still works after it. */
  method PauseBeforePlay() returns (paused: bool, r: Outcome, playing: bool)
    ensures paused && r == Pass && playing
  {
    var p := new EventPlayer();
    p.Pause();
    paused := p.IsPaused();
    r := p.Play();
    playing := p.IsPlaying();
  }

  /** play, stop, play: the second `play` is refused and leaves the player
      stopped. */
  method PlayStopPlay() returns (first: Outcome, second: Outcome, playing: bool, stopped: bool)
    ensures first == Pass
    ensures second == Fail(CannotRestart)
    ensures !playing && stopped
  {
    var p := new EventPlayer();
    first := p.Play();
    p.Stop();
    second := p.Play();
    playing := p.IsPlaying();
    stopped := p.IsStopped();
  }

  /** Three listeners registered, then the underlying player runs out of
      audio: each runs once, in registration order, the end of stream is
      passed on, and the stopped flag keeps its value. */
  method EndOfStream(l1: ListenerId, l2: ListenerId, l3: ListenerId)
    returns (frame: Option<Frame>, runs: seq<ListenerId>, playing: bool, stopped: bool)
    ensures frame == None && runs == [l1, l2, l3]
    ensures playing && !stopped
  {
    var p := new EventPlayer();
    p.AddStoppedListener(l1);
    p.AddStoppedListener(l2);
    p.AddStoppedListener(l3);
    var _ := p.Play();
    frame := p.Provide20MsAudio(None);
    runs := p.runs;
    playing := p.IsPlaying();
    stopped := p.IsStopped();
  }

  /** While audio is available no listener runs. */
  method FrameAvailable(l: ListenerId, f: Frame) returns (frame: Option<Frame>, runs: seq<ListenerId>)
    ensures frame == Some(f) && runs == []
  {
    var p := new EventPlayer();
    p.AddStoppedListener(l);
    frame := p.Provide20MsAudio(Some(f));
    runs := p.runs;
  }

  /** `reset` keeps the listeners: one added before it still runs at the
      next end of stream, and a reset player can be played again. */
  method ResetKeepsListeners(l: ListenerId) returns (r: Outcome, runs: seq<ListenerId>)
    ensures r == Pass && runs == [l]
  {
    var p := new EventPlayer();
    p.AddStoppedListener(l);
    var _ := p.Play();
    p.Stop();
    p.Reset();
    r := p.Play();
    var _ := p.Provide20MsAudio(None);
    runs := p.runs;
  }

  /** Removing a listener that was never added is refused. */
  method RemoveNeverAdded(l: ListenerId, other: ListenerId) returns (r: Outcome)
    requires l != other
    ensures r == Fail(NeverAdded)
  {
    var p := new EventPlayer();
    p.AddStoppedListener(other);
    r := p.RemoveStoppedListener(l);
  }

  /** With a listener registered twice, removing it once drops only its
      first registration, and it still runs once at the end of stream. */
  method RemoveDuplicate(a: ListenerId, b: ListenerId) returns (r: Outcome, runs: seq<ListenerId>)
    ensures r == Pass && runs == [b, a]
  {
    var p := new EventPlayer();
    p.AddStoppedListener(a);
    p.AddStoppedListener(b);
    p.AddStoppedListener(a);
    r := p.RemoveStoppedListener(a);
    var _ := p.Provide20MsAudio(None);
    runs := p.runs;
  }
}
