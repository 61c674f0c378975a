/** EventPlayer: an audio player that tracks its playback lifecycle in four
    flags and runs its registered stop listeners when the underlying player
    has no more audio. */
module Players {
  import opened Failures
  import PlaybackFlags
  import ListenerRegistry

  /** Identity of a registered listener (a Java `Runnable`). */
  type ListenerId = nat

  /** One frame of encoded audio, as produced by the underlying player. */
  type Frame = seq<bv8>

  class EventPlayer {
    /** Registered stop listeners, in registration order. */
    var stoppedListeners: seq<ListenerId>
    var started: bool
    var playing: bool
    var paused: bool
    var stopped: bool
    /** Every listener run so far, in the order they were run. Running a
        listener is modelled as appending its identity here. */
    var runs: seq<ListenerId>

    /** The four lifecycle flags as one value. */
    function State(): PlaybackFlags.Flags
      reads this
    {
      PlaybackFlags.Flags(started, playing, paused, stopped)
    }

    ghost predicate Valid()
      reads this
    {
      PlaybackFlags.Consistent(State())
    }

    /** A new player: stopped and never started, with no listeners. */
    constructor ()
      ensures Valid()
      ensures State() == PlaybackFlags.Initial()
      ensures stoppedListeners == [] && runs == []
    {
      stoppedListeners := [];
      started, playing, paused, stopped := false, false, false, true;
      runs := [];
    }

    /** Registers `listener` at the end of the list; duplicates are kept. */
    method AddStoppedListener(listener: ListenerId)
      requires Valid()
      modifies this`stoppedListeners
      ensures Valid()
      ensures stoppedListeners == old(stoppedListeners) + [listener]
    {
      stoppedListeners := stoppedListeners + [listener];
    }

    /** Removes the first registration of `listener`; fails, changing
        nothing, when it is not registered. */
    method RemoveStoppedListener(listener: ListenerId) returns (r: Outcome)
      requires Valid()
      modifies this`stoppedListeners
      ensures Valid()
      ensures r.Fail? <==> listener !in old(stoppedListeners)
      ensures r.Fail? ==> r.error == NeverAdded
      ensures stoppedListeners == ListenerRegistry.RemoveFirst(old(stoppedListeners), listener)
      ensures r.Pass? ==> exists i :: (0 <= i < |old(stoppedListeners)| && old(stoppedListeners)[i] == listener &&
        listener !in old(stoppedListeners)[..i] &&
        stoppedListeners == old(stoppedListeners)[..i] + old(stoppedListeners)[i + 1..])
    {
      var at := ListenerRegistry.FirstIndex(stoppedListeners, listener);
      if at.None? {
        return Fail(NeverAdded);
      }
      ListenerRegistry.RemoveFirstAt(stoppedListeners, listener, at.value);
      stoppedListeners := stoppedListeners[..at.value] + stoppedListeners[at.value + 1..];
      r := Pass;
    }

    /** Starts or resumes playback; a session that was started and then
        stopped cannot be restarted, and the refused call changes nothing. */
    method Play() returns (r: Outcome)
      requires Valid()
      modifies this`started, this`playing, this`paused, this`stopped
      ensures Valid()
      ensures match PlaybackFlags.Play(old(State()))
        case Success(f) => r == Pass && State() == f
        case Failure(e) => r == Fail(e) && State() == old(State())
    {
      if started && stopped {
        return Fail(CannotRestart);
      }
      started := true;
      playing := true;
      paused := false;
      stopped := false;
      r := Pass;
    }

    method Pause()
      requires Valid()
      modifies this`playing, this`paused
      ensures Valid()
      ensures State() == PlaybackFlags.Pause(old(State()))
    {
      playing := false;
      paused := true;
    }

    method Stop()
      requires Valid()
      modifies this`playing, this`paused, this`stopped
      ensures Valid()
      ensures State() == PlaybackFlags.Stop(old(State()))
    {
      playing := false;
      paused := false;
      stopped := true;
    }

    method IsStarted() returns (b: bool)
      ensures b == started
    {
      b := started;
    }

    method IsPlaying() returns (b: bool)
      ensures b == playing
    {
      b := playing;
    }

    method IsPaused() returns (b: bool)
      ensures b == paused
    {
      b := paused;
    }

    method IsStopped() returns (b: bool)
      ensures b == stopped
    {
      b := stopped;
    }

    /** Produces the next frame. `superFrame` is what the underlying player
        produced (None for its null: no more audio). On None every
        registered listener is run once, in registration order; the frame is
        returned unchanged and no flag changes. */
    method Provide20MsAudio(superFrame: Option<Frame>) returns (bytes: Option<Frame>)
      requires Valid()
      modifies this`runs
      ensures Valid()
      ensures bytes == superFrame
      ensures superFrame.None? ==> runs == old(runs) + stoppedListeners
      ensures superFrame.Some? ==> runs == old(runs)
    {
      bytes := superFrame;
      if bytes.None? {
        var i := 0;
        while i < |stoppedListeners|
          invariant 0 <= i <= |stoppedListeners|
          invariant runs == old(runs) + stoppedListeners[..i]
        {
          runs := runs + [stoppedListeners[i]];
          i := i + 1;
        }
        assert stoppedListeners[..i] == stoppedListeners;
      }
    }

    /** Returns the flags to those of a new player; listeners stay
        registered. */
    method Reset()
      requires Valid()
      modifies this`started, this`playing, this`paused, this`stopped
      ensures Valid()
      ensures State() == PlaybackFlags.Reset(old(State()))
    {
      started := false;
      playing := false;
      paused := false;
      stopped := true;
    }
  }
}
