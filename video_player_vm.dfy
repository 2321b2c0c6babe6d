/**
 * `VideoPlayerVM`: the player of the current room screen. As master it
 * drives the local engine and hands commands to the service; it also
 * notices when the user scrubs with the native controls and broadcasts
 * that seek. As slave it reconciles its engine with received commands.
 *
 * The engine is abstract: the calls made on it and the commands handed to
 * the service form one ordered trace, `effects`; a seek queues its
 * completion in `pendingSeeks`, delivered later by `CompleteSeek(finished)`.
 * Periodic time and rate observations, timer firings and the clock are
 * events with their values as parameters. `service` is the weakly held
 * service at the time of the event: `None` when detached, otherwise its role.
 */
module PlayerVm {
  import opened Wrappers
  import opened Numbers
  import opened Protocol
  import opened Engine

  /** A position jump bigger than playback explains by more than this (seconds) is a native seek. */
  const NativeSeekSlack: real := 0.5

  /** The native-seek test on a jump: the observed change exceeds the expected one by more than the slack. */
  function IsNativeSeekJump(actualDelta: real, expectedDelta: real): (r: bool)
    ensures r ==> Abs(actualDelta) > NativeSeekSlack
    ensures r <==> actualDelta > NativeSeekSlack + Abs(expectedDelta) || actualDelta < -(NativeSeekSlack + Abs(expectedDelta))
  {
    Abs(actualDelta) > NativeSeekSlack + Abs(expectedDelta)
  }

  /** A bigger jump than one that counts as a native seek counts too. */
  lemma LargerJumpIsSeek(actualDelta: real, largerDelta: real, expectedDelta: real)
    requires IsNativeSeekJump(actualDelta, expectedDelta) && Abs(largerDelta) >= Abs(actualDelta)
    ensures IsNativeSeekJump(largerDelta, expectedDelta)
  {
  }

  /** Playback that advanced exactly as the rate predicts is never taken for a seek, whatever the rate. */
  lemma ContinuousPlaybackIsNoSeek(lastPosition: real, elapsed: real, rate: real)
    ensures !IsNativeSeekJump((lastPosition + elapsed * rate) - lastPosition, elapsed * rate)
  {
  }

  /** While paused (rate 0) any jump of more than half a second is a seek. */
  lemma PausedJumpIsSeek(jump: real, elapsed: real)
    requires Abs(jump) > NativeSeekSlack
    ensures IsNativeSeekJump(jump, elapsed * 0.0)
  {
  }

  /** The one-shot 1 s timers kept in `seekCompletionTimer`. */
  datatype SeekTimer =
      /** Started on a native seek: resume as the rate was when it was detected. */
    | ResumeAfterNativeSeek(wasPlaying: bool)
      /** Started when a master seek finished: play and lift suppression. */
    | ResumeAfterMasterSeek

  /** What a seek does when the engine reports it complete. */
  datatype SeekCompletion =
      /** `masterSeek`: only a finished seek clears `isSeeking`, sends `Seek` and starts the resume timer. */
    | ResumeMasterAfterSeek(position: real)
      /** Slave `Play`: play whether or not the seek finished. */
    | PlayAfterSeek
      /** Slave `Pause`: pause whether or not the seek finished. */
    | PauseAfterSeek
      /** Slave `Seek`: end the remote-seek indicator whether or not the seek finished. */
    | EndRemoteSeek
      /** The room's info response for the loaded video: on a finished seek, end remote seeking and apply the play state. */
    | ApplyPlayStateIfFinished(isPlaying: bool)
      /** The room's readiness poll: on a finished seek, apply the play state. */
    | PlayOrPauseIfFinished(isPlaying: bool)

  class VideoPlayerVm {
    var isPlaying: bool
    var currentTime: real
    var duration: real
    var isSeeking: bool
    var isReady: bool
    var isRemoteSeeking: bool
    var currentVideoName: Option<string>

    /** `suppressNativeControlBroadcast`. */
    var suppressBroadcast: bool
    var lastObservedPosition: real
    var lastPositionObservedAt: real
    var lastKnownRate: real

    /** `seekCompletionTimer`: the scheduled, not invalidated timer in the slot. */
    var seekTimer: Option<SeekTimer>
    /** Timers that were replaced in the slot without being invalidated; they still fire. */
    var orphanTimers: seq<SeekTimer>
    /** The 0.3 s resets of suppression scheduled by `masterPlay`/`masterPause`; they cannot be cancelled. */
    var pendingSuppressResets: nat

    var pendingSeeks: seq<SeekCompletion>
    var effects: seq<Effect>

    /** While a master seek's resume timer is in the slot, the player is not seeking. */
    predicate Valid()
      reads this
    {
      seekTimer == Some(ResumeAfterMasterSeek) ==> !isSeeking
    }

    constructor ()
      ensures Valid()
      ensures !isPlaying && currentTime == 0.0 && duration == 0.0
      ensures !isSeeking && !isReady && !isRemoteSeeking && currentVideoName == None
      ensures !suppressBroadcast && lastObservedPosition == 0.0 && lastPositionObservedAt == 0.0 && lastKnownRate == 0.0
      ensures seekTimer == None && orphanTimers == [] && pendingSuppressResets == 0
      ensures pendingSeeks == [] && effects == []
    {
      isPlaying := false;
      currentTime := 0.0;
      duration := 0.0;
      isSeeking := false;
      isReady := false;
      isRemoteSeeking := false;
      currentVideoName := None;
      suppressBroadcast := false;
      lastObservedPosition := 0.0;
      lastPositionObservedAt := 0.0;
      lastKnownRate := 0.0;
      seekTimer := None;
      orphanTimers := [];
      pendingSuppressResets := 0;
      pendingSeeks := [];
      effects := [];
    }

    // Engine primitives

    method EnginePlay()
      modifies this`effects
      ensures effects == old(effects) + [Engine(PlayCall)]
    {
      effects := effects + [Engine(PlayCall)];
    }

    method EnginePause()
      modifies this`effects
      ensures effects == old(effects) + [Engine(PauseCall)]
    {
      effects := effects + [Engine(PauseCall)];
    }

    method EngineSeek(position: real, exact: bool, completion: SeekCompletion)
      modifies this`effects, this`pendingSeeks
      ensures effects == old(effects) + [Engine(SeekCall(position, exact))]
      ensures pendingSeeks == old(pendingSeeks) + [completion]
    {
      effects := effects + [Engine(SeekCall(position, exact))];
      pendingSeeks := pendingSeeks + [completion];
    }

    method Send(service: Option<Role>, command: Command)
      modifies this`effects
      ensures effects == old(effects) + Outbox(service, command)
    {
      effects := effects + Outbox(service, command);
    }

    // Loading and engine status

    /** `loadVideo`: pause, replace the item, remember its name and wait for readiness again. */
    method LoadVideo(videoName: Option<string>)
      modifies this`effects, this`currentVideoName, this`isReady
      ensures effects == old(effects) + [Engine(PauseCall), Engine(LoadCall(videoName))]
      ensures currentVideoName == videoName && !isReady
    {
      EnginePause();
      effects := effects + [Engine(LoadCall(videoName))];
      currentVideoName := videoName;
      isReady := false;
    }

    /** The item reports `readyToPlay`; a finite duration is taken over. */
    method ReadyToPlay(itemDuration: Double)
      modifies this`isReady, this`duration
      ensures isReady
      ensures duration == if itemDuration.Finite? then itemDuration.value else old(duration)
    {
      isReady := true;
      if itemDuration.Finite? {
        duration := itemDuration.value;
      }
    }

    /** The native-seek guard and test, on the state before an observation. */
    predicate DetectsNativeSeek(newPosition: real, now: real, playerRate: real, service: Option<Role>)
      reads this
    {
      !suppressBroadcast && service == Some(Master) && lastPositionObservedAt > 0.0 &&
      IsNativeSeekJump(newPosition - lastObservedPosition, (now - lastPositionObservedAt) * playerRate)
    }

    /**
     * The periodic time observer: record the position (and a finite
     * duration), run native-seek detection, then remember the observation.
     * On detection the player suppresses broadcasts, marks itself seeking,
     * pauses, sends `SeekingStarted` then `Seek(newPosition)`, and replaces
     * any pending timer by a resume timer that remembers whether it was playing.
     *
     * `wasPlaying` is read from `lastKnownRate` after the pause. The rate
     * publisher is not moved to another queue, so the pause's rate change may
     * already have reached it (`pauseNotifiesRate`): the rate is then 0 and
     * the timer will not resume. Suppression is already set, so that
     * notification sends nothing.
     */
    method ObserveTime(newPosition: real, now: real, playerRate: real, itemDuration: Double, service: Option<Role>,
                       pauseNotifiesRate: bool)
      requires Valid()
      modifies this`currentTime, this`duration, this`lastObservedPosition, this`lastPositionObservedAt
      modifies this`suppressBroadcast, this`isSeeking, this`effects, this`seekTimer
      modifies this`lastKnownRate, this`isPlaying
      ensures Valid()
      ensures currentTime == newPosition
      ensures duration == if itemDuration.Finite? then itemDuration.value else old(duration)
      ensures lastObservedPosition == newPosition && lastPositionObservedAt == now
      ensures old(DetectsNativeSeek(newPosition, now, playerRate, service)) ==>
        suppressBroadcast && isSeeking &&
        effects == old(effects) + [Engine(PauseCall), Sent(SeekingStarted), Sent(Seek(newPosition))] &&
        seekTimer == Some(ResumeAfterNativeSeek(!pauseNotifiesRate && old(lastKnownRate) > 0.0))
      ensures old(DetectsNativeSeek(newPosition, now, playerRate, service)) && pauseNotifiesRate ==>
        lastKnownRate == 0.0 && !isPlaying
      ensures !(old(DetectsNativeSeek(newPosition, now, playerRate, service)) && pauseNotifiesRate) ==>
        lastKnownRate == old(lastKnownRate) && isPlaying == old(isPlaying)
      ensures !old(DetectsNativeSeek(newPosition, now, playerRate, service)) ==>
        suppressBroadcast == old(suppressBroadcast) && isSeeking == old(isSeeking) &&
        effects == old(effects) && seekTimer == old(seekTimer)
    {
      var detects := DetectsNativeSeek(newPosition, now, playerRate, service);
      currentTime := newPosition;
      if itemDuration.Finite? {
        duration := itemDuration.value;
      }
      if detects {
        suppressBroadcast := true;
        isSeeking := true;
        EnginePause();
        if pauseNotifiesRate {
          ObserveRate(0.0, service);
        }
        Send(service, SeekingStarted);
        Send(service, Seek(newPosition));
        seekTimer := Some(ResumeAfterNativeSeek(lastKnownRate > 0.0));
      }
      lastObservedPosition := newPosition;
      lastPositionObservedAt := now;
    }

    /**
     * The rate publisher: remember the rate and, unless suppressed and only
     * as master, broadcast the native play (rate > 0) or pause at the current time.
     */
    method ObserveRate(rate: real, service: Option<Role>)
      modifies this`lastKnownRate, this`isPlaying, this`effects
      ensures lastKnownRate == rate && isPlaying == (rate > 0.0)
      ensures !suppressBroadcast && service == Some(Master) && rate > 0.0 ==> effects == old(effects) + [Sent(Play(currentTime))]
      ensures !suppressBroadcast && service == Some(Master) && rate <= 0.0 ==> effects == old(effects) + [Sent(Pause(currentTime))]
      ensures suppressBroadcast || service != Some(Master) ==> effects == old(effects)
    {
      lastKnownRate := rate;
      isPlaying := rate > 0.0;
      if !suppressBroadcast && service == Some(Master) {
        if rate > 0.0 {
          Send(service, Play(currentTime));
        } else {
          Send(service, Pause(currentTime));
        }
      }
    }

    // Master controls

    /** `masterPlay`: suppress native broadcasts, play, send `Play(currentTime)`; suppression lifts 0.3 s later. */
    method MasterPlay(service: Option<Role>)
      modifies this`suppressBroadcast, this`effects, this`pendingSuppressResets
      ensures suppressBroadcast && pendingSuppressResets == old(pendingSuppressResets) + 1
      ensures effects == old(effects) + [Engine(PlayCall)] + Outbox(service, Play(currentTime))
    {
      suppressBroadcast := true;
      EnginePlay();
      Send(service, Play(currentTime));
      pendingSuppressResets := pendingSuppressResets + 1;
    }

    /** `masterPause`: suppress native broadcasts, pause, send `Pause(currentTime)`; suppression lifts 0.3 s later. */
    method MasterPause(service: Option<Role>)
      modifies this`suppressBroadcast, this`effects, this`pendingSuppressResets
      ensures suppressBroadcast && pendingSuppressResets == old(pendingSuppressResets) + 1
      ensures effects == old(effects) + [Engine(PauseCall)] + Outbox(service, Pause(currentTime))
    {
      suppressBroadcast := true;
      EnginePause();
      Send(service, Pause(currentTime));
      pendingSuppressResets := pendingSuppressResets + 1;
    }

    /** A scheduled 0.3 s reset runs: suppression is lifted, whatever set it since. */
    method FireSuppressReset()
      modifies this`suppressBroadcast, this`pendingSuppressResets
      ensures old(pendingSuppressResets) > 0 ==> !suppressBroadcast && pendingSuppressResets == old(pendingSuppressResets) - 1
      ensures old(pendingSuppressResets) == 0 ==> suppressBroadcast == old(suppressBroadcast) && pendingSuppressResets == 0
    {
      if pendingSuppressResets > 0 {
        pendingSuppressResets := pendingSuppressResets - 1;
        suppressBroadcast := false;
      }
    }

    /**
     * `masterSeek`: cancel the pending timer, suppress, mark seeking, send
     * `SeekingStarted` before pausing, then seek; the rest happens in the completion.
     */
    method MasterSeek(position: real, service: Option<Role>)
      modifies this`seekTimer, this`suppressBroadcast, this`isSeeking, this`effects, this`pendingSeeks
      ensures Valid()
      ensures seekTimer == None && suppressBroadcast && isSeeking
      ensures effects == old(effects) + Outbox(service, SeekingStarted) + [Engine(PauseCall), Engine(SeekCall(position, false))]
      ensures pendingSeeks == old(pendingSeeks) + [ResumeMasterAfterSeek(position)]
    {
      seekTimer := None;
      suppressBroadcast := true;
      isSeeking := true;
      Send(service, SeekingStarted);
      EnginePause();
      EngineSeek(position, false, ResumeMasterAfterSeek(position));
    }

    /** `masterForward`: seek to `min(currentTime + seconds, duration)`. */
    method MasterForward(seconds: real, service: Option<Role>)
      modifies this`seekTimer, this`suppressBroadcast, this`isSeeking, this`effects, this`pendingSeeks
      ensures Valid()
      ensures seekTimer == None && suppressBroadcast && isSeeking
      ensures effects == old(effects) + Outbox(service, SeekingStarted) +
        [Engine(PauseCall), Engine(SeekCall(ForwardTarget(currentTime, seconds, duration), false))]
      ensures pendingSeeks == old(pendingSeeks) + [ResumeMasterAfterSeek(ForwardTarget(currentTime, seconds, duration))]
    {
      MasterSeek(ForwardTarget(currentTime, seconds, duration), service);
    }

    /** `masterBackward`: seek to `max(currentTime - seconds, 0)`. */
    method MasterBackward(seconds: real, service: Option<Role>)
      modifies this`seekTimer, this`suppressBroadcast, this`isSeeking, this`effects, this`pendingSeeks
      ensures Valid()
      ensures seekTimer == None && suppressBroadcast && isSeeking
      ensures effects == old(effects) + Outbox(service, SeekingStarted) +
        [Engine(PauseCall), Engine(SeekCall(BackwardTarget(currentTime, seconds), false))]
      ensures pendingSeeks == old(pendingSeeks) + [ResumeMasterAfterSeek(BackwardTarget(currentTime, seconds))]
    {
      MasterSeek(BackwardTarget(currentTime, seconds), service);
    }

    /** `stopBroadcasting`: the timer in the slot is invalidated (orphaned timers are out of its reach). */
    method StopBroadcasting()
      requires Valid()
      modifies this`seekTimer
      ensures Valid()
      ensures seekTimer == None
    {
      seekTimer := None;
    }

    /** The body of a 1 s timer. */
    method RunTimer(timer: SeekTimer, service: Option<Role>)
      modifies this`suppressBroadcast, this`isSeeking, this`effects
      ensures !suppressBroadcast
      ensures timer.ResumeAfterNativeSeek? ==>
        !isSeeking &&
        effects == old(effects) + (if timer.wasPlaying then [Engine(PlayCall)] + Outbox(service, Play(currentTime)) else Outbox(service, Pause(currentTime)))
      ensures timer.ResumeAfterMasterSeek? ==>
        isSeeking == old(isSeeking) &&
        effects == old(effects) + [Engine(PlayCall)] + Outbox(service, Play(currentTime))
    {
      match timer
      case ResumeAfterNativeSeek(wasPlaying) =>
        suppressBroadcast := false;
        isSeeking := false;
        if wasPlaying {
          EnginePlay();
          Send(service, Play(currentTime));
        } else {
          Send(service, Pause(currentTime));
        }
      case ResumeAfterMasterSeek =>
        EnginePlay();
        Send(service, Play(currentTime));
        suppressBroadcast := false;
    }

    /**
     * The timer in the slot fires. A native-seek timer lifts suppression and
     * seeking, then plays and sends `Play` if it was playing, else sends
     * `Pause`; a master-seek timer plays, sends `Play` and lifts suppression.
     */
    method FireSeekTimer(service: Option<Role>)
      requires Valid()
      modifies this`seekTimer, this`suppressBroadcast, this`isSeeking, this`effects
      ensures Valid()
      ensures seekTimer == None
      ensures old(seekTimer) == None ==>
        suppressBroadcast == old(suppressBroadcast) && isSeeking == old(isSeeking) && effects == old(effects)
      ensures old(seekTimer).Some? && old(seekTimer).value.ResumeAfterNativeSeek? ==>
        !suppressBroadcast && !isSeeking &&
        effects == old(effects) + (if old(seekTimer).value.wasPlaying then [Engine(PlayCall)] + Outbox(service, Play(currentTime)) else Outbox(service, Pause(currentTime)))
      ensures old(seekTimer) == Some(ResumeAfterMasterSeek) ==>
        !suppressBroadcast && isSeeking == old(isSeeking) &&
        effects == old(effects) + [Engine(PlayCall)] + Outbox(service, Play(currentTime))
    {
      if seekTimer.Some? {
        var timer := seekTimer.value;
        seekTimer := None;
        RunTimer(timer, service);
      }
    }

    /** The k-th orphaned timer fires, with the same effects as in the slot. */
    method FireOrphanTimer(k: nat, service: Option<Role>)
      requires Valid()
      modifies this`orphanTimers, this`suppressBroadcast, this`isSeeking, this`effects
      ensures Valid()
      ensures k >= |old(orphanTimers)| ==>
        orphanTimers == old(orphanTimers) && suppressBroadcast == old(suppressBroadcast) && isSeeking == old(isSeeking) && effects == old(effects)
      ensures k < |old(orphanTimers)| ==> orphanTimers == old(orphanTimers)[..k] + old(orphanTimers)[k + 1..] && !suppressBroadcast
      ensures k < |old(orphanTimers)| && old(orphanTimers)[k].ResumeAfterNativeSeek? ==>
        !isSeeking &&
        effects == old(effects) + (if old(orphanTimers)[k].wasPlaying then [Engine(PlayCall)] + Outbox(service, Play(currentTime)) else Outbox(service, Pause(currentTime)))
      ensures k < |old(orphanTimers)| && old(orphanTimers)[k].ResumeAfterMasterSeek? ==>
        isSeeking == old(isSeeking) &&
        effects == old(effects) + [Engine(PlayCall)] + Outbox(service, Play(currentTime))
    {
      if k < |orphanTimers| {
        var timer := orphanTimers[k];
        orphanTimers := orphanTimers[..k] + orphanTimers[k + 1..];
        RunTimer(timer, service);
      }
    }

    /**
     * The engine completes the oldest pending seek. The completion of a
     * finished master seek puts its resume timer in the slot without
     * invalidating the timer already there, which becomes an orphan.
     */
    method CompleteSeek(finished: bool, service: Option<Role>)
      requires Valid()
      modifies this`pendingSeeks, this`isSeeking, this`isRemoteSeeking, this`effects, this`seekTimer, this`orphanTimers
      ensures Valid()
      ensures old(pendingSeeks) == [] ==>
        pendingSeeks == [] && isSeeking == old(isSeeking) &&
        isRemoteSeeking == old(isRemoteSeeking) && effects == old(effects) && seekTimer == old(seekTimer) && orphanTimers == old(orphanTimers)
      ensures old(pendingSeeks) != [] ==> pendingSeeks == old(pendingSeeks)[1..]
      ensures old(pendingSeeks) != [] && old(pendingSeeks)[0].ResumeMasterAfterSeek? && finished ==>
        !isSeeking && isRemoteSeeking == old(isRemoteSeeking) &&
        effects == old(effects) + Outbox(service, Seek(old(pendingSeeks)[0].position)) &&
        seekTimer == Some(ResumeAfterMasterSeek) &&
        orphanTimers == old(orphanTimers) + (if old(seekTimer).Some? then [old(seekTimer).value] else [])
      ensures old(pendingSeeks) != [] && old(pendingSeeks)[0].ResumeMasterAfterSeek? && !finished ==>
        isSeeking == old(isSeeking) && isRemoteSeeking == old(isRemoteSeeking) && effects == old(effects) &&
        seekTimer == old(seekTimer) && orphanTimers == old(orphanTimers)
      ensures old(pendingSeeks) != [] && (old(pendingSeeks)[0].PlayAfterSeek? || old(pendingSeeks)[0].PauseAfterSeek?) ==>
        isSeeking == old(isSeeking) && isRemoteSeeking == old(isRemoteSeeking) &&
        effects == old(effects) + [Engine(PlayOrPause(old(pendingSeeks)[0].PlayAfterSeek?))] &&
        seekTimer == old(seekTimer) && orphanTimers == old(orphanTimers)
      ensures old(pendingSeeks) != [] && old(pendingSeeks)[0].EndRemoteSeek? ==>
        isSeeking == old(isSeeking) && !isRemoteSeeking && effects == old(effects) &&
        seekTimer == old(seekTimer) && orphanTimers == old(orphanTimers)
      ensures old(pendingSeeks) != [] && old(pendingSeeks)[0].ApplyPlayStateIfFinished? ==>
        isSeeking == old(isSeeking) && seekTimer == old(seekTimer) && orphanTimers == old(orphanTimers) &&
        (finished ==> !isRemoteSeeking && effects == old(effects) + [Engine(PlayOrPause(old(pendingSeeks)[0].isPlaying))]) &&
        (!finished ==> isRemoteSeeking == old(isRemoteSeeking) && effects == old(effects))
      ensures old(pendingSeeks) != [] && old(pendingSeeks)[0].PlayOrPauseIfFinished? ==>
        isSeeking == old(isSeeking) && isRemoteSeeking == old(isRemoteSeeking) &&
        seekTimer == old(seekTimer) && orphanTimers == old(orphanTimers) &&
        effects == old(effects) + (if finished then [Engine(PlayOrPause(old(pendingSeeks)[0].isPlaying))] else [])
    {
      if pendingSeeks == [] {
        return;
      }
      var completion := pendingSeeks[0];
      pendingSeeks := pendingSeeks[1..];
      match completion
      case ResumeMasterAfterSeek(position) =>
        if finished {
          isSeeking := false;
          Send(service, Seek(position));
          if seekTimer.Some? {
            orphanTimers := orphanTimers + [seekTimer.value];
          }
          seekTimer := Some(ResumeAfterMasterSeek);
        }
      case PlayAfterSeek =>
        EnginePlay();
      case PauseAfterSeek =>
        EnginePause();
      case EndRemoteSeek =>
        isRemoteSeeking := false;
      case ApplyPlayStateIfFinished(play) =>
        if finished {
          isRemoteSeeking := false;
          effects := effects + [Engine(PlayOrPause(play))];
        }
      case PlayOrPauseIfFinished(play) =>
        if finished {
          effects := effects + [Engine(PlayOrPause(play))];
        }
    }

    // Slave reconciliation

    /**
     * `didReceiveVideoCommand`. `Play` and `Pause` seek exactly first when
     * more than 0.1 s off and then play or pause in the completion, finished
     * or not; otherwise they act at once; both end remote seeking.
     * `SeekingStarted` shows remote seeking and pauses. `Seek` seeks exactly
     * and ends remote seeking in its completion. The other commands change nothing.
     */
    method DidReceiveVideoCommand(command: Command)
      modifies this`effects, this`pendingSeeks, this`isRemoteSeeking
      ensures command.Play? || command.Pause? ==> !isRemoteSeeking
      ensures (command.Play? || command.Pause?) && NeedsResync(currentTime, command.position) ==>
        effects == old(effects) + [Engine(SeekCall(command.position, true))] &&
        pendingSeeks == old(pendingSeeks) + [if command.Play? then PlayAfterSeek else PauseAfterSeek]
      ensures (command.Play? || command.Pause?) && !NeedsResync(currentTime, command.position) ==>
        effects == old(effects) + [Engine(PlayOrPause(command.Play?))] && pendingSeeks == old(pendingSeeks)
      ensures command.SeekingStarted? ==>
        isRemoteSeeking && effects == old(effects) + [Engine(PauseCall)] && pendingSeeks == old(pendingSeeks)
      ensures command.Seek? ==>
        isRemoteSeeking == old(isRemoteSeeking) && effects == old(effects) + [Engine(SeekCall(command.position, true))] &&
        pendingSeeks == old(pendingSeeks) + [EndRemoteSeek]
      ensures command.Sync? || command.LoadVideo? || command.RequestVideoInfo? || command.VideoInfoResponse? ==>
        isRemoteSeeking == old(isRemoteSeeking) && effects == old(effects) && pendingSeeks == old(pendingSeeks)
    {
      match command
      case Play(position) =>
        if NeedsResync(currentTime, position) {
          EngineSeek(position, true, PlayAfterSeek);
        } else {
          EnginePlay();
        }
        isRemoteSeeking := false;
      case Pause(position) =>
        isRemoteSeeking := false;
        if NeedsResync(currentTime, position) {
          EngineSeek(position, true, PauseAfterSeek);
        } else {
          EnginePause();
        }
      case SeekingStarted =>
        isRemoteSeeking := true;
        EnginePause();
      case Seek(position) =>
        EngineSeek(position, true, EndRemoteSeek);
      case Sync(_, _) =>
      case LoadVideo(_) =>
      case RequestVideoInfo =>
      case VideoInfoResponse(_, _, _) =>
    }
  }
}
