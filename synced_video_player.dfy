/**
 * `SyncedVideoPlayer`: the player of the older room screen. As master,
 * play starts a repeating heartbeat that sends `Sync(currentTime,
 * isPlaying)`, and pause stops it; there is no native-seek detection and no
 * broadcast suppression. As slave it reconciles with received commands,
 * including `Sync`.
 *
 * The engine is abstract as in `PlayerVm`: one ordered trace of engine calls
 * and sent commands, and a queue of seek completions delivered by
 * `CompleteSeek(finished)`.
 */
module SyncedPlayer {
  import opened Wrappers
  import opened Numbers
  import opened Protocol
  import opened Engine

  /** The heartbeat period used when the player is created without one, in seconds. */
  const DefaultSyncInterval: real := 2.0

  /**
   * The engine call `applyPlayState` makes for a `Sync(_, target)`: play
   * only when asked to play and not playing, pause only when asked to pause
   * and playing; a matching state needs no call.
   */
  function SyncPlayStateCall(target: bool, playing: bool): (r: Option<EngineCall>)
    ensures r.None? <==> target == playing
    ensures r == Some(PlayCall) <==> target && !playing
    ensures r == Some(PauseCall) <==> !target && playing
  {
    if target && !playing then Some(PlayCall)
    else if !target && playing then Some(PauseCall)
    else None
  }

  /** Once the play state matches, applying a `Sync` again changes nothing. */
  lemma SyncPlayStateIdempotent(target: bool, playing: bool)
    ensures var r := SyncPlayStateCall(target, playing);
      var after := if r == Some(PlayCall) then true else if r == Some(PauseCall) then false else playing;
      after == target && SyncPlayStateCall(target, after) == None
  {
  }

  function CallSeq(call: Option<EngineCall>): (r: seq<Effect>)
    ensures call.None? ==> r == []
    ensures call.Some? ==> r == [Engine(call.value)]
  {
    if call.Some? then [Engine(call.value)] else []
  }

  /** What a seek does when the engine reports it complete. */
  datatype SeekCompletion =
      /** `masterSeek`: only a finished seek clears `isSeeking`, sends `Seek` and starts the resume timer. */
    | ResumeMasterAfterSeek(position: real)
      /** Slave `Play`: play only if the seek finished. */
    | PlayIfFinished
      /** Slave `Pause`: pause only if the seek finished. */
    | PauseIfFinished
      /** Slave `Seek`: end remote seeking, finished or not. */
    | EndRemoteSeek
      /** Slave `Sync`: end remote seeking and apply the play state, finished or not. */
    | ApplySyncState(isPlaying: bool)
      /** The older room's info response and readiness poll: on a finished seek, play or pause. */
    | PlayOrPauseIfFinished(isPlaying: bool)

  class SyncedVideoPlayer {
    var isPlaying: bool
    var currentTime: real
    var duration: real
    var isSeeking: bool
    var isReady: bool
    var isRemoteSeeking: bool
    var currentVideoName: Option<string>

    const syncInterval: real
    /** `syncTimer`: whether the repeating heartbeat is scheduled; one slot, so at most one is. */
    var syncTimer: bool
    /** `seekCompletionTimer`: whether the 1 s resume timer in the slot is scheduled. */
    var seekTimer: bool
    /** Resume timers that were replaced in the slot without being invalidated; they still fire. */
    var orphanTimers: nat

    var pendingSeeks: seq<SeekCompletion>
    var effects: seq<Effect>

    /** While the resume timer is in the slot, the player is not seeking. */
    predicate Valid()
      reads this
    {
      seekTimer ==> !isSeeking
    }

    constructor (syncInterval: real)
      ensures Valid()
      ensures this.syncInterval == syncInterval
      ensures !isPlaying && currentTime == 0.0 && duration == 0.0
      ensures !isSeeking && !isReady && !isRemoteSeeking && currentVideoName == None
      ensures !syncTimer && !seekTimer && orphanTimers == 0
      ensures pendingSeeks == [] && effects == []
    {
      this.syncInterval := syncInterval;
      isPlaying := false;
      currentTime := 0.0;
      duration := 0.0;
      isSeeking := false;
      isReady := false;
      isRemoteSeeking := false;
      currentVideoName := None;
      syncTimer := false;
      seekTimer := false;
      orphanTimers := 0;
      pendingSeeks := [];
      effects := [];
    }

    // Engine primitives

    method EnginePlay()
      modifies this`effects
      ensures effects == old(effects) + [Engine(PlayCall)]
    {
      effects := effects + [Engine(PlayCall)];
    }

    method EnginePause()
      modifies this`effects
      ensures effects == old(effects) + [Engine(PauseCall)]
    {
      effects := effects + [Engine(PauseCall)];
    }

    method EngineSeek(position: real, exact: bool, completion: SeekCompletion)
      modifies this`effects, this`pendingSeeks
      ensures effects == old(effects) + [Engine(SeekCall(position, exact))]
      ensures pendingSeeks == old(pendingSeeks) + [completion]
    {
      effects := effects + [Engine(SeekCall(position, exact))];
      pendingSeeks := pendingSeeks + [completion];
    }

    method Send(service: Option<Role>, command: Command)
      modifies this`effects
      ensures effects == old(effects) + Outbox(service, command)
    {
      effects := effects + Outbox(service, command);
    }

    // Loading and engine status

    /** `loadVideo`: pause, replace the item, remember its name and wait for readiness again. */
    method LoadVideo(videoName: Option<string>)
      modifies this`effects, this`currentVideoName, this`isReady
      ensures effects == old(effects) + [Engine(PauseCall), Engine(LoadCall(videoName))]
      ensures currentVideoName == videoName && !isReady
    {
      EnginePause();
      effects := effects + [Engine(LoadCall(videoName))];
      currentVideoName := videoName;
      isReady := false;
    }

    /** The item reports `readyToPlay`; a finite duration is taken over. */
    method ReadyToPlay(itemDuration: Double)
      modifies this`isReady, this`duration
      ensures isReady
      ensures duration == if itemDuration.Finite? then itemDuration.value else old(duration)
    {
      isReady := true;
      if itemDuration.Finite? {
        duration := itemDuration.value;
      }
    }

    /** The periodic time observer: position and a finite duration only. */
    method ObserveTime(newPosition: real, itemDuration: Double)
      modifies this`currentTime, this`duration
      ensures currentTime == newPosition
      ensures duration == if itemDuration.Finite? then itemDuration.value else old(duration)
    {
      currentTime := newPosition;
      if itemDuration.Finite? {
        duration := itemDuration.value;
      }
    }

    /** The rate publisher. */
    method ObserveRate(rate: real)
      modifies this`isPlaying
      ensures isPlaying == (rate > 0.0)
    {
      isPlaying := rate > 0.0;
    }

    // Master controls and the heartbeat

    /** `masterPlay`: play, send `Play(currentTime)`, (re)start the heartbeat. */
    method MasterPlay(service: Option<Role>)
      modifies this`effects, this`syncTimer
      ensures syncTimer
      ensures effects == old(effects) + [Engine(PlayCall)] + Outbox(service, Play(currentTime))
    {
      EnginePlay();
      Send(service, Play(currentTime));
      StartSyncTimer();
    }

    /** `masterPause`: pause, send `Pause(currentTime)`, stop the heartbeat. */
    method MasterPause(service: Option<Role>)
      modifies this`effects, this`syncTimer
      ensures !syncTimer
      ensures effects == old(effects) + [Engine(PauseCall)] + Outbox(service, Pause(currentTime))
    {
      EnginePause();
      Send(service, Pause(currentTime));
      StopSyncTimer();
    }

    /** `startSyncTimer`: the running heartbeat is stopped first, so one is left scheduled. */
    method StartSyncTimer()
      modifies this`syncTimer
      ensures syncTimer
    {
      StopSyncTimer();
      syncTimer := true;
    }

    method StopSyncTimer()
      modifies this`syncTimer
      ensures !syncTimer
    {
      syncTimer := false;
    }

    /** A heartbeat tick: send `Sync(currentTime, isPlaying)` while the heartbeat is scheduled. */
    method TickSyncTimer(service: Option<Role>)
      modifies this`effects
      ensures syncTimer ==> effects == old(effects) + Outbox(service, Sync(currentTime, isPlaying))
      ensures !syncTimer ==> effects == old(effects)
    {
      if syncTimer {
        Send(service, Sync(currentTime, isPlaying));
      }
    }

    /** `masterSeek`: cancel the pending resume, mark seeking, send `SeekingStarted` before pausing, then seek. */
    method MasterSeek(position: real, service: Option<Role>)
      modifies this`seekTimer, this`isSeeking, this`effects, this`pendingSeeks
      ensures Valid()
      ensures !seekTimer && isSeeking
      ensures effects == old(effects) + Outbox(service, SeekingStarted) + [Engine(PauseCall), Engine(SeekCall(position, false))]
      ensures pendingSeeks == old(pendingSeeks) + [ResumeMasterAfterSeek(position)]
    {
      seekTimer := false;
      isSeeking := true;
      Send(service, SeekingStarted);
      EnginePause();
      EngineSeek(position, false, ResumeMasterAfterSeek(position));
    }

    /** `masterForward`: seek to `min(currentTime + seconds, duration)`. */
    method MasterForward(seconds: real, service: Option<Role>)
      modifies this`seekTimer, this`isSeeking, this`effects, this`pendingSeeks
      ensures Valid()
      ensures !seekTimer && isSeeking
      ensures effects == old(effects) + Outbox(service, SeekingStarted) +
        [Engine(PauseCall), Engine(SeekCall(ForwardTarget(currentTime, seconds, duration), false))]
      ensures pendingSeeks == old(pendingSeeks) + [ResumeMasterAfterSeek(ForwardTarget(currentTime, seconds, duration))]
    {
      MasterSeek(ForwardTarget(currentTime, seconds, duration), service);
    }

    /** `masterBackward`: seek to `max(currentTime - seconds, 0)`. */
    method MasterBackward(seconds: real, service: Option<Role>)
      modifies this`seekTimer, this`isSeeking, this`effects, this`pendingSeeks
      ensures Valid()
      ensures !seekTimer && isSeeking
      ensures effects == old(effects) + Outbox(service, SeekingStarted) +
        [Engine(PauseCall), Engine(SeekCall(BackwardTarget(currentTime, seconds), false))]
      ensures pendingSeeks == old(pendingSeeks) + [ResumeMasterAfterSeek(BackwardTarget(currentTime, seconds))]
    {
      MasterSeek(BackwardTarget(currentTime, seconds), service);
    }

    /** `stopBroadcasting`: neither the heartbeat nor the resume timer in the slot stays scheduled. */
    method StopBroadcasting()
      modifies this`syncTimer, this`seekTimer
      ensures Valid()
      ensures !syncTimer && !seekTimer
    {
      StopSyncTimer();
      seekTimer := false;
    }

    /** The resume timer in the slot fires: play and send `Play(currentTime)`. */
    method FireSeekTimer(service: Option<Role>)
      modifies this`seekTimer, this`effects
      ensures Valid()
      ensures !seekTimer
      ensures old(seekTimer) ==> effects == old(effects) + [Engine(PlayCall)] + Outbox(service, Play(currentTime))
      ensures !old(seekTimer) ==> effects == old(effects)
    {
      if seekTimer {
        seekTimer := false;
        EnginePlay();
        Send(service, Play(currentTime));
      }
    }

    /** An orphaned resume timer fires, with the same effect. */
    method FireOrphanTimer(service: Option<Role>)
      modifies this`orphanTimers, this`effects
      ensures old(orphanTimers) > 0 ==>
        orphanTimers == old(orphanTimers) - 1 &&
        effects == old(effects) + [Engine(PlayCall)] + Outbox(service, Play(currentTime))
      ensures old(orphanTimers) == 0 ==> orphanTimers == 0 && effects == old(effects)
    {
      if orphanTimers > 0 {
        orphanTimers := orphanTimers - 1;
        EnginePlay();
        Send(service, Play(currentTime));
      }
    }

    /** `applyPlayState` of a `Sync`: end remote seeking, then play or pause only on a mismatch. */
    method ApplySyncPlayState(target: bool)
      modifies this`isRemoteSeeking, this`effects
      ensures !isRemoteSeeking
      ensures effects == old(effects) + CallSeq(SyncPlayStateCall(target, isPlaying))
    {
      isRemoteSeeking := false;
      var call := SyncPlayStateCall(target, isPlaying);
      if call.Some? {
        effects := effects + [Engine(call.value)];
      }
    }

    /**
     * The engine completes the oldest pending seek. A finished master seek
     * puts a resume timer in the slot; one already there is not invalidated
     * and becomes an orphan.
     */
    method CompleteSeek(finished: bool, service: Option<Role>)
      requires Valid()
      modifies this`pendingSeeks, this`isSeeking, this`isRemoteSeeking, this`effects, this`seekTimer, this`orphanTimers
      ensures Valid()
      ensures old(pendingSeeks) == [] ==>
        pendingSeeks == [] && isSeeking == old(isSeeking) && isRemoteSeeking == old(isRemoteSeeking) &&
        effects == old(effects) && seekTimer == old(seekTimer) && orphanTimers == old(orphanTimers)
      ensures old(pendingSeeks) != [] ==> pendingSeeks == old(pendingSeeks)[1..]
      ensures old(pendingSeeks) != [] && old(pendingSeeks)[0].ResumeMasterAfterSeek? && finished ==>
        !isSeeking && isRemoteSeeking == old(isRemoteSeeking) &&
        effects == old(effects) + Outbox(service, Seek(old(pendingSeeks)[0].position)) &&
        seekTimer && orphanTimers == old(orphanTimers) + (if old(seekTimer) then 1 else 0)
      ensures old(pendingSeeks) != [] && old(pendingSeeks)[0].ResumeMasterAfterSeek? && !finished ==>
        isSeeking == old(isSeeking) && isRemoteSeeking == old(isRemoteSeeking) && effects == old(effects) &&
        seekTimer == old(seekTimer) && orphanTimers == old(orphanTimers)
      ensures old(pendingSeeks) != [] && (old(pendingSeeks)[0].PlayIfFinished? || old(pendingSeeks)[0].PauseIfFinished?) ==>
        isSeeking == old(isSeeking) && isRemoteSeeking == old(isRemoteSeeking) &&
        seekTimer == old(seekTimer) && orphanTimers == old(orphanTimers) &&
        effects == old(effects) + (if finished then [Engine(PlayOrPause(old(pendingSeeks)[0].PlayIfFinished?))] else [])
      ensures old(pendingSeeks) != [] && old(pendingSeeks)[0].EndRemoteSeek? ==>
        isSeeking == old(isSeeking) && !isRemoteSeeking && effects == old(effects) &&
        seekTimer == old(seekTimer) && orphanTimers == old(orphanTimers)
      ensures old(pendingSeeks) != [] && old(pendingSeeks)[0].ApplySyncState? ==>
        isSeeking == old(isSeeking) && !isRemoteSeeking &&
        seekTimer == old(seekTimer) && orphanTimers == old(orphanTimers) &&
        effects == old(effects) + CallSeq(SyncPlayStateCall(old(pendingSeeks)[0].isPlaying, isPlaying))
      ensures old(pendingSeeks) != [] && old(pendingSeeks)[0].PlayOrPauseIfFinished? ==>
        isSeeking == old(isSeeking) && isRemoteSeeking == old(isRemoteSeeking) &&
        seekTimer == old(seekTimer) && orphanTimers == old(orphanTimers) &&
        effects == old(effects) + (if finished then [Engine(PlayOrPause(old(pendingSeeks)[0].isPlaying))] else [])
    {
      if pendingSeeks == [] {
        return;
      }
      var completion := pendingSeeks[0];
      pendingSeeks := pendingSeeks[1..];
      match completion
      case ResumeMasterAfterSeek(position) =>
        if finished {
          isSeeking := false;
          Send(service, Seek(position));
          if seekTimer {
            orphanTimers := orphanTimers + 1;
          }
          seekTimer := true;
        }
      case PlayIfFinished =>
        if finished {
          EnginePlay();
        }
      case PauseIfFinished =>
        if finished {
          EnginePause();
        }
      case EndRemoteSeek =>
        isRemoteSeeking := false;
      case ApplySyncState(target) =>
        ApplySyncPlayState(target);
      case PlayOrPauseIfFinished(play) =>
        if finished {
          effects := effects + [Engine(PlayOrPause(play))];
        }
    }

    // Slave reconciliation

    /**
     * `didReceiveVideoCommand`. `Play` and `Pause` seek exactly first when
     * more than 0.1 s off and act in the completion only if the seek
     * finished; otherwise they act at once; both end remote seeking.
     * `SeekingStarted` shows remote seeking and pauses; `Seek` seeks exactly
     * and ends remote seeking in its completion. `Sync` seeks first when more
     * than 0.1 s off and applies the play state in the completion whatever
     * its outcome, otherwise applies it at once. The other commands change nothing.
     */
    method DidReceiveVideoCommand(command: Command)
      modifies this`effects, this`pendingSeeks, this`isRemoteSeeking
      ensures command.Play? || command.Pause? ==> !isRemoteSeeking
      ensures (command.Play? || command.Pause?) && NeedsResync(currentTime, command.position) ==>
        effects == old(effects) + [Engine(SeekCall(command.position, true))] &&
        pendingSeeks == old(pendingSeeks) + [if command.Play? then PlayIfFinished else PauseIfFinished]
      ensures (command.Play? || command.Pause?) && !NeedsResync(currentTime, command.position) ==>
        effects == old(effects) + [Engine(PlayOrPause(command.Play?))] && pendingSeeks == old(pendingSeeks)
      ensures command.SeekingStarted? ==>
        isRemoteSeeking && effects == old(effects) + [Engine(PauseCall)] && pendingSeeks == old(pendingSeeks)
      ensures command.Seek? ==>
        isRemoteSeeking == old(isRemoteSeeking) && effects == old(effects) + [Engine(SeekCall(command.position, true))] &&
        pendingSeeks == old(pendingSeeks) + [EndRemoteSeek]
      ensures command.Sync? && NeedsResync(currentTime, command.position) ==>
        isRemoteSeeking == old(isRemoteSeeking) && effects == old(effects) + [Engine(SeekCall(command.position, true))] &&
        pendingSeeks == old(pendingSeeks) + [ApplySyncState(command.isPlaying)]
      ensures command.Sync? && !NeedsResync(currentTime, command.position) ==>
        !isRemoteSeeking && effects == old(effects) + CallSeq(SyncPlayStateCall(command.isPlaying, isPlaying)) &&
        pendingSeeks == old(pendingSeeks)
      ensures command.LoadVideo? || command.RequestVideoInfo? || command.VideoInfoResponse? ==>
        isRemoteSeeking == old(isRemoteSeeking) && effects == old(effects) && pendingSeeks == old(pendingSeeks)
    {
      match command
      case Play(position) =>
        if NeedsResync(currentTime, position) {
          EngineSeek(position, true, PlayIfFinished);
        } else {
          EnginePlay();
        }
        isRemoteSeeking := false;
      case Pause(position) =>
        isRemoteSeeking := false;
        if NeedsResync(currentTime, position) {
          EngineSeek(position, true, PauseIfFinished);
        } else {
          EnginePause();
        }
      case SeekingStarted =>
        isRemoteSeeking := true;
        EnginePause();
      case Seek(position) =>
        EngineSeek(position, true, EndRemoteSeek);
      case Sync(position, target) =>
        if NeedsResync(currentTime, position) {
          EngineSeek(position, true, ApplySyncState(target));
        } else {
          ApplySyncPlayState(target);
        }
      case LoadVideo(_) =>
      case RequestVideoInfo =>
      case VideoInfoResponse(_, _, _) =>
    }
  }
}
