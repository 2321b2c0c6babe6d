/**
 * Whole runs of the players and the room, from a fresh object to the
 * commands and engine calls they produce.
 */
module Scenarios {
  import opened Wrappers
  import opened Numbers
  import opened Protocol
  import opened Engine
  import opened VideoLibrary
  import opened RoomRules
  import opened PlayerVm
  import Service
  import RoomSync

  /**
   * A master scrubs with the native controls from 10 s to 50 s while
   * playing: the first observation only arms detection, the jump is
   * broadcast as `SeekingStarted` then `Seek(50)`, and, when the pause's
   * rate change has not reached the rate publisher before `wasPlaying` is
   * read, the resume timer plays again and re-announces `Play(50)`.
   */
  method NativeScrubWhilePlaying() returns (trace: seq<Effect>)
    ensures trace == [Sent(Play(0.0)), Engine(PauseCall), Sent(SeekingStarted), Sent(Seek(50.0)),
                      Engine(PlayCall), Sent(Play(50.0))]
  {
    var vm := new VideoPlayerVm();
    vm.ObserveRate(1.0, Some(Master));
    vm.ObserveTime(10.0, 100.0, 1.0, NonFinite, Some(Master), false);
    vm.ObserveTime(50.0, 100.5, 1.0, NonFinite, Some(Master), false);
    vm.FireSeekTimer(Some(Master));
    trace := vm.effects;
  }

  /**
   * The same scrub when the pause's rate change does reach the rate
   * publisher first: `wasPlaying` is read as false, so the resume timer
   * only announces `Pause(50)` and playback does not resume.
   */
  method NativeScrubWhilePlayingRateSeenFirst() returns (trace: seq<Effect>, playing: bool)
    ensures trace == [Sent(Play(0.0)), Engine(PauseCall), Sent(SeekingStarted), Sent(Seek(50.0)),
                      Sent(Pause(50.0))]
    ensures !playing
  {
    var vm := new VideoPlayerVm();
    vm.ObserveRate(1.0, Some(Master));
    vm.ObserveTime(10.0, 100.0, 1.0, NonFinite, Some(Master), false);
    vm.ObserveTime(50.0, 100.5, 1.0, NonFinite, Some(Master), true);
    vm.FireSeekTimer(Some(Master));
    trace := vm.effects;
    playing := vm.isPlaying;
  }

  /**
   * A resume timer that outlives `stopBroadcasting`. A master seek is still
   * completing when the stale 0.3 s reset of an earlier `masterPlay` lifts
   * suppression, so a native jump is detected and puts its timer in the
   * slot; the seek's completion then replaces it without invalidating it.
   * `stopBroadcasting` empties the slot, yet the orphan still fires and
   * broadcasts `Pause`.
   */
  method OrphanOutlivesStopBroadcasting() returns (slot: Option<SeekTimer>, orphans: seq<SeekTimer>, late: seq<Effect>)
    ensures slot == None
    ensures orphans == [ResumeAfterNativeSeek(false)]
    ensures late == [Sent(Pause(50.0))]
  {
    var vm := new VideoPlayerVm();
    vm.MasterPlay(Some(Master));
    vm.MasterSeek(30.0, Some(Master));
    vm.FireSuppressReset();
    vm.ObserveTime(10.0, 100.0, 0.0, NonFinite, Some(Master), false);
    vm.ObserveTime(50.0, 100.5, 0.0, NonFinite, Some(Master), false);
    vm.CompleteSeek(true, Some(Master));
    vm.StopBroadcasting();
    slot := vm.seekTimer;
    orphans := vm.orphanTimers;
    var before := vm.effects;
    vm.FireOrphanTimer(0, Some(Master));
    late := vm.effects[|before|..];
  }

  /**
   * A slave told that the master plays "video2.MOV" at 12 s finds
   * "video2.mp4" in its library and loads it twice (the load and the loaded
   * callback), selects it and starts a readiness poll for 12 s.
   */
  method SlaveLoadsAdvertisedVideo() returns (room: RoomSync.RoomView)
    ensures fresh(room) && fresh(room.player) && room.Valid()
    ensures room.player.effects == LoadEffects("video2.mp4") + LoadEffects("video2.mp4")
    ensures room.player.pendingSeeks == [] && !room.player.isReady
    ensures room.polls == [ReadinessPoll(0, 12.0, true)]
    ensures room.selectedVideo == Some(VideoItem(7, "video2.mp4", [])) && room.errors == []
  {
    var service := new Service.MultipeerService();
    var vm := new VideoPlayerVm();
    var store := new VideoStore(None);
    store.AddVideo(7, "video2.mp4", []);
    room := new RoomSync.RoomView(service, vm, store);
    var lookup := (b: Bytes) => ResolvedUrl(false, true);
    var item := VideoItem(7, "video2.mp4", []);
    assert store.videos == [item];
    assert Resolve(lookup(item.bookmark)) == Resolved;
    assert service.role == Slave && !SelectionTriggersLoad(None, Some(item), service.role);
    assert AcceptablePosition(Finite(12.0));
    VideoNames.DocumentedExampleExtension();
    VideoNames.VideoNamesMatchSymmetric(Some("video2.MOV"), Some("video2.mp4"));
    assert FirstMatch(store.videos, "video2.MOV") == Some(0);
    VideoNames.EmptyAndAbsentNames(Some("video2.MOV"));
    room.DidReceiveVideoInfoResponse("video2.MOV", Finite(12.0), true, true, lookup);
  }

  /**
   * Once the slave's freshly loaded video becomes ready, the running poll
   * seeks exactly to the master's 12 s and leaves a completion that plays
   * when the seek finishes.
   */
  method SlaveJoinsPlayingMaster() returns (trace: seq<Effect>, pending: seq<SeekCompletion>, errors: seq<RoomError>)
    ensures trace == LoadEffects("video2.mp4") + LoadEffects("video2.mp4") + [Engine(SeekCall(12.0, true))]
    ensures pending == [PlayOrPauseIfFinished(true)]
    ensures errors == []
  {
    var room := SlaveLoadsAdvertisedVideo();
    room.player.ReadyToPlay(Finite(90.0));
    assert PollTick(room.polls[0], room.player.isReady) == SeekAndApply;
    room.FirePoll(0);
    trace := room.player.effects;
    pending := room.player.pendingSeeks;
    errors := room.errors;
  }
}
