/**
 * The room screen of the feature layer: the delegate wrapper that turns
 * video-info responses and `LoadVideo` commands into player actions, the
 * readiness polls it starts, and the role-gated rules the screen runs when
 * it appears, when the player becomes ready, when the roster grows, when a
 * video is selected and when it disappears. It drives a `VideoPlayerVm`.
 */
module RoomSync {
  import opened Wrappers
  import opened Numbers
  import opened Protocol
  import opened Engine
  import opened VideoNames
  import opened VideoLibrary
  import opened RoomRules
  import opened PlayerVm
  import Service

  class RoomView {
    const service: Service.MultipeerService
    const player: VideoPlayerVm
    const store: VideoStore

    var selectedVideo: Option<VideoItem>
    /** Every alert raised, oldest first. */
    var errors: seq<RoomError>
    /** The readiness polls still running. */
    var polls: seq<ReadinessPoll>
    /** What the room has asked the service to send. */
    var outgoing: seq<Outgoing>
    /** Whether `onVideoInfoRequest` and `onPeerConnected` are installed on the service. */
    var handlersInstalled: bool

    /** The player keeps its own invariant, and every running poll has checks left. */
    predicate Valid()
      reads this, player
    {
      player.Valid() && forall i :: 0 <= i < |polls| ==> polls[i].checkCount < MaxReadinessChecks
    }

    constructor (service: Service.MultipeerService, player: VideoPlayerVm, store: VideoStore)
      requires player.Valid()
      ensures Valid()
      ensures this.service == service && this.player == player && this.store == store
      ensures selectedVideo == None && errors == [] && polls == [] && outgoing == [] && !handlersInstalled
    {
      this.service := service;
      this.player := player;
      this.store := store;
      selectedVideo := None;
      errors := [];
      polls := [];
      outgoing := [];
      handlersInstalled := false;
    }

    // Screen events

    /** `onAppear`: attach the delegate and the handlers; a connected slave asks for the current video. */
    method OnAppear()
      requires Valid()
      modifies service`delegateAttached, this`handlersInstalled, this`outgoing
      ensures Valid()
      ensures service.delegateAttached && handlersInstalled
      ensures outgoing == old(outgoing) +
        (if service.role == Slave && service.connectedPeers != [] then [Broadcast(RequestVideoInfo)] else [])
    {
      service.SetDelegate(true);
      handlersInstalled := true;
      if service.role == Slave && service.connectedPeers != [] {
        outgoing := outgoing + [Broadcast(RequestVideoInfo)];
      }
    }

    /** The service's `onVideoInfoRequest` handler: the master broadcasts its video state. */
    method OnVideoInfoRequest(peer: PeerId)
      requires Valid()
      modifies this`outgoing
      ensures Valid()
      ensures outgoing == old(outgoing) +
        (if handlersInstalled then Broadcasts(InfoReply(service.role, selectedVideo, player.currentTime, player.isPlaying)) else [])
    {
      if handlersInstalled {
        outgoing := outgoing + Broadcasts(InfoReply(service.role, selectedVideo, player.currentTime, player.isPlaying));
      }
    }

    /** The service's `onPeerConnected` handler: the master sends its video state to that peer alone. */
    method OnPeerConnected(peer: PeerId)
      requires Valid()
      modifies this`outgoing
      ensures Valid()
      ensures outgoing == old(outgoing) +
        (if handlersInstalled then SendsTo(peer, InfoReply(service.role, selectedVideo, player.currentTime, player.isPlaying)) else [])
    {
      if handlersInstalled {
        outgoing := outgoing + SendsTo(peer, InfoReply(service.role, selectedVideo, player.currentTime, player.isPlaying));
      }
    }

    /** `onChange(of: isReady)`: a master with a selection and peers announces the video once it is ready. */
    method OnReadyChanged()
      requires Valid()
      modifies this`outgoing
      ensures Valid()
      ensures outgoing == old(outgoing) +
        (if player.isReady && service.role == Master && selectedVideo.Some? && service.connectedPeers != []
         then [Broadcast(LoadVideo(selectedVideo.value.name))] else [])
    {
      if player.isReady && service.role == Master && selectedVideo.Some? && service.connectedPeers != [] {
        outgoing := outgoing + [Broadcast(LoadVideo(selectedVideo.value.name))];
      }
    }

    /** `onChange(of: connectedPeers.count)`: a slave that gains its first peer asks for the current video. */
    method OnPeerCountChanged(oldCount: nat, newCount: nat)
      requires Valid()
      modifies this`outgoing
      ensures Valid()
      ensures outgoing == old(outgoing) +
        (if service.role == Slave && oldCount == 0 && newCount > 0 then [Broadcast(RequestVideoInfo)] else [])
    {
      if service.role == Slave && oldCount == 0 && newCount > 0 {
        outgoing := outgoing + [Broadcast(RequestVideoInfo)];
      }
    }

    /** `onDisappear`: pause the engine, stop the player's broadcasting timer, detach delegate and handlers. */
    method OnDisappear()
      requires Valid()
      modifies player`effects, player`seekTimer, service`delegateAttached, this`handlersInstalled
      ensures Valid()
      ensures player.effects == old(player.effects) + [Engine(PauseCall)] && player.seekTimer == None
      ensures !service.delegateAttached && !handlersInstalled
    {
      player.EnginePause();
      player.StopBroadcasting();
      service.SetDelegate(false);
      handlersInstalled := false;
    }

    // Selection and loading

    /** `loadVideoForMaster`: load the item if its bookmark resolves, otherwise raise the error and clear the selection. */
    method LoadVideoForMaster(item: VideoItem, lookup: Bytes -> BookmarkLookup)
      requires Valid()
      modifies player`effects, player`currentVideoName, player`isReady, this`errors, this`selectedVideo
      ensures Valid()
      ensures Resolve(lookup(item.bookmark)) == Resolved ==>
        player.effects == old(player.effects) + LoadEffects(item.name) &&
        player.currentVideoName == Some(item.name) && !player.isReady &&
        selectedVideo == Some(item) && errors == old(errors)
      ensures Resolve(lookup(item.bookmark)).ResolveFailed? ==>
        player.effects == old(player.effects) && player.currentVideoName == old(player.currentVideoName) &&
        player.isReady == old(player.isReady) &&
        selectedVideo == None && errors == old(errors) + [SelectionFailureOf(Resolve(lookup(item.bookmark)))]
    {
      var resolution := Resolve(lookup(item.bookmark));
      if resolution == Resolved {
        player.LoadVideo(Some(item.name));
        // The same item by identifier: the selection's onChange does not fire again.
        selectedVideo := Some(item);
      } else {
        errors := errors + [SelectionFailureOf(resolution)];
        // Clearing the selection fires onChange with no item, which does nothing.
        selectedVideo := None;
      }
    }

    /** Setting `selectedVideo` (from the selection sheet or after a load) and its `onChange` rule. */
    method SelectVideo(selection: Option<VideoItem>, lookup: Bytes -> BookmarkLookup)
      requires Valid()
      modifies player`effects, player`currentVideoName, player`isReady, this`errors, this`selectedVideo
      ensures Valid()
      ensures !SelectionTriggersLoad(old(selectedVideo), selection, service.role) ==>
        selectedVideo == selection && errors == old(errors) && player.effects == old(player.effects) &&
        player.currentVideoName == old(player.currentVideoName) && player.isReady == old(player.isReady)
      ensures (SelectionTriggersLoad(old(selectedVideo), selection, service.role) &&
        Resolve(lookup(selection.value.bookmark)) == Resolved) ==>
        player.effects == old(player.effects) + LoadEffects(selection.value.name) &&
        player.currentVideoName == Some(selection.value.name) && !player.isReady &&
        selectedVideo == selection && errors == old(errors)
      ensures (SelectionTriggersLoad(old(selectedVideo), selection, service.role) &&
        Resolve(lookup(selection.value.bookmark)).ResolveFailed?) ==>
        player.effects == old(player.effects) && player.currentVideoName == old(player.currentVideoName) &&
        player.isReady == old(player.isReady) && selectedVideo == None &&
        errors == old(errors) + [SelectionFailureOf(Resolve(lookup(selection.value.bookmark)))]
    {
      var triggers := SelectionTriggersLoad(selectedVideo, selection, service.role);
      selectedVideo := selection;
      if triggers {
        LoadVideoForMaster(selection.value, lookup);
      }
    }

    /** The wrapper's `onVideoLoaded` callback: load the item into the player and select it. */
    method OnVideoLoaded(item: VideoItem, lookup: Bytes -> BookmarkLookup)
      requires Valid()
      modifies player`effects, player`currentVideoName, player`isReady, this`errors, this`selectedVideo
      ensures Valid()
      ensures !SelectionTriggersLoad(old(selectedVideo), Some(item), service.role) ==>
        player.effects == old(player.effects) + LoadEffects(item.name) &&
        selectedVideo == Some(item) && errors == old(errors)
      ensures (SelectionTriggersLoad(old(selectedVideo), Some(item), service.role) &&
        Resolve(lookup(item.bookmark)) == Resolved) ==>
        player.effects == old(player.effects) + LoadEffects(item.name) + LoadEffects(item.name) &&
        selectedVideo == Some(item) && errors == old(errors)
      ensures (SelectionTriggersLoad(old(selectedVideo), Some(item), service.role) &&
        Resolve(lookup(item.bookmark)).ResolveFailed?) ==>
        player.effects == old(player.effects) + LoadEffects(item.name) &&
        selectedVideo == None && errors == old(errors) + [SelectionFailureOf(Resolve(lookup(item.bookmark)))]
      ensures player.currentVideoName == Some(item.name) && !player.isReady
    {
      player.LoadVideo(Some(item.name));
      SelectVideo(Some(item), lookup);
    }

    // The delegate wrapper

    /**
     * `didReceiveVideoInfoResponse`. `playerPresent` says whether the weakly
     * held player still exists. A video already loaded is realigned (exact
     * seek, then the play state if the seek finished) or has its play state
     * applied at once; otherwise the first matching library item is loaded,
     * a readiness poll is started and the item is selected.
     */
    method DidReceiveVideoInfoResponse(videoName: string, position: Double, isPlaying: bool,
                                       playerPresent: bool, lookup: Bytes -> BookmarkLookup)
      requires Valid()
      modifies this`errors, this`polls, this`selectedVideo
      modifies player`effects, player`pendingSeeks, player`isRemoteSeeking, player`currentVideoName, player`isReady
      ensures Valid()
      ensures !playerPresent ==>
        errors == old(errors) + [PlayerNotAvailable] &&
        polls == old(polls) && selectedVideo == old(selectedVideo) && unchanged(player)
      ensures playerPresent && !AcceptablePosition(position) ==>
        errors == old(errors) + [InvalidPosition] &&
        polls == old(polls) && selectedVideo == old(selectedVideo) && unchanged(player)
      ensures playerPresent && AcceptablePosition(position) && VideoNamesMatch(old(player.currentVideoName), Some(videoName)) ==>
        errors == old(errors) && polls == old(polls) && selectedVideo == old(selectedVideo) &&
        player.currentVideoName == old(player.currentVideoName) && player.isReady == old(player.isReady) &&
        if InfoResponseSeeks(player.currentTime, position.value) then
          player.effects == old(player.effects) + [Engine(SeekCall(position.value, true))] &&
          player.pendingSeeks == old(player.pendingSeeks) + [ApplyPlayStateIfFinished(isPlaying)] &&
          player.isRemoteSeeking == old(player.isRemoteSeeking)
        else
          player.effects == old(player.effects) + [Engine(PlayOrPause(isPlaying))] &&
          player.pendingSeeks == old(player.pendingSeeks) && !player.isRemoteSeeking
      ensures (playerPresent && AcceptablePosition(position) && !VideoNamesMatch(old(player.currentVideoName), Some(videoName)) &&
        FirstMatch(store.videos, videoName).None?) ==>
        errors == old(errors) + [NotInLibrary(videoName)] &&
        polls == old(polls) && selectedVideo == old(selectedVideo) && unchanged(player)
      ensures (playerPresent && AcceptablePosition(position) && !VideoNamesMatch(old(player.currentVideoName), Some(videoName)) &&
        FirstMatch(store.videos, videoName).Some?) ==>
        var item := store.videos[FirstMatch(store.videos, videoName).value];
        var resolution := Resolve(lookup(item.bookmark));
        (resolution.ResolveFailed? ==>
          errors == old(errors) + [FailureOf(resolution)] &&
          polls == old(polls) && selectedVideo == old(selectedVideo) && unchanged(player)) &&
        (resolution == Resolved ==>
          polls == old(polls) + [ReadinessPoll(0, position.value, isPlaying)] &&
          errors == old(errors) && selectedVideo == Some(item) &&
          player.currentVideoName == Some(item.name) && !player.isReady &&
          player.pendingSeeks == old(player.pendingSeeks) && player.isRemoteSeeking == old(player.isRemoteSeeking) &&
          player.effects == old(player.effects) + LoadEffects(item.name) + LoadEffects(item.name) +
            (if SelectionTriggersLoad(old(selectedVideo), Some(item), service.role) then LoadEffects(item.name) else []))
    {
      if !playerPresent {
        errors := errors + [PlayerNotAvailable];
        return;
      }
      if !AcceptablePosition(position) {
        errors := errors + [InvalidPosition];
        return;
      }
      var target := position.value;
      if VideoNamesMatch(player.currentVideoName, Some(videoName)) {
        if InfoResponseSeeks(player.currentTime, target) {
          player.EngineSeek(target, true, ApplyPlayStateIfFinished(isPlaying));
        } else {
          // applyPlayState
          player.isRemoteSeeking := false;
          if isPlaying {
            player.EnginePlay();
          } else {
            player.EnginePause();
          }
        }
        return;
      }
      var found := FirstMatch(store.videos, videoName);
      if found.None? {
        errors := errors + [NotInLibrary(videoName)];
        return;
      }
      var item := store.videos[found.value];
      var resolution := Resolve(lookup(item.bookmark));
      if resolution.ResolveFailed? {
        errors := errors + [FailureOf(resolution)];
        return;
      }
      player.LoadVideo(Some(item.name));
      polls := polls + [ReadinessPoll(0, target, isPlaying)];
      OnVideoLoaded(item, lookup);
    }

    /** `didReceiveLoadVideoCommand`: load and select the first matching library item. */
    method DidReceiveLoadVideoCommand(videoName: string, lookup: Bytes -> BookmarkLookup)
      requires Valid()
      modifies player`effects, player`currentVideoName, player`isReady, this`errors, this`selectedVideo
      ensures Valid()
      ensures FirstMatch(store.videos, videoName).None? ==>
        errors == old(errors) + [ImportFirst(videoName)] && selectedVideo == old(selectedVideo) && unchanged(player)
      ensures FirstMatch(store.videos, videoName).Some? ==>
        var item := store.videos[FirstMatch(store.videos, videoName).value];
        var resolution := Resolve(lookup(item.bookmark));
        (resolution.ResolveFailed? ==>
          errors == old(errors) + [FailureOf(resolution)] && selectedVideo == old(selectedVideo) && unchanged(player)) &&
        (resolution == Resolved ==>
          errors == old(errors) && selectedVideo == Some(item) &&
          player.currentVideoName == Some(item.name) && !player.isReady &&
          player.effects == old(player.effects) + LoadEffects(item.name) +
            (if SelectionTriggersLoad(old(selectedVideo), Some(item), service.role) then LoadEffects(item.name) else []))
    {
      var found := FirstMatch(store.videos, videoName);
      if found.None? {
        errors := errors + [ImportFirst(videoName)];
        return;
      }
      var item := store.videos[found.value];
      var resolution := Resolve(lookup(item.bookmark));
      if resolution.ResolveFailed? {
        errors := errors + [FailureOf(resolution)];
        return;
      }
      OnVideoLoaded(item, lookup);
    }

    /** One firing of running poll `k` (a firing of a poll that no longer runs does nothing). */
    method FirePoll(k: nat)
      requires Valid()
      modifies this`polls, this`errors, player`effects, player`pendingSeeks
      ensures Valid()
      ensures k >= |old(polls)| ==>
        polls == old(polls) && errors == old(errors) &&
        player.effects == old(player.effects) && player.pendingSeeks == old(player.pendingSeeks)
      ensures k < |old(polls)| ==>
        match PollTick(old(polls)[k], player.isReady)
        case KeepWaiting(next) =>
          polls == old(polls)[k := next] && errors == old(errors) &&
          player.effects == old(player.effects) && player.pendingSeeks == old(player.pendingSeeks)
        case SeekAndApply =>
          polls == old(polls)[..k] + old(polls)[k + 1..] && errors == old(errors) &&
          player.effects == old(player.effects) + [Engine(SeekCall(old(polls)[k].position, true))] &&
          player.pendingSeeks == old(player.pendingSeeks) + [PlayOrPauseIfFinished(old(polls)[k].isPlaying)]
        case GiveUp =>
          polls == old(polls)[..k] + old(polls)[k + 1..] && errors == old(errors) + [NotReady] &&
          player.effects == old(player.effects) && player.pendingSeeks == old(player.pendingSeeks)
    {
      if k >= |polls| {
        return;
      }
      var poll := polls[k];
      match PollTick(poll, player.isReady)
      case KeepWaiting(next) =>
        polls := polls[k := next];
      case SeekAndApply =>
        polls := polls[..k] + polls[k + 1..];
        player.EngineSeek(poll.position, true, PlayOrPauseIfFinished(poll.isPlaying));
      case GiveUp =>
        polls := polls[..k] + polls[k + 1..];
        errors := errors + [NotReady];
    }
  }
}
