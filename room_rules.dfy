/**
 * The pure rules both room screens share: resolving a library item's
 * bookmark, finding the first library item whose name matches, the
 * readiness poll that waits for a freshly loaded item, and the reply a
 * master gives to a video-info request.
 */
module RoomRules {
  import opened Wrappers
  import opened Protocol
  import opened VideoNames
  import opened VideoLibrary
  import opened Numbers
  import opened Engine
  import Service

  // Bookmark resolution

  /** What the system reports when asked to resolve a bookmark. */
  datatype BookmarkLookup =
      /** The bookmark names a URL; it may be stale, and access to it may be refused. */
    | ResolvedUrl(stale: bool, accessGranted: bool)
      /** Resolution itself threw, with this description. */
    | LookupError(description: string)

  datatype Resolution = Resolved | ResolveFailed(reason: string)

  /**
   * `BookmarkResolver.resolve` (and the legacy room's inline copy): a stale
   * bookmark and a refused security-scoped access are errors too.
   */
  function Resolve(lookup: BookmarkLookup): (r: Resolution)
    ensures r == Resolved <==> lookup == ResolvedUrl(false, true)
    ensures lookup.LookupError? ==> r == ResolveFailed(lookup.description)
    ensures lookup.ResolvedUrl? && lookup.stale ==> r == ResolveFailed("Bookmark is stale")
    ensures lookup.ResolvedUrl? && !lookup.stale && !lookup.accessGranted ==>
      r == ResolveFailed("Failed to access security-scoped resource")
  {
    match lookup
    case LookupError(description) => ResolveFailed(description)
    case ResolvedUrl(stale, accessGranted) =>
      if stale then ResolveFailed("Bookmark is stale")
      else if !accessGranted then ResolveFailed("Failed to access security-scoped resource")
      else Resolved
  }

  // Errors shown to the user

  datatype RoomError =
    | PlayerNotAvailable
    | InvalidPosition
      /** An info response named a video the library does not hold. */
    | NotInLibrary(videoName: string)
      /** A `LoadVideo` command named a video the library does not hold. */
    | ImportFirst(videoName: string)
    | NotReady
      /** The delegate wrapper could not resolve the item's bookmark. */
    | LoadFailed(reason: string)
      /** `loadVideoForMaster` could not resolve the selected item's bookmark. */
    | SelectionLoadFailed(reason: string)

  /** t occurs in s. */
  predicate Mentions(s: string, t: string)
  {
    exists i :: 0 <= i <= |s| && t <= s[i..]
  }

  /** The alert text for each error: it names the missing video, and a load failure ends with the reason. */
  function Message(e: RoomError): (r: string)
    ensures e.NotInLibrary? || e.ImportFirst? ==> Mentions(r, e.videoName)
    ensures e.LoadFailed? || e.SelectionLoadFailed? ==> |r| >= |e.reason| && r[|r| - |e.reason|..] == e.reason
    ensures !e.SelectionLoadFailed? ==> |r| > 0
  {
    match e
    case PlayerNotAvailable => "Player not available"
    case InvalidPosition => "Invalid playback position received"
    case NotInLibrary(name) =>
      var r := "Video '" + name + "' not available. Please import it first.";
      assert name <= r[7..];
      r
    case ImportFirst(name) =>
      var r := "Video not available. Please import '" + name + "' first.";
      assert name <= r[36..];
      r
    case NotReady => "Video loaded but did not become ready"
    case LoadFailed(reason) => "Failed to load video: " + reason
    case SelectionLoadFailed(reason) => reason
  }

  /** The error a failed resolution raises in the delegate wrapper. */
  function FailureOf(r: Resolution): RoomError
    requires r.ResolveFailed?
  {
    LoadFailed(r.reason)
  }

  /** The error a failed resolution raises when the master loads its selection: the description alone. */
  function SelectionFailureOf(r: Resolution): RoomError
    requires r.ResolveFailed?
  {
    SelectionLoadFailed(r.reason)
  }

  /** An info response's position is accepted when it is finite and not negative. */
  predicate AcceptablePosition(position: Double): (r: bool)
    ensures position.NonFinite? ==> !r
    ensures position.Finite? ==> (r <==> position.value >= 0.0)
  {
    position.Finite? && position.value >= 0.0
  }

  /** An info response for the loaded video seeks only when the player is more than this far off. */
  const InfoResponseSlack: real := 0.5

  function InfoResponseSeeks(current: real, position: real): (r: bool)
    ensures r <==> position < current - InfoResponseSlack || position > current + InfoResponseSlack
  {
    Abs(current - position) > InfoResponseSlack
  }

  /** The two engine calls a player's `loadVideo` makes. */
  function LoadEffects(videoName: string): seq<Effect>
  {
    [Engine(PauseCall), Engine(LoadCall(Some(videoName)))]
  }

  // Library lookup

  predicate NameMatches(item: VideoItem, videoName: string)
  {
    VideoNamesMatch(Some(item.name), Some(videoName))
  }

  /** `videos.first(where:)` with `videoNamesMatch`: the index of the first item whose name matches. */
  function FirstMatch(videos: seq<VideoItem>, videoName: string): (r: Option<nat>)
    ensures r.Some? ==> r.value < |videos| && NameMatches(videos[r.value], videoName)
    ensures r.Some? ==> forall j :: 0 <= j < r.value ==> !NameMatches(videos[j], videoName)
    ensures r.None? <==> forall j :: 0 <= j < |videos| ==> !NameMatches(videos[j], videoName)
    decreases |videos|
  {
    if videos == [] then None
    else if NameMatches(videos[0], videoName) then Some(0)
    else match FirstMatch(videos[1..], videoName)
      case None => None
      case Some(i) => Some(i + 1)
  }

  /** A video stored under another case or extension of the name is still found, at its own index or at an earlier match. */
  lemma FirstMatchIgnoresCaseAndExtension(videos: seq<VideoItem>, k: nat, base1: string, ext1: string, base2: string, ext2: string)
    requires base1 != "" && base2 != ""
    requires forall i :: 0 <= i < |base1| ==> base1[i] != '.' && base1[i] != '/'
    requires forall i :: 0 <= i < |base2| ==> base2[i] != '.' && base2[i] != '/'
    requires forall i :: 0 <= i < |ext1| ==> ext1[i] != '.' && ext1[i] != '/'
    requires forall i :: 0 <= i < |ext2| ==> ext2[i] != '.' && ext2[i] != '/'
    requires Lowercased(base1) == Lowercased(base2)
    requires 0 <= k < |videos| && videos[k].name == base1 + "." + ext1
    ensures FirstMatch(videos, base2 + "." + ext2).Some?
    ensures FirstMatch(videos, base2 + "." + ext2).value <= k
  {
    ExtensionAndCaseIgnored(base1, ext1, base2, ext2);
    assert NameMatches(videos[k], base2 + "." + ext2);
  }

  // Readiness poll

  /** `maxChecks`: the poll gives up after this many checks, five seconds at one check per 0.1 s. */
  const MaxReadinessChecks: nat := 50

  /** A repeating 0.1 s timer waiting for a freshly loaded item to become ready. */
  datatype ReadinessPoll = ReadinessPoll(checkCount: nat, position: real, isPlaying: bool)

  datatype PollStep =
      /** Not ready yet: the timer keeps running with the incremented count. */
    | KeepWaiting(next: ReadinessPoll)
      /** Ready: the timer stops; seek exactly to the position and then apply the play state. */
    | SeekAndApply
      /** The last check found the item not ready: the timer stops with an error. */
    | GiveUp

  /** One firing of the poll, given whether the player is ready. */
  function PollTick(p: ReadinessPoll, ready: bool): (r: PollStep)
    ensures r == SeekAndApply <==> ready
    ensures r == GiveUp <==> !ready && p.checkCount + 1 >= MaxReadinessChecks
    ensures r.KeepWaiting? ==>
      r.next == p.(checkCount := p.checkCount + 1) && r.next.checkCount < MaxReadinessChecks
  {
    var count := p.checkCount + 1;
    if ready then SeekAndApply
    else if count >= MaxReadinessChecks then GiveUp
    else KeepWaiting(p.(checkCount := count))
  }

  /** The firing, counted from 0, at which a poll stops when the player's readiness at each firing is `readiness`. */
  function StopTick(p: ReadinessPoll, readiness: seq<bool>): Option<nat>
    decreases |readiness|
  {
    if readiness == [] then None
    else match PollTick(p, readiness[0])
      case KeepWaiting(q) => (match StopTick(q, readiness[1..]) case None => None case Some(k) => Some(k + 1))
      case _ => Some(0)
  }

  /** A poll never checks more than `MaxReadinessChecks` times: a fresh one stops by its 50th firing. */
  lemma {:induction false} PollStopsWithinLimit(p: ReadinessPoll, readiness: seq<bool>)
    requires p.checkCount < MaxReadinessChecks
    requires |readiness| >= MaxReadinessChecks - p.checkCount
    ensures StopTick(p, readiness).Some?
    ensures StopTick(p, readiness).value < MaxReadinessChecks - p.checkCount
    decreases |readiness|
  {
    match PollTick(p, readiness[0])
    case KeepWaiting(q) =>
      PollStopsWithinLimit(q, readiness[1..]);
    case _ =>
  }

  /** Before the limit, the poll stops exactly at the first firing that finds the player ready. */
  lemma {:induction false} PollStopsAtFirstReady(p: ReadinessPoll, readiness: seq<bool>, k: nat)
    requires k < |readiness| && readiness[k]
    requires forall j :: 0 <= j < k ==> !readiness[j]
    requires p.checkCount + k < MaxReadinessChecks
    ensures StopTick(p, readiness) == Some(k)
    ensures PollTick(p.(checkCount := p.checkCount + k), readiness[k]) == SeekAndApply
    decreases k
  {
    if k > 0 {
      var q := p.(checkCount := p.checkCount + 1);
      assert PollTick(p, readiness[0]) == KeepWaiting(q);
      PollStopsAtFirstReady(q, readiness[1..], k - 1);
    }
  }

  /** A player that never becomes ready makes a fresh poll give up at its 50th firing. */
  lemma {:induction false} PollGivesUpWhenNeverReady(p: ReadinessPoll, readiness: seq<bool>)
    requires p.checkCount < MaxReadinessChecks
    requires |readiness| >= MaxReadinessChecks - p.checkCount
    requires forall j :: 0 <= j < |readiness| ==> !readiness[j]
    ensures StopTick(p, readiness) == Some(MaxReadinessChecks - p.checkCount - 1)
    ensures PollTick(p.(checkCount := MaxReadinessChecks - 1), false) == GiveUp
    decreases MaxReadinessChecks - p.checkCount
  {
    if p.checkCount + 1 < MaxReadinessChecks {
      var q := p.(checkCount := p.checkCount + 1);
      assert PollTick(p, readiness[0]) == KeepWaiting(q);
      assert forall j :: 0 <= j < |readiness[1..]| ==> !readiness[1..][j];
      PollGivesUpWhenNeverReady(q, readiness[1..]);
    }
  }

  // Role-gated replies

  /** What the room sends through the service; the service's own send members are not part of this model. */
  datatype Outgoing = Broadcast(command: Command) | ToPeer(peer: PeerId, command: Command)

  /** The peer identity the service reports for a session event. */
  type PeerId = Service.PeerId

  /**
   * The master answers an info request (and greets a newly connected peer)
   * with the selected video, its position and its play state; without a
   * selected, named video, or as a slave, it says nothing.
   */
  function InfoReply(role: Role, selected: Option<VideoItem>, position: real, isPlaying: bool): (r: Option<Command>)
    ensures r.Some? <==> role == Master && selected.Some? && selected.value.name != ""
    ensures r.Some? ==> r.value.VideoInfoResponse? && r.value.videoName == selected.value.name
    ensures r.Some? ==> r.value.position == position && r.value.isPlaying == isPlaying
  {
    if role == Master && selected.Some? && selected.value.name != "" then
      Some(VideoInfoResponse(selected.value.name, position, isPlaying))
    else None
  }

  function Broadcasts(c: Option<Command>): seq<Outgoing>
  {
    if c.Some? then [Broadcast(c.value)] else []
  }

  function SendsTo(peer: PeerId, c: Option<Command>): seq<Outgoing>
  {
    if c.Some? then [ToPeer(peer, c.value)] else []
  }

  /** SwiftUI's `onChange(of: selectedVideo)` compares items by identifier only. */
  predicate SameSelection(a: Option<VideoItem>, b: Option<VideoItem>): (r: bool)
    ensures a == b ==> r
    ensures r ==> a.Some? == b.Some?
  {
    (a.None? && b.None?) || (a.Some? && b.Some? && SameItem(a.value, b.value))
  }

  /** Setting the selection makes a master load the newly selected item. */
  predicate SelectionTriggersLoad(previous: Option<VideoItem>, selected: Option<VideoItem>, role: Role): (r: bool)
    ensures r ==> role == Master && selected.Some?
    ensures previous == selected ==> !r
  {
    selected.Some? && !SameSelection(previous, selected) && role == Master
  }
}
