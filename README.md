# Peer-to-peer video sync: a verified model of its core

The app lets several iOS devices watch the same local video together. One
device opens a room and is the **master**; the others browse, join, and
are **slaves**. A slave reconciles its own player with what the master
does. The app sends video commands (`Play`, `Pause`, `SeekingStarted`,
`Seek`, `Sync`, `LoadVideo`, `RequestVideoInfo`, `VideoInfoResponse`) over
a multipeer session. Each command travels in a frame that starts with the
marker byte `0xFF`, so the receiver can tell commands from chat text on
the same channel.

This project models the decision logic of that core in Dafny and proves
what it promises:

- **Two players** (`PlayerVm`, `SyncedPlayer`). Their master controls are
  play, pause, seek, forward, backward and stop-broadcasting. The newer
  player suppresses broadcasts for 0.3 s after a master command and
  detects native-scrubber seeks. The older player sends a heartbeat
  `Sync`. Each slave receiver uses the 0.1 s resync rule. The engine
  (AVPlayer) is abstract: engine calls and sent commands form one ordered
  trace, `effects`. A seek queues its completion, which a later event
  delivers with the engine's `finished` flag. Both 1 s resume timers are
  modelled, including the ones replaced without being invalidated, which
  still fire.
- **Two room screens** (`RoomSync`, `LegacyRoomSync`). Their delegate
  wrapper handles video-info responses and `LoadVideo` commands. It
  checks the position, whether the video is already loaded (0.5 s
  slack), and the first library match by `videoNamesMatch`. It then runs
  a 0.1 s readiness poll bounded at 50 checks. The screens also hold the
  role-gated rules run on appear, on ready, on a growing roster, on
  selection, and on disappear. The rules shared by both screens live in
  `RoomRules`.
- **The multipeer service** (`Service`, `Protocol`):
  - framing and classification of payloads;
  - master-only send gating;
  - the duplicate-free peer roster and browse list;
  - the command log bounded to 20 entries;
  - room creation, browsing, joining and leaving.
- **Small pieces:**
  - `formatTime` (`TimeFormat`);
  - `videoNamesMatch` (`VideoNames`);
  - the playlist id column and its round trip (`PlaylistData`);
  - the playlist view model (`PlaylistVm`);
  - the in-memory video library (`VideoLibrary`);
  - the overlay controls' visibility (`ControlsVisibility`).

Three whole runs are proved in `Scenarios`:
- a native scrub while playing;
- a resume timer that outlives `stopBroadcasting`;
- a slave joining a master who is playing.

Bookmark resolution, the JSON and UTF-8 codecs, the session's own peer
list, clocks and send outcomes are parameters of the operations that use
them.

When either name is absent or empty, `videoNamesMatch` compares the two
names as plain optionals. So two absent names match, two empty names
match, and an empty name never matches a non-empty one.

## Model

All source paths are under `PeerToPeerConnectionTest/`.

| member | source | states |
|---|---|---|
| Protocol.Frame | PeerToPeerConnectionTest/MultipeerService.swift:186-188 | a command frame is the marker byte `0xFF` followed by the body, one byte longer than the body |
| Protocol.Classify | PeerToPeerConnectionTest/MultipeerService.swift:259-261 | a payload takes the command path exactly when it is the frame of a non-empty body, and the decoder gets exactly that body; everything else goes to the text path |
| Protocol.FrameRoundTrip | PeerToPeerConnectionTest/MultipeerService.swift:186-188 | the frame of a non-empty body is classified as a command with that same body |
| Protocol.UnmarkedIsText | PeerToPeerConnectionTest/MultipeerService.swift:284-293 | a payload that is empty or does not start with the marker never reaches the command decoder |
| Protocol.LoneMarkerIsText | PeerToPeerConnectionTest/MultipeerService.swift:259 | the single marker byte is not a command |
| Engine.NeedsResync | PeerToPeerConnectionTest/VideoPlayer/VideoPlayerVM.swift:272-273 | a slave re-seeks exactly when it is outside the 0.1 s window around the commanded position |
| Engine.ForwardTarget | PeerToPeerConnectionTest/VideoPlayer/VideoPlayerVM.swift:231-234 | the forward target is `min(current + s, duration)`: never past the end, and between current and the end for a position inside the video |
| Engine.BackwardTarget | PeerToPeerConnectionTest/VideoPlayer/VideoPlayerVM.swift:236-239 | the backward target is `max(current - s, 0)`: never before the start, and between the start and current for a non-negative position |
| Engine.PlayOrPause | PeerToPeerConnectionTest/Feature/Room/RoomView.swift:305-314 | the play state applied is a play call exactly when asked to play, and a pause call otherwise |
| PlayerVm.IsNativeSeekJump | PeerToPeerConnectionTest/VideoPlayer/VideoPlayerVM.swift:143-148 | a jump is a native seek exactly when its size exceeds `0.5 + abs(elapsed * rate)` in either direction |
| PlayerVm.ContinuousPlaybackIsNoSeek | PeerToPeerConnectionTest/VideoPlayer/VideoPlayerVM.swift:143-148 | playback that advances as the rate predicts is never taken for a seek |
| PlayerVm.PausedJumpIsSeek | PeerToPeerConnectionTest/VideoPlayer/VideoPlayerVM.swift:143-148 | at rate 0, any jump of more than 0.5 s is a seek |
| PlayerVm.LargerJumpIsSeek | PeerToPeerConnectionTest/VideoPlayer/VideoPlayerVM.swift:145-148 | a jump at least as large as one taken for a native seek is taken for one too |
| PlayerVm.VideoPlayerVm.constructor | PeerToPeerConnectionTest/VideoPlayer/VideoPlayerVM.swift:13-47 | a fresh player is paused at 0, not ready, not seeking, with no video, no timers and no pending seeks |
| PlayerVm.VideoPlayerVm.LoadVideo | PeerToPeerConnectionTest/VideoPlayer/VideoPlayerVM.swift:52-72 | loading pauses, replaces the item, records the name and clears readiness |
| PlayerVm.VideoPlayerVm.ReadyToPlay | PeerToPeerConnectionTest/VideoPlayer/VideoPlayerVM.swift:81-87 | the item becomes ready and a finite duration is taken over |
| PlayerVm.VideoPlayerVm.ObserveTime | PeerToPeerConnectionTest/VideoPlayer/VideoPlayerVM.swift:100-170 | the observer records the position and the observation. It detects a native seek only when unsuppressed, master, after a prior observation, and on a native-seek jump. On detection it suppresses, marks seeking, pauses, sends `SeekingStarted` then `Seek(new)`, and schedules a resume timer that remembers whether it was playing. That is read after the pause: when the pause's rate change has already reached the rate publisher (`pauseNotifiesRate`), the rate is 0, so the timer will not resume, and nothing is broadcast for it. Otherwise nothing else changes |
| PlayerVm.VideoPlayerVm.ObserveRate | PeerToPeerConnectionTest/VideoPlayer/VideoPlayerVM.swift:117-136 | a rate change records the rate. Only when unsuppressed and master does it send `Play` (rate > 0) or `Pause` at the current time |
| PlayerVm.VideoPlayerVm.MasterPlay | PeerToPeerConnectionTest/VideoPlayer/VideoPlayerVM.swift:186-193 | suppresses, plays, sends `Play(currentTime)` through an attached service, and schedules one 0.3 s reset |
| PlayerVm.VideoPlayerVm.MasterPause | PeerToPeerConnectionTest/VideoPlayer/VideoPlayerVM.swift:195-202 | suppresses, pauses, sends `Pause(currentTime)`, and schedules one 0.3 s reset |
| PlayerVm.VideoPlayerVm.FireSuppressReset | PeerToPeerConnectionTest/VideoPlayer/VideoPlayerVM.swift:190-192 | a scheduled reset lifts suppression whatever set it since |
| PlayerVm.VideoPlayerVm.MasterSeek | PeerToPeerConnectionTest/VideoPlayer/VideoPlayerVM.swift:204-229 | cancels the slot's timer and sets suppression and seeking. It sends `SeekingStarted` before the pause, then seeks and queues the completion |
| PlayerVm.VideoPlayerVm.MasterForward | PeerToPeerConnectionTest/VideoPlayer/VideoPlayerVM.swift:231-234 | a master seek to the forward target |
| PlayerVm.VideoPlayerVm.MasterBackward | PeerToPeerConnectionTest/VideoPlayer/VideoPlayerVM.swift:236-239 | a master seek to the backward target |
| PlayerVm.VideoPlayerVm.StopBroadcasting | PeerToPeerConnectionTest/VideoPlayer/VideoPlayerVM.swift:241-244 | no timer is left in the slot |
| PlayerVm.VideoPlayerVm.RunTimer | PeerToPeerConnectionTest/VideoPlayer/VideoPlayerVM.swift:158-227 | a timer's body always lifts suppression. A native-seek timer also ends seeking, then plays and sends `Play` if it was playing, else sends `Pause`. A master-seek timer plays and sends `Play`, leaving seeking as it was |
| PlayerVm.VideoPlayerVm.FireSeekTimer | PeerToPeerConnectionTest/VideoPlayer/VideoPlayerVM.swift:158-168 | a native-seek timer lifts suppression and seeking, then plays and sends `Play` if it was playing, else sends `Pause`. A master-seek timer plays, sends `Play` and lifts suppression. An empty slot does nothing |
| PlayerVm.VideoPlayerVm.FireOrphanTimer | PeerToPeerConnectionTest/VideoPlayer/VideoPlayerVM.swift:221-227 | a timer replaced without invalidation still fires, with the same effects |
| PlayerVm.VideoPlayerVm.CompleteSeek | PeerToPeerConnectionTest/VideoPlayer/VideoPlayerVM.swift:214-228 | delivers the oldest completion. A finished master seek clears seeking, sends `Seek(position)` and starts the resume timer, orphaning any timer in the slot; an unfinished one changes nothing. Slave completions play, pause or end remote seeking whether finished or not. The room's completions act only on a finished seek |
| PlayerVm.VideoPlayerVm.DidReceiveVideoCommand | PeerToPeerConnectionTest/VideoPlayer/VideoPlayerVM.swift:256-327 | `Play`/`Pause` more than 0.1 s off seek exactly, then act in the completion (finished or not); otherwise they act at once; both end remote seeking. `SeekingStarted` sets remote seeking and pauses. `Seek` seeks exactly and ends remote seeking in its completion. `Sync` (which has no arm here) and the video-info commands change nothing |
| SyncedPlayer.SyncPlayStateCall | PeerToPeerConnectionTest/VideoPlayerView.swift:342-355 | a `Sync` plays only when asked to play and not playing, pauses only when asked to pause and playing, and makes no call when the state matches |
| SyncedPlayer.SyncPlayStateIdempotent | PeerToPeerConnectionTest/VideoPlayerView.swift:342-355 | after the call a `Sync` makes, the play state equals the commanded one, and applying the same `Sync` again makes no call |
| SyncedPlayer.SyncedVideoPlayer.constructor | PeerToPeerConnectionTest/VideoPlayerView.swift:64-79 | a fresh player has the given heartbeat period, no timers, no pending seeks and no video |
| SyncedPlayer.SyncedVideoPlayer.LoadVideo | PeerToPeerConnectionTest/VideoPlayerView.swift:83-111 | loading pauses, replaces the item, records the name and clears readiness |
| SyncedPlayer.SyncedVideoPlayer.ReadyToPlay | PeerToPeerConnectionTest/VideoPlayerView.swift:121-126 | the item becomes ready and a finite duration is taken over |
| SyncedPlayer.SyncedVideoPlayer.ObserveTime | PeerToPeerConnectionTest/VideoPlayerView.swift:143-151 | the observer records the position and a finite duration only |
| SyncedPlayer.SyncedVideoPlayer.ObserveRate | PeerToPeerConnectionTest/VideoPlayerView.swift:154-158 | the rate sets `isPlaying` and broadcasts nothing |
| SyncedPlayer.SyncedVideoPlayer.MasterPlay | PeerToPeerConnectionTest/VideoPlayerView.swift:177-181 | plays, sends `Play(currentTime)`, and leaves exactly one heartbeat scheduled |
| SyncedPlayer.SyncedVideoPlayer.MasterPause | PeerToPeerConnectionTest/VideoPlayerView.swift:183-187 | pauses, sends `Pause(currentTime)`, and stops the heartbeat |
| SyncedPlayer.SyncedVideoPlayer.StartSyncTimer | PeerToPeerConnectionTest/VideoPlayerView.swift:234-240 | restarting the heartbeat leaves one heartbeat scheduled |
| SyncedPlayer.SyncedVideoPlayer.StopSyncTimer | PeerToPeerConnectionTest/VideoPlayerView.swift:242-245 | no heartbeat stays scheduled |
| SyncedPlayer.SyncedVideoPlayer.TickSyncTimer | PeerToPeerConnectionTest/VideoPlayerView.swift:236-239 | each heartbeat tick sends `Sync(currentTime, isPlaying)`; a stopped heartbeat sends nothing |
| SyncedPlayer.SyncedVideoPlayer.MasterSeek | PeerToPeerConnectionTest/VideoPlayerView.swift:189-220 | cancels the pending resume, marks seeking, sends `SeekingStarted` before the pause, then seeks and queues the completion |
| SyncedPlayer.SyncedVideoPlayer.MasterForward | PeerToPeerConnectionTest/VideoPlayerView.swift:222-225 | a master seek to the forward target |
| SyncedPlayer.SyncedVideoPlayer.MasterBackward | PeerToPeerConnectionTest/VideoPlayerView.swift:227-230 | a master seek to the backward target |
| SyncedPlayer.SyncedVideoPlayer.StopBroadcasting | PeerToPeerConnectionTest/VideoPlayerView.swift:248-252 | neither the heartbeat nor the resume timer in the slot stays scheduled |
| SyncedPlayer.SyncedVideoPlayer.FireSeekTimer | PeerToPeerConnectionTest/VideoPlayerView.swift:212-217 | the resume timer plays and sends `Play(currentTime)`; an empty slot does nothing |
| SyncedPlayer.SyncedVideoPlayer.FireOrphanTimer | PeerToPeerConnectionTest/VideoPlayerView.swift:212-217 | a resume timer replaced without invalidation still plays and sends `Play` |
| SyncedPlayer.SyncedVideoPlayer.ApplySyncPlayState | PeerToPeerConnectionTest/VideoPlayerView.swift:342-355 | ends remote seeking, then makes only the call a play-state mismatch needs |
| SyncedPlayer.SyncedVideoPlayer.CompleteSeek | PeerToPeerConnectionTest/VideoPlayerView.swift:203-218 | delivers the oldest completion. A finished master seek clears seeking, sends `Seek` and starts the resume timer, orphaning one already scheduled. Slave `Play`/`Pause` completions act only on a finished seek. `Seek` and `Sync` completions act regardless |
| SyncedPlayer.SyncedVideoPlayer.DidReceiveVideoCommand | PeerToPeerConnectionTest/VideoPlayerView.swift:267-378 | `Play`/`Pause` more than 0.1 s off seek exactly and act only if the seek finished; otherwise they act at once; both end remote seeking. `Sync` more than 0.1 s off seeks first and applies the play state in the completion whatever its outcome; otherwise it applies the play state at once. `SeekingStarted` and `Seek` behave as in the newer player; the video-info commands change nothing |
| TimeFormat.TruncateToInt | PeerToPeerConnectionTest/VideoPlayerView.swift:877 | `Int(x)` truncates toward zero |
| TimeFormat.Quot | PeerToPeerConnectionTest/VideoPlayerView.swift:877 | Swift's `/` truncates toward zero. A non-negative dividend gives the non-negative q with `d*q <= n < d*q + d`. A negative one gives the non-positive q with `d*q - d < n <= d*q` |
| TimeFormat.Rem | PeerToPeerConnectionTest/VideoPlayerView.swift:878 | Swift's `%`: the dividend is divisor times quotient plus remainder, and the remainder has the dividend's sign |
| TimeFormat.NatToDecimal | PeerToPeerConnectionTest/VideoPlayerView.swift:879 | at least one character, digits only: one below 10, two from 10 to 99 |
| TimeFormat.DecimalRoundTrip | PeerToPeerConnectionTest/VideoPlayerView.swift:879 | the digits read back as the number |
| TimeFormat.IntToDecimal | PeerToPeerConnectionTest/VideoPlayerView.swift:879 | `%d`: digits for a non-negative value, a minus sign and then digits for a negative one |
| TimeFormat.IntToDecimalReadsBack | PeerToPeerConnectionTest/VideoPlayerView.swift:879 | `%d` reads back as the value, and after the minus sign as the magnitude |
| TimeFormat.ZeroPad2 | PeerToPeerConnectionTest/VideoPlayerView.swift:879 | `%02d`: exactly two digits for 0..99; a negative value or one of two or more digits is left as `%d` |
| TimeFormat.ZeroPad2ReadsBack | PeerToPeerConnectionTest/VideoPlayerView.swift:879 | the two digits of a value in 0..99 read back as that value |
| TimeFormat.FormatTime | PeerToPeerConnectionTest/VideoPlayerView.swift:875-880 | a finite non-negative time is digits, a colon, and two digits |
| TimeFormat.FormatTimeReadsBack | PeerToPeerConnectionTest/VideoPlayerView.swift:875-880 | for a finite, non-negative time with whole seconds n, the label reads back as `n / 60` minutes and `n % 60` seconds, with seconds in 0..59 and `minutes * 60 + seconds == n` |
| TimeFormat.NegativeTimeExample | PeerToPeerConnectionTest/VideoPlayerView.swift:877-879 | a negative time keeps Swift's signs in both fields: -65.5 s reads "-1:-5" |
| TimeFormat.NonFiniteTime | PeerToPeerConnectionTest/VideoPlayerView.swift:876 | a non-finite time reads "0:00" |
| VideoNames.DeletingPathExtension | PeerToPeerConnectionTest/Feature/Room/RoomView.swift:258-259 | removing the extension leaves a prefix of the name |
| VideoNames.ToLower | PeerToPeerConnectionTest/Feature/Room/RoomView.swift:258-259 | an ASCII capital becomes its small letter, 32 code points higher; every other character is kept |
| VideoNames.Lowercased | PeerToPeerConnectionTest/Feature/Room/RoomView.swift:258-259 | `lowercased()`: same length, each character lowered |
| VideoNames.Stem | PeerToPeerConnectionTest/Feature/Room/RoomView.swift:258-259 | the stem is the lowercased part of the name before its extension, and the whole name lowercased when it has no extension |
| VideoNames.BaseDotExtension | PeerToPeerConnectionTest/Feature/Room/RoomView.swift:258-259 | the stem of "base.ext" is "base" for a plain, non-empty base |
| VideoNames.VideoNamesMatch | PeerToPeerConnectionTest/Feature/Room/RoomView.swift:256-261 | two present non-empty names match exactly when their lowercased stems agree; otherwise the optionals are compared. The older copy at RoomView.swift:268-273 is identical |
| VideoNames.VideoNamesMatchSymmetric | PeerToPeerConnectionTest/Feature/Room/RoomView.swift:256-261 | matching is symmetric |
| VideoNames.VideoNamesMatchTransitive | PeerToPeerConnectionTest/Feature/Room/RoomView.swift:256-261 | matching is transitive |
| VideoNames.EmptyAndAbsentNames | PeerToPeerConnectionTest/Feature/Room/RoomView.swift:257 | an empty name matches only an empty name, and an absent name only an absent one |
| VideoNames.ExtensionAndCaseIgnored | PeerToPeerConnectionTest/Feature/Room/RoomView.swift:256-261 | names that differ only in letter case and in their extension match |
| VideoNames.DocumentedExampleCase | PeerToPeerConnectionTest/Feature/Room/RoomView.swift:253-254 | "Video1.Mp4" matches "video1.mp4" |
| VideoNames.DocumentedExampleExtension | PeerToPeerConnectionTest/Feature/Room/RoomView.swift:253-254 | "video2.MOV" matches "video2.mp4" |
| RoomRules.Resolve | PeerToPeerConnectionTest/Core/BookmarkResolver.swift:13-31 | resolution succeeds exactly for a bookmark that is not stale and whose security-scoped access is granted. Each failure carries its own reason |
| RoomRules.Message | PeerToPeerConnectionTest/Feature/Room/RoomView.swift:244-422 | the alert names the missing video. A load failure's alert ends with the system's reason, and only a bare reason can be empty |
| RoomRules.AcceptablePosition | PeerToPeerConnectionTest/Feature/Room/RoomView.swift:297 | a non-finite position is refused, and a finite one is accepted exactly when it is not negative |
| RoomRules.SameSelection | PeerToPeerConnectionTest/Feature/Room/RoomView.swift:124 | an unchanged selection is the same, and a selection is never the same as none |
| RoomRules.SelectionTriggersLoad | PeerToPeerConnectionTest/Feature/Room/RoomView.swift:124-128 | only a master with a selection loads, and never when the selection did not change |
| RoomRules.InfoResponseSeeks | PeerToPeerConnectionTest/Feature/Room/RoomView.swift:322-324 | an info response for the loaded video seeks exactly when the player is more than 0.5 s away |
| RoomRules.FirstMatch | PeerToPeerConnectionTest/Feature/Room/RoomView.swift:339 | the result is the index of the first matching library item, and there is none exactly when no item matches |
| RoomRules.FirstMatchIgnoresCaseAndExtension | PeerToPeerConnectionTest/Feature/Room/RoomView.swift:339 | an item stored at any index under another case or extension of the name is found: the search returns that index or an earlier match |
| RoomRules.PollTick | PeerToPeerConnectionTest/Feature/Room/RoomView.swift:362-383 | a check seeks and applies the play state exactly when the player is ready. It gives up exactly when not ready on the 50th check, and otherwise keeps waiting with the count incremented |
| RoomRules.PollStopsWithinLimit | PeerToPeerConnectionTest/Feature/Room/RoomView.swift:360-384 | a running poll stops within its remaining checks, at most 50 for a fresh one |
| RoomRules.PollStopsAtFirstReady | PeerToPeerConnectionTest/Feature/Room/RoomView.swift:360-384 | before the limit, the poll stops exactly at the first ready check and seeks there |
| RoomRules.PollGivesUpWhenNeverReady | PeerToPeerConnectionTest/Feature/Room/RoomView.swift:360-384 | a player that never becomes ready makes a fresh poll give up at its 50th check |
| RoomRules.InfoReply | PeerToPeerConnectionTest/Feature/Room/RoomView.swift:68-89 | the master answers with the selected video's name, position and play state exactly when it is master with a selected, non-empty name. Otherwise it says nothing |
| RoomSync.RoomView.constructor | PeerToPeerConnectionTest/Feature/Room/RoomView.swift:6-15 | a room starts with no selection, no errors, no polls, nothing sent and no handlers |
| RoomSync.RoomView.OnAppear | PeerToPeerConnectionTest/Feature/Room/RoomView.swift:37-96 | attaches the delegate and the handlers; a slave with peers also asks for the current video |
| RoomSync.RoomView.OnVideoInfoRequest | PeerToPeerConnectionTest/Feature/Room/RoomView.swift:68-81 | while installed, the handler broadcasts the master's info reply |
| RoomSync.RoomView.OnPeerConnected | PeerToPeerConnectionTest/Feature/Room/RoomView.swift:83-89 | while installed, the handler sends the info reply to the new peer alone |
| RoomSync.RoomView.OnReadyChanged | PeerToPeerConnectionTest/Feature/Room/RoomView.swift:98-105 | a ready master with a selection and peers broadcasts `LoadVideo(name)`; otherwise nothing is sent |
| RoomSync.RoomView.OnPeerCountChanged | PeerToPeerConnectionTest/Feature/Room/RoomView.swift:106-112 | a slave whose peer count goes from 0 to more broadcasts `RequestVideoInfo` |
| RoomSync.RoomView.OnDisappear | PeerToPeerConnectionTest/Feature/Room/RoomView.swift:113-120 | pauses, leaves no resume timer in the slot, and detaches delegate and handlers |
| RoomSync.RoomView.LoadVideoForMaster | PeerToPeerConnectionTest/Feature/Room/RoomView.swift:234-248 | a resolvable item is loaded and selected. Otherwise the error is raised with the bare description, the selection is cleared and the player is untouched |
| RoomSync.RoomView.SelectVideo | PeerToPeerConnectionTest/Feature/Room/RoomView.swift:124-128 | setting a different selection (compared by id) as master loads it; otherwise only the selection changes |
| RoomSync.RoomView.OnVideoLoaded | PeerToPeerConnectionTest/Feature/Room/RoomView.swift:53-57 | the item is loaded and selected, and a master loads it a second time through the selection rule |
| RoomSync.RoomView.DidReceiveVideoInfoResponse | PeerToPeerConnectionTest/Feature/Room/RoomView.swift:283-395 | the cases are: a missing player; an invalid position (rejected before any change); the video already loaded (exact seek with apply-if-finished when more than 0.5 s off, else remote seeking ends and the play state is applied); no match (error, player untouched); an unresolvable bookmark (error); and the first match loaded, a fresh poll started and the item selected |
| RoomSync.RoomView.DidReceiveLoadVideoCommand | PeerToPeerConnectionTest/Feature/Room/RoomView.swift:397-425 | the first match is loaded and selected. With no match, or with a bookmark that does not resolve, the error is raised and the player is untouched |
| RoomSync.RoomView.FirePoll | PeerToPeerConnectionTest/Feature/Room/RoomView.swift:362-383 | one firing matches `PollTick`. It keeps waiting with the count incremented; or it stops and seeks exactly, queueing play-or-pause-if-finished; or it stops and raises "did not become ready" |
| LegacyRoomSync.LegacyRoomView.constructor | PeerToPeerConnectionTest/RoomView.swift:6-15 | a room starts with no selection, no errors, no polls and nothing sent |
| LegacyRoomSync.LegacyRoomView.OnAppear | PeerToPeerConnectionTest/RoomView.swift:38-85 | attaches the delegate and the info-request handler and sends nothing |
| LegacyRoomSync.LegacyRoomView.OnVideoInfoRequest | PeerToPeerConnectionTest/RoomView.swift:69-83 | while installed, the handler broadcasts the master's info reply |
| LegacyRoomSync.LegacyRoomView.OnReadyChanged | PeerToPeerConnectionTest/RoomView.swift:87-94 | a ready master with a selection and peers broadcasts `LoadVideo(name)` |
| LegacyRoomSync.LegacyRoomView.OnDisappear | PeerToPeerConnectionTest/RoomView.swift:95-100 | pauses and detaches; the player's timers are left as they are |
| LegacyRoomSync.LegacyRoomView.LoadVideoForMaster | PeerToPeerConnectionTest/RoomView.swift:226-260 | a resolvable item is loaded and selected. Otherwise the bare description is raised and the selection is cleared |
| LegacyRoomSync.LegacyRoomView.SelectVideo | PeerToPeerConnectionTest/RoomView.swift:104-108 | setting a different selection as master loads it |
| LegacyRoomSync.LegacyRoomView.OnVideoLoaded | PeerToPeerConnectionTest/RoomView.swift:54-58 | the item is loaded and selected, and a master loads it again through the selection rule |
| LegacyRoomSync.LegacyRoomView.DidReceiveVideoInfoResponse | PeerToPeerConnectionTest/RoomView.swift:295-422 | the same cases as the newer room, except that the loaded-video path only plays or pauses and never touches remote seeking |
| LegacyRoomSync.LegacyRoomView.DidReceiveLoadVideoCommand | PeerToPeerConnectionTest/RoomView.swift:424-468 | the first match is loaded and selected; otherwise the error is raised and the player is untouched |
| LegacyRoomSync.LegacyRoomView.FirePoll | PeerToPeerConnectionTest/RoomView.swift:389-411 | one check of the 50-check readiness poll, as in the newer room |
| Service.AppendBounded | PeerToPeerConnectionTest/MultipeerService.swift:79-87 | the new entry is last, a log within 20 stays within 20, and the result is a suffix of the old log plus the entry |
| Service.AppendBoundedKeepsLatest | PeerToPeerConnectionTest/MultipeerService.swift:79-87 | once full, the log is always the last twenty entries logged |
| Service.AppendAllFull | PeerToPeerConnectionTest/MultipeerService.swift:79-87 | a full log stays at exactly 20 entries |
| Service.MultipeerService.constructor | PeerToPeerConnectionTest/MultipeerService.swift:67-103 | a fresh service is a slave, out of a room, with empty roster, messages, browse list and log |
| Service.MultipeerService.AddCommandLog | PeerToPeerConnectionTest/MultipeerService.swift:79-87 | the log becomes the bounded append and stays within 20 |
| Service.MultipeerService.CreateRoom | PeerToPeerConnectionTest/MultipeerService.swift:112-121 | the master role, in the room, advertising |
| Service.MultipeerService.StartBrowsing | PeerToPeerConnectionTest/MultipeerService.swift:124-132 | the slave role, an empty browse list, browsing |
| Service.MultipeerService.JoinPeer | PeerToPeerConnectionTest/MultipeerService.swift:135-139 | in the room, and the browser, if any, invites the peer |
| Service.MultipeerService.LeaveRoom | PeerToPeerConnectionTest/MultipeerService.swift:142-154 | no advertising or browsing; roster, messages and browse list empty; out of the room |
| Service.MultipeerService.SendMessage | PeerToPeerConnectionTest/MultipeerService.swift:157-169 | only a master with peers sends, and only a successful send adds the message as sent by "You" |
| Service.MultipeerService.SendVideoCommand | PeerToPeerConnectionTest/MultipeerService.swift:173-202 | a slave, or a master without peers, sends nothing and logs why. An encoding failure sends nothing. Otherwise the frame goes to the session's peers, and every outcome is logged |
| Service.MultipeerService.SessionDidChange | PeerToPeerConnectionTest/MultipeerService.swift:229-252 | a connect adds the peer only if absent and puts a slave in the room. A disconnect removes every entry of the peer, and a slave left alone leaves the room. The roster stays duplicate-free |
| Service.MultipeerService.DidReceive | PeerToPeerConnectionTest/MultipeerService.swift:254-294 | a command payload is decoded from the bytes after the marker, logged, and handed to the delegate if one is set. A decode failure is only logged. Any other payload becomes a chat message if it decodes as text, and is dropped otherwise |
| Service.MultipeerService.FoundPeer | PeerToPeerConnectionTest/MultipeerService.swift:314-320 | a found peer is listed once |
| Service.MultipeerService.LostPeer | PeerToPeerConnectionTest/MultipeerService.swift:322-326 | a lost peer is removed entirely and the browse list stays duplicate-free |
| Service.MultipeerService.SetDelegate | PeerToPeerConnectionTest/MultipeerService.swift:75 | `videoDelegate` ends up attached or cleared exactly as the room asks, and nothing else changes |
| Service.SentFrameIsReceived | PeerToPeerConnectionTest/MultipeerService.swift:180-188 | with a codec that inverts itself on the message, the receiver decodes exactly the message that was sent |
| PlaylistData.Join | PeerToPeerConnectionTest/CoreData/Data/PlaylistCoreDataModel.swift:30-32 | joining comma-free ids gives one comma fewer than ids, and no ids give "" |
| PlaylistData.Split | PeerToPeerConnectionTest/CoreData/Data/PlaylistCoreDataModel.swift:37 | splitting gives one piece more than there are commas, none holding a comma |
| PlaylistData.ParseVideoIds | PeerToPeerConnectionTest/CoreData/Data/PlaylistCoreDataModel.swift:35-38 | an absent or empty string gives no ids; otherwise there is one id per comma plus one |
| PlaylistData.SplitJoin | PeerToPeerConnectionTest/CoreData/Data/PlaylistCoreDataModel.swift:30-37 | splitting the join of a non-empty list of comma-free ids gives the ids back |
| PlaylistData.ParseJoinRoundTrip | PeerToPeerConnectionTest/CoreData/Data/PlaylistCoreDataModel.swift:30-38 | `parseVideoIds(videoIdsString)` gives the ids back whenever no id holds a comma and the list is not `[""]` |
| PlaylistData.RoundTripLimits | PeerToPeerConnectionTest/CoreData/Data/PlaylistCoreDataModel.swift:30-38 | the excluded cases do lose data: `[""]` reads back as no ids, and `["a,b"]` as two |
| PlaylistData.ToPlaylistModelData | PeerToPeerConnectionTest/CoreData/Data/PlaylistCoreDataModel.swift:23-27 | id, name and ids are copied |
| PlaylistData.ToCoreDataModel | PeerToPeerConnectionTest/CoreData/Data/PlaylistModelData.swift:33-37 | id, name and ids are copied |
| PlaylistData.ConversionsInverse | PeerToPeerConnectionTest/CoreData/Data/PlaylistCoreDataModel.swift:23-27 | the two conversions are inverse to each other |
| PlaylistData.ConvertFromCoreDataModel | PeerToPeerConnectionTest/CoreData/Data/PlaylistEntity+Ext.swift:10-14 | the row holds the id, the name and the joined ids |
| PlaylistData.EntityToCoreDataModel | PeerToPeerConnectionTest/CoreData/VideoLocalDataManager.swift:234-240 | absent columns read as "" and an absent id column as no ids |
| PlaylistData.EntityRoundTrip | PeerToPeerConnectionTest/CoreData/Data/PlaylistEntity+Ext.swift:10-14 | writing a playlist to its row and reading it back gives the same playlist, under the round-trip conditions |
| SeqUtil.RemoveAll | PeerToPeerConnectionTest/Feature/VideoList/PlayList/PlayListVm.swift:80 | the removed id is gone and nothing new appears |
| SeqUtil.RemoveAllCounts | PeerToPeerConnectionTest/Feature/VideoList/PlayList/PlayListVm.swift:80 | every other id keeps its number of occurrences, and the length drops by the removed id's count |
| SeqUtil.AppendIfAbsent | PeerToPeerConnectionTest/MultipeerService.swift:314-320 | the value is present afterwards, nothing is lost and nothing else is added. A list without duplicates keeps none. The list is unchanged when the value was already there, and it is appended otherwise |
| PlaylistVm.TrimLeading | PeerToPeerConnectionTest/Feature/VideoList/PlayList/PlayListVm.swift:41 | the result is a suffix that does not start with whitespace, and what was dropped is all whitespace |
| PlaylistVm.TrimTrailing | PeerToPeerConnectionTest/Feature/VideoList/PlayList/PlayListVm.swift:41 | the result is a prefix that does not end with whitespace, and what was dropped is all whitespace |
| PlaylistVm.IsWhitespaceOrNewline | PeerToPeerConnectionTest/Feature/VideoList/PlayList/PlayListVm.swift:41 | `.whitespacesAndNewlines`: among ASCII exactly the space and U+0009 to U+000D; never a letter or a digit |
| PlaylistVm.AllWhitespace | PeerToPeerConnectionTest/Feature/VideoList/PlayList/PlayListVm.swift:41-42 | every character of the name is whitespace or a newline |
| PlaylistVm.Trim | PeerToPeerConnectionTest/Feature/VideoList/PlayList/PlayListVm.swift:41 | the trimmed name neither starts nor ends with whitespace or a newline |
| PlaylistVm.TrimEmptyIff | PeerToPeerConnectionTest/Feature/VideoList/PlayList/PlayListVm.swift:41-42 | a name trims to nothing exactly when it is all whitespace and newlines |
| PlaylistVm.TrimIdempotent | PeerToPeerConnectionTest/Feature/VideoList/PlayList/PlayListVm.swift:41 | trimming twice is trimming once |
| PlaylistVm.Fetched | PeerToPeerConnectionTest/Feature/VideoList/PlayList/PlayListVm.swift:35 | every stored row, in order, maps to a playlist with the same fields |
| PlaylistVm.FirstPlaylistWithId | PeerToPeerConnectionTest/Feature/VideoList/PlayList/PlayListVm.swift:77 | the result is the first playlist with the id, and there is none exactly when no playlist has it |
| PlaylistVm.FirstRowWithId | PeerToPeerConnectionTest/CoreData/VideoLocalDataManager.swift:147-167 | the result is the first stored row with the id, and there is none exactly when no row has it |
| PlaylistVm.RemovingAll | PeerToPeerConnectionTest/Feature/VideoList/PlayList/PlayListVm.swift:79-80 | the in-place `removeAll` loop computes exactly `RemoveAll` |
| PlaylistVm.PlayListVm.constructor | PeerToPeerConnectionTest/Feature/VideoList/PlayList/PlayListVm.swift:18-25 | with a data manager, the list is fetched from the store; without one it is empty |
| PlaylistVm.PlayListVm.FetchPlaylists | PeerToPeerConnectionTest/Feature/VideoList/PlayList/PlayListVm.swift:27-38 | the list becomes the fetched store |
| PlaylistVm.PlayListVm.CreatePlaylist | PeerToPeerConnectionTest/Feature/VideoList/PlayList/PlayListVm.swift:40-59 | a name that trims to nothing changes nothing. Otherwise a row with the fresh id, the trimmed name and no videos is inserted, and the list is fetched again when the save succeeds |
| PlaylistVm.PlayListVm.DeletePlaylist | PeerToPeerConnectionTest/Feature/VideoList/PlayList/PlayListVm.swift:61-74 | the first row with the id is removed, and the list is fetched again when the save succeeds; without such a row nothing changes |
| PlaylistVm.PlayListVm.DeleteVideoFromPlaylist | PeerToPeerConnectionTest/Feature/VideoList/PlayList/PlayListVm.swift:76-95 | an unknown playlist id changes nothing. Otherwise the playlist's row is rewritten with its id, its name and every occurrence of the video removed, and then the list is fetched again |
| PlaylistVm.CreatedPlaylistFetchedLast | PeerToPeerConnectionTest/Feature/VideoList/PlayList/PlayListVm.swift:44-55 | after a create, the fetch shows the new playlist last with its id, name and no videos; the others are unchanged |
| PlaylistVm.DeleteRemovesOneRow | PeerToPeerConnectionTest/CoreData/VideoLocalDataManager.swift:158-167 | deleting leaves exactly one row fewer with that id |
| PlaylistVm.RemovedVideoReadsBack | PeerToPeerConnectionTest/Feature/VideoList/PlayList/PlayListVm.swift:79-92 | after removing a video, the fetch shows that playlist with exactly the remaining ids in order and without the removed one; the others are unchanged |
| VideoLibrary.SameItemIgnoresName | PeerToPeerConnectionTest/VideoItem.swift:21-23 | items with the same id are equal whatever their names; different ids are not |
| VideoLibrary.SameItem | PeerToPeerConnectionTest/VideoItem.swift:21-23 | identical items are the same item |
| VideoLibrary.SameItemEquivalence | PeerToPeerConnectionTest/VideoItem.swift:21-23 | identity by id is reflexive, symmetric and transitive |
| VideoLibrary.KeptIndices | PeerToPeerConnectionTest/VideoStore.swift:30-32 | the surviving offsets are exactly those inside the list and not removed, in increasing order |
| VideoLibrary.RemoveAtOffsets | PeerToPeerConnectionTest/VideoStore.swift:31 | `remove(atOffsets:)` never lengthens the list or adds an item, and offsets outside the list change nothing |
| VideoLibrary.RemoveAtOffsetsKeepsOrder | PeerToPeerConnectionTest/VideoStore.swift:30-32 | removing at offsets lists the original items at the surviving offsets, in order |
| VideoLibrary.RemoveAtOffsetsLength | PeerToPeerConnectionTest/VideoStore.swift:30-32 | the length drops by the number of offsets inside the list |
| VideoLibrary.RemoveValidOffsetsLength | PeerToPeerConnectionTest/VideoStore.swift:30-32 | with every offset inside the list, exactly as many items go as there are offsets |
| VideoLibrary.RemoveNoOffsets | PeerToPeerConnectionTest/VideoStore.swift:30-32 | an empty offset set leaves the list unchanged |
| VideoLibrary.VideoStore.constructor | PeerToPeerConnectionTest/VideoStore.swift:21-23 | the library starts as the saved list, or empty |
| VideoLibrary.VideoStore.AddVideo | PeerToPeerConnectionTest/VideoStore.swift:25-28 | exactly one item is appended at the end, and the earlier items are unchanged |
| VideoLibrary.VideoStore.DeleteVideo | PeerToPeerConnectionTest/VideoStore.swift:30-32 | exactly the items at the offsets are removed, the rest keep their order, and the length drops by the number of offsets |
| ControlsVisibility.ControlsVisibilityManager.constructor | PeerToPeerConnectionTest/VideoPlayer/ControlsVisibilityManager.swift:12-13 | controls start visible with no hide pending |
| ControlsVisibility.ControlsVisibilityManager.Toggle | PeerToPeerConnectionTest/VideoPlayer/ControlsVisibilityManager.swift:15-19 | visibility flips; becoming visible schedules a hide, and becoming hidden cancels the pending one |
| ControlsVisibility.ControlsVisibilityManager.ScheduleHide | PeerToPeerConnectionTest/VideoPlayer/ControlsVisibilityManager.swift:21-32 | the previous hide is replaced, so exactly one is pending |
| ControlsVisibility.ControlsVisibilityManager.KeepVisible | PeerToPeerConnectionTest/VideoPlayer/ControlsVisibilityManager.swift:34-37 | visible, with no hide pending |
| ControlsVisibility.ControlsVisibilityManager.Cancel | PeerToPeerConnectionTest/VideoPlayer/ControlsVisibilityManager.swift:39-41 | no hide is pending and visibility is unchanged |
| ControlsVisibility.ControlsVisibilityManager.FireHide | PeerToPeerConnectionTest/VideoPlayer/ControlsVisibilityManager.swift:23-29 | a pending hide hides the controls; a cancelled one does nothing |
| Scenarios.NativeScrubWhilePlaying | PeerToPeerConnectionTest/VideoPlayer/VideoPlayerVM.swift:100-168 | a 10 s to 50 s scrub while playing, with the rate publisher not yet told of the pause, yields pause, `SeekingStarted`, `Seek(50)`, then play and `Play(50)` when the timer fires |
| Scenarios.NativeScrubWhilePlayingRateSeenFirst | PeerToPeerConnectionTest/VideoPlayer/VideoPlayerVM.swift:117-168 | the same scrub when the pause's rate change reaches the rate publisher first: the timer sends only `Pause(50)`, and playback does not resume |
| Scenarios.OrphanOutlivesStopBroadcasting | PeerToPeerConnectionTest/VideoPlayer/VideoPlayerVM.swift:156-244 | a native-seek timer replaced by a master seek's completion is not invalidated. It survives `stopBroadcasting` and later broadcasts `Pause` |
| Scenarios.SlaveLoadsAdvertisedVideo | PeerToPeerConnectionTest/Feature/Room/RoomView.swift:283-395 | a slave told "video2.MOV" finds "video2.mp4", loads it twice (once by the wrapper, once by the loaded callback), selects it and starts one poll |
| Scenarios.SlaveJoinsPlayingMaster | PeerToPeerConnectionTest/Feature/Room/RoomView.swift:362-374 | once the video is ready, the poll seeks exactly to the master's position and queues play-if-finished |

## Left out

- AVFoundation (player item status, periodic observers, the audio session, `CMTime`) is replaced by explicit events that carry their values: observe time, observe rate, ready to play, and complete seek with `finished`. Floating point is `real`, and `isFinite` is a constructor of the `Double` datatype.
- Timers, `DispatchQueue.main.async`/`asyncAfter` and `CACurrentMediaTime` are abstracted. Timer firings are explicit methods, and the clock is a parameter. The main-queue hops run at once, in program order.
- The JSON codec of command messages and the UTF-8 codec of chat text are parameters. Only the framing and the routing around them are modelled.
- Bookmark resolution is a `BookmarkLookup` function of the bookmark bytes. The same bytes always resolve the same way, and starting and stopping security-scoped access is not tracked.
- Core Data and Combine persistence: the playlist store is the sequence of context rows. An insert, delete or update stays in that sequence even when the save fails; a failed save only skips the fetch. The `insertVideos` filter, the video entity files and the publisher-based library in `Manager/VideoStore.swift` are not part of this model. Neither is the UserDefaults encoding of the in-memory library; the saved list is a constructor argument.
- SwiftUI and UIKit views, full-screen sync, `statusMessage`, log text and `print` output are not modelled. Command-log entries are a datatype without their text or timestamps.
- The service members the rooms call (`sendVideoInfoResponse`, `sendLoadVideoCommand`, `sendRequestVideoInfoCommand`, `onVideoInfoRequest`, `onPeerConnected`) are not part of the service file, so their gating cannot be checked. Rooms record what they ask the service to send as `Outgoing` intents.
- Players hand commands to an attached service, modelled as `Some(role)`. They do not go through `SendVideoCommand`'s gating, which is modelled on its own.
- The players' `addCommandLog` calls in `didReceiveVideoCommand` are not modelled.
- The wrapper's `didReceiveVideoCommand` only forwards to the player, whose method is modelled.
- `VideoPlayerVm.DidReceiveVideoCommand`: the newer player's switch has no `Sync` arm, so a `Sync` changes nothing there.
- `VideoNames.DeletingPathExtension`: `NSString.deletingPathExtension` is modelled for the last path component only. Trailing slashes and other path normalisation are not.
- `VideoNames.Lowercased`: `lowercased()` is modelled for ASCII letters only.
- `PlaylistVm.IsWhitespaceOrNewline` lists the Unicode whitespace and newline code points one by one. Grapheme clusters are not modelled.
- `TimeFormat.TruncateToInt`: the trap of `Int(x)` on values outside the integer range is not modelled.
- `VideoLibrary.VideoStore.DeleteVideo`: an offset outside the list traps in Swift, so the method requires offsets inside the list.
- `PlaylistVm.Fetched`: the store's fetch order is the order of the row sequence. Core Data does not promise an order.
- `PlayerVm.VideoPlayerVm.Valid` only states that a master-seek resume timer in the slot means the player is not seeking. A native-seek timer does not imply seeking, because an orphaned timer or a later master seek can clear that state; `Scenarios.OrphanOutlivesStopBroadcasting` shows such a run.
- `PlayerVm.VideoPlayerVm.FireSuppressReset`: the 0.3 s suppression resets are counted but not timed, so the model does not fix when one fires relative to other events.
- `RoomSync.RoomView.DidReceiveVideoInfoResponse`: the "already loaded" test compares against the player's current video name, as the code does. The model does not track the item the engine actually holds.
