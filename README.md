# MusicKit plugin: shadow queue and plugin state

A Dafny model of the stateful logic in the native halves of a Tauri music plugin that drives
Apple's MusicKit and MediaPlayer.

**macOS plugin** (`mac_queue.dfy`, `mac_plugin.dfy`). `ApplicationMusicPlayer` only accepts
catalog `Song`s, so the plugin keeps its own full-metadata queue, `currentQueue`. Each queue
command edits that queue in place. The commands replace it, splice at a checked position,
remove by id, insert after the first entry, or append. After each edit the plugin looks every
queued track up in the catalog and gives the player the songs it found. A failed lookup is
skipped. `skipToItem` only checks that a track is queued. `initialize` subscribes the
observers once, guarded by `isInitialized`. The class `MacOSPlugin.MusicKitPlugin` holds:
- the shadow queue;
- the flag and a count of observer subscriptions;
- the songs last given to the player;
- the payloads of the queue-update events emitted.

Its methods are proved against the pure functions in `MacQueue`. `Resolve` is the catalog
resolution of a queue. `WithoutId` is removal by id. `NextPosition` is the "play next" slot.
Lemmas characterise each of them: resolution is the in-order subsequence of the tracks found,
and removal keeps every other entry in order.

**iOS plugin** (`ios_status.dfy`, `ios_plugin.dfy`):
- `setQueue` is a pure function. It drops empty store ids and fails when none remain. It pins
  a start item only for `0 < startPosition < count`. It returns the reply together with the
  player commands it issues.
- The class `IOSPlugin.MusicKitPlugin` holds the user and developer tokens and the time
  observer. It also records the timers scheduled and not yet invalidated, and the
  playback-state events emitted. Its invariant says that the only live timer is the one the
  plugin holds, and that it exists exactly when the last reported state was `playing`.
- The token commands are methods on that class. The OS authorization answer and the
  user-token fetch are parameters.
- The two `toString` maps are total functions, each with a parsing inverse.

Inputs that stand for the outside world:
- the catalog request is a function `string -> Option<Song>`;
- the JSON decode of a command's tracks is a `Result`;
- the OS authorization status, the user-token provider and the player's playback state are
  parameters.

The iOS `unauthorize` clears the token but never resolves or rejects its invocation. The
model's `Unauthorize` therefore returns no reply.

## Model

| member | source | states |
|---|---|---|
| `MacQueue.Resolve` | macos/Sources/MusicKitPlugin.swift:589-608 | the songs handed to the player are never more than the queued tracks |
| `MacQueue.FoundIndices` | macos/Sources/MusicKitPlugin.swift:598-602 | the positions whose catalog lookup succeeds, each a valid queue index |
| `MacQueue.ResolveIsFoundSubsequence` | macos/Sources/MusicKitPlugin.swift:589-608 | the resolved songs are exactly the lookups of the found tracks, in strictly increasing queue order, and no found track is missed |
| `MacQueue.ResolveAppend` | macos/Sources/MusicKitPlugin.swift:592-606 | resolving a concatenation resolves each half independently |
| `MacQueue.SkipsFailedLookup` | macos/Sources/MusicKitPlugin.swift:598-605 | a track whose lookup fails is skipped and the tracks on either side still resolve, so the batch is not aborted |
| `MacQueue.ResolveAllFound` | macos/Sources/MusicKitPlugin.swift:598-602 | when every lookup succeeds the player gets one song per track |
| `MacQueue.WithoutId` | macos/Sources/MusicKitPlugin.swift:364 | after `removeAll`, no remaining entry has the id and the queue did not grow |
| `MacQueue.WithoutIdKeepsOrder` | macos/Sources/MusicKitPlugin.swift:364 | removal yields a subsequence of the old queue, in the original order |
| `MacQueue.WithoutIdCounts` | macos/Sources/MusicKitPlugin.swift:364 | every entry with another id keeps its multiplicity; entries with the id drop to zero |
| `MacQueue.WithoutAbsentId` | macos/Sources/MusicKitPlugin.swift:364 | removing an id no entry has leaves the queue unchanged |
| `MacQueue.NextPosition` | macos/Sources/MusicKitPlugin.swift:394 | `min(1, count)` is a valid insertion index |
| `MacQueue.InsertNextShape` | macos/Sources/MusicKitPlugin.swift:394-395 | inserting at that index turns an empty queue into `[t]` and otherwise puts `t` right after the first entry |
| `MacOSPlugin.MusicKitPlugin.constructor` | macos/Sources/MusicKitPlugin.swift:10-16 | a new plugin has an empty queue and is not initialized |
| `MacOSPlugin.MusicKitPlugin.Initialize` | macos/Sources/MusicKitPlugin.swift:18-27 | always resolves; sets the flag; a repeated call subscribes no further observers |
| `MacOSPlugin.MusicKitPlugin.SetupObservers` | macos/Sources/MusicKitPlugin.swift:519-526 | one more observer subscription |
| `MacOSPlugin.MusicKitPlugin.ConvertToMusicItems` | macos/Sources/MusicKitPlugin.swift:589-608 | the loop returns exactly the catalog resolution of the tracks (the in-order songs of the tracks found) |
| `MacOSPlugin.MusicKitPlugin.PublishQueue` | macos/Sources/MusicKitPlugin.swift:302-308 | the player gets the resolution of the current queue and one queue-update event carries that queue |
| `MacOSPlugin.MusicKitPlugin.SetQueue` | macos/Sources/MusicKitPlugin.swift:233-259 | a decoded list replaces the queue and resolves success; a decode error rejects with "Set queue failed: ..." and changes nothing |
| `MacOSPlugin.MusicKitPlugin.UpdateQueue` | macos/Sources/MusicKitPlugin.swift:261-287 | the same replacement, rejecting with "Update queue failed: ..." on a decode error |
| `MacOSPlugin.MusicKitPlugin.InsertTrackAtPosition` | macos/Sources/MusicKitPlugin.swift:289-321 | for `p <= count` the queue becomes `q[..p] + [t] + q[p..]` and the command resolves; for `p > count` it rejects "Position out of bounds" and queue, player and events are unchanged |
| `MacOSPlugin.MusicKitPlugin.InsertTracksAtPosition` | macos/Sources/MusicKitPlugin.swift:323-355 | for `p <= count` the queue becomes `q[..p] + ts + q[p..]`; for `p > count` it rejects "Position out of bounds" with no change |
| `MacOSPlugin.MusicKitPlugin.RemoveTrackFromQueue` | macos/Sources/MusicKitPlugin.swift:357-383 | the queue is filtered by id, no entry with the id remains, an absent id leaves it as it was, and the command always resolves |
| `MacOSPlugin.MusicKitPlugin.InsertTrackNext` | macos/Sources/MusicKitPlugin.swift:385-414 | an empty queue becomes `[t]`, otherwise `t` becomes element 1 and the rest shift right |
| `MacOSPlugin.MusicKitPlugin.InsertTrackLast` | macos/Sources/MusicKitPlugin.swift:416-444 | the queue becomes `q + [t]` |
| `MacOSPlugin.MusicKitPlugin.AppendTracksToQueue` | macos/Sources/MusicKitPlugin.swift:446-474 | the queue becomes `q + ts` |
| `MacOSPlugin.MusicKitPlugin.SkipToItem` | macos/Sources/MusicKitPlugin.swift:203-220 | resolves iff some queued track has the id (`MacQueue.HasTrack`), otherwise rejects "Track not found in queue"; it changes nothing |
| `MacOSPlugin.InitializeTwice` | macos/Sources/MusicKitPlugin.swift:18-27 | two `initialize` calls both resolve and subscribe the observers exactly once |
| `MacOSPlugin.RemoveAbsentTrack` | macos/Sources/MusicKitPlugin.swift:364-375 | removing an id that is not queued resolves success and leaves the queue unchanged |
| `IOSStatus.PlaybackStateName` | ios/Sources/MusicKitPlugin.swift:455-467 | a total map; "playing" names only `playing`, "unknown" only an unknown case |
| `IOSStatus.ParsePlaybackState` | ios/Sources/MusicKitPlugin.swift:455-467 | any state it reads back is named by the string it read |
| `IOSStatus.PlaybackStateNameRoundTrip` | ios/Sources/MusicKitPlugin.swift:455-467 | every state's name reads back as that state, so no two states share a name |
| `IOSStatus.AuthorizationStatusName` | ios/Sources/MusicKitPlugin.swift:469-480 | a total map; "authorized" names only `authorized` |
| `IOSStatus.ParseAuthorizationStatus` | ios/Sources/MusicKitPlugin.swift:469-480 | any status it reads back is named by the string it read |
| `IOSStatus.AuthorizationStatusNameRoundTrip` | ios/Sources/MusicKitPlugin.swift:469-480 | every status's name reads back as that status |
| `IOSPlugin.ValidTrackIds` | ios/Sources/MusicKitPlugin.swift:233 | only non-empty ids survive, the list does not grow, and it is empty iff every given id was empty |
| `IOSPlugin.ValidTrackIdsKeepsOrder` | ios/Sources/MusicKitPlugin.swift:233 | the kept ids are a subsequence of the given ones, in order |
| `IOSPlugin.ValidTrackIdsCounts` | ios/Sources/MusicKitPlugin.swift:233 | every non-empty id keeps its multiplicity; the empty id drops to zero |
| `IOSPlugin.StartItemId` | ios/Sources/MusicKitPlugin.swift:243-246 | an item is pinned iff `0 < startPosition < count`; it is the filtered list's entry at that index, never its first |
| `IOSPlugin.SetQueue` | ios/Sources/MusicKitPlugin.swift:226-262 | succeeds iff some id is non-empty; on failure resolves `success: false` with "No valid track IDs provided" and issues no command; on success resolves `error: ""` and issues one descriptor of exactly the filtered ids, then `play` iff `startPlaying`; the pinned id is exactly `StartItemId(ValidTrackIds(trackIds), startPosition)`, so it is the filtered list's entry at `startPosition` when `0 < startPosition < count` and absent otherwise; it is a non-empty id the caller sent |
| `IOSPlugin.SetQueueStartsAtSecond` | ios/Sources/MusicKitPlugin.swift:241-249 | two tracks with start position 1 give a descriptor of both that starts at the second |
| `IOSPlugin.PositionZeroNeverPinned` | ios/Sources/MusicKitPlugin.swift:243 | start position 0 never pins a start item |
| `IOSPlugin.StartPositionIndexesFilteredIds` | ios/Sources/MusicKitPlugin.swift:233-253 | with an empty id in front, position 1 pins the second valid id, not the caller's second entry |
| `IOSPlugin.MusicKitPlugin.constructor` | ios/Sources/MusicKitPlugin.swift:29-38 | no tokens, no timer, no events; the timer invariant holds |
| `IOSPlugin.MusicKitPlugin.StartTimeObserver` | ios/Sources/MusicKitPlugin.swift:421-435 | schedules a timer only when none is held; with one held nothing changes |
| `IOSPlugin.MusicKitPlugin.StopTimeObserver` | ios/Sources/MusicKitPlugin.swift:437-447 | afterwards no timer is held or live; with none held it is a no-op |
| `IOSPlugin.MusicKitPlugin.HandlePlaybackStateDidChange` | ios/Sources/MusicKitPlugin.swift:378-394 | reports the state's name; afterwards a timer exists iff the state is `playing`; at most one timer is live; a repeated `playing` schedules no second timer |
| `IOSPlugin.MusicKitPlugin.Authorize` | ios/Sources/MusicKitPlugin.swift:58-104 | an authorized OS status with no developer token rejects "Developer token not set." and keeps the token; a failed fetch rejects and keeps it; a successful fetch stores it; a non-authorized status resolves with its name and does not reject; a resolved reply carries the held token |
| `IOSPlugin.MusicKitPlugin.IsAuthorized` | ios/Sources/MusicKitPlugin.swift:106-109 | true iff a user token is held |
| `IOSPlugin.MusicKitPlugin.SetUserToken` | ios/Sources/MusicKitPlugin.swift:111-125 | the token is held and the call resolves |
| `IOSPlugin.MusicKitPlugin.Unauthorize` | ios/Sources/MusicKitPlugin.swift:127-129 | no user token is held |
| `IOSPlugin.MusicKitPlugin.GetUserToken` | ios/Sources/MusicKitPlugin.swift:131-138 | the held token, or "" when none |
| `IOSPlugin.MusicKitPlugin.SetDeveloperToken` | ios/Sources/MusicKitPlugin.swift:145-154 | the developer token is held and the call resolves |
| `IOSPlugin.MusicKitPlugin.GetDeveloperToken` | ios/Sources/MusicKitPlugin.swift:140-143 | always "", whatever is held |
| `IOSPlugin.MusicKitPlugin.GetAuthorizationStatus` | ios/Sources/MusicKitPlugin.swift:166-170 | "authorized" iff a user token is held, otherwise "notAuthorized" |
| `IOSPlugin.StatusAgreesWithIsAuthorized` | ios/Sources/MusicKitPlugin.swift:106-170 | `isAuthorized` is true exactly when `getAuthorizationStatus` answers "authorized" |
| `IOSPlugin.SetThenGetUserToken` | ios/Sources/MusicKitPlugin.swift:111-138 | `setUserToken(t)` then `getUserToken` returns `t` |
| `IOSPlugin.UnauthorizeThenQuery` | ios/Sources/MusicKitPlugin.swift:127-170 | after `unauthorize`, `getUserToken` returns "" and the status is "notAuthorized" |
| `IOSPlugin.RepeatedPlayingThenPause` | ios/Sources/MusicKitPlugin.swift:378-447 | repeated `playing` notifications schedule at most one timer, and a following `paused` leaves no live timer |

## Left out

- Calls into MusicKit and MediaPlayer are not modelled. This covers play, pause, stop, seek,
  next, previous, setVolume, getCurrentTrack, getPlaybackState and the state-update events on
  macOS. On both platforms it also covers authorization, storefront and token queries that go
  to the OS. On iOS these are direct pass-throughs or fixed placeholder replies, including
  getQueue, updateQueue, appendToQueue, removeFromQueue, clearQueue and insertTrackAtPosition.
- The catalog request and the user-token provider are foreign calls. They appear only as
  parameters. A catalog lookup that throws and one that finds nothing are both `None`.
- JSON encoding and decoding are library serialisation and are left out. A decode's outcome
  is an input `Result`, so the "... failed: <error>" rejections are modelled. The
  rejections caused by argument parsing are not, because that parsing belongs to the host
  runtime. These are macOS's "Invalid ... arguments" rejections and three on iOS:
  - `setQueue`'s "Failed to set queue: ..." (ios/Sources/MusicKitPlugin.swift:258-261);
  - `setUserToken`'s "Failed to parse arguments: ..." (121-124);
  - `setDeveloperToken`'s "Failed to parse arguments: ..." (151-153).
  So the model's `SetUserToken` and `SetDeveloperToken` always resolve, and `IOSPlugin.SetQueue`
  always receives well-formed arguments.
- Each command runs as one atomic step. The interleaving of concurrent `Task`s around the
  awaited catalog lookups is a concurrency concern and is left out.
- The timer's one-second tick and the `playback-time-changed` events carry floating-point
  times, so they are left out. So are `NotificationCenter` registration, `deinit` and iOS
  `handleNowPlayingItemDidChange`, which converts a float duration. The timer is represented
  by a serial number.
- `HandlePlaybackStateDidChange` takes the player's state once. The source reads
  `player.playbackState` twice: once for the event and once for the timer decision.
- `InsertTrackAtPosition` and `InsertTracksAtPosition` take the position as a `nat`, which
  leaves out one trap on purpose. In the macOS plugin the position is a Swift `Int`
  (macos/Sources/MusicKitPlugin.swift:665, 670). A negative value passes the
  `position <= count` check (298, 332) and then traps in `insert(at:)` /
  `insert(contentsOf:at:)` (299, 333). The model does not capture this crash. The Rust
  commands in this repository do not reach this Swift code. On desktop they call stubs that
  answer "Not supported on desktop" (src/desktop.rs:127, 135). On mobile, inserting one track goes
  to the iOS plugin and inserting several fails as not supported (src/mobile.rs:175-196).
- macOS `skipToItem` and `setQueue` each receive a `startPlaying` argument and never use it
  (`SkipToItemArgs` and `SetQueueArgs`, macos/Sources/MusicKitPlugin.swift:646, 655). The model
  takes no such parameter.
- Store ids are compared code point by code point (`==` on `seq<char>`) in `WithoutId`,
  `HasTrack` and `SkipToItem`. Swift's `String ==` (macos/Sources/MusicKitPlugin.swift:209,
  364) uses canonical equivalence. For example, a precomposed "é" equals "e" followed by
  U+0301. For such ids, `contains(where:)` and `removeAll` match entries that the model keeps
  apart, and `WithoutIdCounts` does not describe Swift there. For ASCII store ids the two
  comparisons agree.
- Track durations are Doubles in the source and `real` here. They are carried, never computed
  with.
- A debounced track-change bridge and a `QueueManager` class are not part of this model. They
  do not appear in the source files modelled.
- iOS `authorize` first requests OS authorization. It rejects for a missing developer token
  only when the OS answers `authorized`. When the OS declines, it resolves with the status
  even without a developer token. The model follows this code, not the stricter "no native
  request without a developer token" reading.
