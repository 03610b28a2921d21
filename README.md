# Yandex Music extension playback core in Dafny

This project models the playback core of a browser extension for Yandex
Music and proves properties of that model. The extension has two parts.

**The background service worker** (`background.js`) owns the playback
record `currentPlaybackState`. It handles the popup's requests (set
playlist, play by index, next/previous, pause, resume, volume, seek,
state query) and progress reports from the offscreen audio document.
Every call of `updateAndNotifyPopup` persists a four-field snapshot to
extension storage and broadcasts the full state. Play, pause, resume and
the state query make that call. `set_playlist_info` and `update_progress`
change the record in memory only. When the extension is installed or
updated (`chrome.runtime.onInstalled`), it reloads the snapshot and
resumes playback if the snapshot says it was playing, has a non-empty
track list and has a stored playlist id. It also resolves a
track id to a media URL: it picks an encoding, then either uses the
direct link or fills a URL template from an XML descriptor.

**The popup** (`popup.js`) keeps a second, smaller `state` object. It
sends requests and adopts the background's broadcasts. It decides which
section to show, maps playlist tracks and playlist buttons to display
records, and formats the clock.

Layout, one module per file:

- `wrappers.dfy`: `Option`, `Result`.
- `text.dfy`: the JavaScript string built-ins used: `includes`, `replace` with a string pattern, `split`, `join`.
- `protocol.dfy`: truthiness, `||`, track records, and the messages between popup, background and offscreen document.
- `track_url.dfy`: `fetchTrackUrl` and both copies of `resolveDownloadInfo`.
- `catalog.dfy`: the playlist-id check of `fetchPlaylist`, and `fetchPlaylistOfTheDay`'s search over the landing blocks (nested loops with an early return).
- `playback.dfy`: the background's playback record, its snapshot, and the effect of every handler on the whole "world" as pure functions. The world is four parts: playback record, offscreen flags, storage map, and the sequence of messages sent.
- `coordinator.dfy`: the background as a class whose fields are those module-level variables. Each handler method is proved to perform the pure effect of the same name and to keep the world consistent.
- `popup_views.dfy`: the popup's pure helpers.
- `popup.dfy`: the popup `state` as a class, one method per state-changing function.

Environment inputs are parameters:

- The HTTP answers are oracle functions, or an already-decoded response value.
- The extension storage is a `map` from key to stored value.
- Every `chrome.runtime.sendMessage` appends to an outbox sequence.

Behaviours of `playTrack` (background.js:76-119) that the model keeps as written:

- **The playlist id committed on success.** The merged change object has the key `playlistId`, not `currentPlaylistId` (background.js:109-113). So the success merge never sets `currentPlaylistId` from the requested id; only the storage fallback (background.js:82) changes it, even though the comment at background.js:112 says the intent is to make sure the playlist id is set. The broadcast and the snapshot keep the playlist id that was already current. In the model the stray property is the field `playlistIdProperty`; nothing reads it.
- **When the storage fallback runs.** The guard at background.js:77 tests only emptiness and truthiness. It does not compare the requested playlist id with the current one.
- **A missing token.** `playTrack` returns without sending anything (background.js:93-97). If the storage fallback ran first, the track ids and playlist id it recovered (background.js:81-82) stay in the record.
- **A failed URL resolution.** Only `isPlaying` is cleared; `currentTrackIndex` keeps its previous value (background.js:117).

## Model

| member | source | states |
|---|---|---|
| Text.ReplaceFirst | popup.js:131 | a string without the pattern is returned unchanged |
| Text.ReplaceFirstAt | popup.js:164 | only the first occurrence is replaced: `a + pat + b` with no earlier match becomes `a + rep + b` |
| Text.Split | background.js:297 | a split has one more part than separators, and no part contains the separator |
| Text.JoinSplit | background.js:297-302 | joining the parts of a split with the same separator gives the string back |
| Text.SplitPair | background.js:297-302 | `a + ':' + b` splits into exactly `[a, b]` when neither side holds `:` |
| Protocol.Or | background.js:112 | `a || b` on optional strings: `a` when it is truthy, else `b` |
| TrackUrl.FirstPreferred | background.js:330 | `find` as an index: the first mp3 at 192 kbps, none before it; none iff no entry qualifies |
| TrackUrl.ChooseEncoding | background.js:330 | the chosen entry is in the list: the first preferred one, or entry 0 when none is preferred |
| TrackUrl.ChooseEncodingExamples | background.js:330 | an mp3 at 192 kbps after an aac entry is chosen over it and over a lower mp3; a list with no preferred entry gives its first |
| TrackUrl.TextRun | background.js:347-350 | the `[^<]+` run: the longest `<`-free prefix, ending at a `<` or at the end |
| TrackUrl.MatchAt | background.js:347-350 | a match anchored at the start yields a non-empty, `<`-free value, and `<tag>value</tag>` is a prefix there |
| TrackUrl.ExtractTag | background.js:347-350 | a found group is non-empty and `<`-free, and its element occurs in the text |
| TrackUrl.ExtractTagNone | background.js:347-350 | nothing is found iff no position of the text starts a match |
| TrackUrl.ExtractTagLeftmost | background.js:347-350 | what is found is the match at the first position that starts one, as `String.prototype.match` returns |
| TrackUrl.ElementFound | background.js:347-350 | an element with a non-empty, `<`-free text anywhere in the document is found |
| TrackUrl.ResolveDescriptor | background.js:346-355 | an error iff one of host, path, ts, s is missing; otherwise `MediaUrl`, the `https://host/get-mp3/s/ts+path` template (background.js:354, popup.js:273), of the four values |
| TrackUrl.ResolveDownloadInfo | background.js:340-356 | a network error or non-ok status is `RequestFailed`; an ok body is resolved by `ResolveDescriptor` |
| TrackUrl.PopupResolveDownloadInfo | popup.js:268-274 | a rejected fetch is `RequestFailed`; the popup ignores the status, so it parses any body and agrees with the background on ok responses |
| TrackUrl.FetchTrackUrl | background.js:324-339 | a failed request is an error, and an ok answer with an empty `result` is `DownloadInfoEmpty` |
| TrackUrl.DirectUrlPreferred | background.js:331-333 | a direct URL on the chosen encoding is the answer; the descriptor is not fetched |
| TrackUrl.DescriptorFallback | background.js:334-338 | without a direct URL, the descriptor decides; an entry with neither link is `NoTrackLink` |
| TrackUrl.ExtractSkips | background.js:347-350 | the leftmost match skips a prefix that cannot start the tag |
| TrackUrl.DescriptorRoundTrip | background.js:340-356 | reading a well-formed descriptor back yields the templated URL of its four fields |
| TrackUrl.MediaUrlExample | background.js:354 | `MediaUrl` with host h, path /p, ts 111, s sig gives `https://h/get-mp3/sig/111/p` |
| TrackUrl.MissingSignature | background.js:351-353 | a descriptor without `<s>` is rejected as incomplete |
| Catalog.ParsePlaylistId | background.js:297-300 | accepted iff the id holds exactly one `:`; the parts are colon-free and rejoin to the id |
| Catalog.PlaylistIdRoundTrip | background.js:273 | `uid + ':' + kind` parses back to `(uid, kind)` |
| Catalog.PlaylistRequestUrl | background.js:297-303 | the first request URL is built from the two parts, and is refused exactly when the id is malformed |
| Catalog.Blocks | background.js:274-279 | the block list is `items` when present, else `result.blocks`, else `blocks`, else empty (also popup.js:126) |
| Catalog.ExpandOutcome | background.js:282-291 | `Expand`: a personal item is tested itself even with entities; a non-personal block only through its entities, and without entities it yields nothing |
| Catalog.FirstOfDay | background.js:269-272 | no answer iff no candidate passes `IsPlaylistOfDay` (a personal item whose playlist is marked playlist of the day by `idForFrom`, title or `playlistType`) |
| Catalog.FirstOfDayIsFirst | background.js:280-293 | the answer is the id of the first qualifying candidate |
| Catalog.CandidatesAppend | background.js:280-292 | `Candidates`, the order in which the nested loops visit blocks, is block by block: candidates of concatenated block lists concatenate |
| Catalog.SearchPlaylistOfTheDay | background.js:280-293 | the nested loops with early return compute the first playlist of the day among the expanded blocks |
| Catalog.FetchPlaylistOfTheDay | background.js:263-295 | request failure, the legal block, found id, or not found, exactly as the answer dictates |
| Playback.Token | background.js:93-94 | the token is present iff a non-empty string is stored under `yandex-music-token` |
| Playback.Merge | background.js:54 | the merge sets index, flag and stray id as given; it never touches the lists, `currentPlaylistId`, time or duration |
| Playback.MergeNothing | background.js:218-231 | merging no changes leaves the state as it was |
| Playback.Persist | background.js:55-61 | exactly the four durable keys are written from the snapshot (a missing id as null); every other key is kept |
| Playback.ReadSnapshot | background.js:237-241 | the `||` defaults: 0, false, [] and null for missing values; the index is non-negative on well-formed storage |
| Playback.PersistReadBack | background.js:55-61 | writing a snapshot and reading it back is the identity, except that an empty id reads back as null |
| Playback.PersistWellFormed | background.js:55-61 | persisting a non-negative index keeps storage well-formed |
| Playback.JsRem | background.js:123 | JavaScript `%` agrees with the mathematical remainder on non-negative operands |
| Playback.WrapInRange | background.js:121-131 | next and previous targets lie in [0, N), are `(i+1) % N` and `(i-1+N) % N`, and are 0 when N = 1 |
| Playback.WrapSteps | background.js:121-131 | next is one forward except from the last track; previous is one back except from the first |
| Playback.WrapInverse | background.js:121-131 | next and previous undo each other |
| Playback.Recover | background.js:77-91 | recovery succeeds iff stored ids are non-empty and a stored id exists; it replaces only the ids and `currentPlaylistId` |
| Playback.Prepared | background.js:77-91 | a state that goes on has tracks and a truthy playlist id; when the guard holds it is exactly `Recover`, otherwise the state unchanged |
| Playback.TrackIdAt | background.js:99-103 | an id is found iff the index is in range and the id there is truthy; negative indices find nothing |
| Playback.Ensured | background.js:35-50 | already ready or creating: nothing happens; otherwise the offscreen document ends ready, not creating, with a document iff the API exists or one was open |
| Playback.EnsuredOnce | background.js:35-50 | the offscreen factory is one-shot |
| Playback.Notify | background.js:53-74 | merge, then persist the merged snapshot, then append one seven-field broadcast of the merged state |
| Playback.PlayOutcomes | background.js:76-119 | `PlayEffect`, the model of `playTrack`: giving up changes only what the fallback recovered. A success plays at `index`, sends `play` then a broadcast, and keeps the prepared ids and playlist id. A failure only stops |
| Playback.StartPersists | background.js:105-113 | after a success the snapshot reads back as (index, true, prepared ids, prepared playlist id), and the offscreen document is ready |
| Playback.FailOnlyStops | background.js:115-118 | with a playable list in memory, a failed lookup only sets `isPlaying` to false |
| Playback.NextPrevTargets | background.js:121-131 | `NextEffect` and `PrevEffect`: with an empty list, next and previous change nothing and send nothing; otherwise they play the wrapped neighbour in the same playlist |
| Playback.GetStateUnchanged | background.js:218-231 | `GetStateEffect`: a state query re-persists and re-broadcasts the state unchanged |
| Playback.SetPlaylistSilent | background.js:142-148 | `SetPlaylistEffect` persists and broadcasts nothing: the stored snapshot and the start-up decision stay as before, and index and flag are kept |
| Playback.PauseStops | background.js:171-176 | `PauseEffect`: playback off, pause sent to the ready offscreen document before the broadcast, and the stored snapshot makes start-up not resume |
| Playback.ResumeStarts | background.js:178-195 | `ResumeEffect`: with tracks and playback off, resume is sent, then playing is broadcast and stored; without tracks nothing happens |
| Playback.ForwardKeepsState | background.js:197-207 | `ForwardEffect`: volume and seek reach the ready offscreen document and change neither state nor storage |
| Playback.ProgressTransient | background.js:210-215 | `ProgressEffect`: storage and the durable fields stay as they were, the report is forwarded, and the next state query broadcasts the new time and duration |
| Playback.SetPlaylistThenQuery | background.js:142-148 | set-playlist then query broadcasts exactly the supplied lists and id, with the index and flag from before |
| Playback.ResumeWhilePlaying | background.js:178-181 | resuming while playing is a no-op |
| Playback.RestartTarget | background.js:242-244 | start-up plays iff the snapshot is playing, has tracks and has an id, and then at the stored index and id |
| Playback.RestartExample | background.js:236-248 | the snapshot {2, true, [a,b,c], "u:k"} issues exactly `playTrack(2, "u:k")` |
| Playback.RestartFromEmpty | background.js:237-241 | `RestartEffect` on empty storage restores the defaults and sends nothing |
| Playback.NotifyConsistent | background.js:53-74 | a notification with a non-negative index keeps the world consistent |
| Playback.PlayConsistent | background.js:76-119 | `playTrack` keeps the world consistent |
| Playback.RestartConsistent | background.js:236-248 | `RestartEffect`, the `onInstalled` handler, keeps the world consistent |
| Coordinator.Coordinator.constructor | background.js:7-20 | the initial playback record, offscreen not ready, over the stored map, nothing sent |
| Coordinator.Coordinator.EnsureOffscreen | background.js:35-50 | performs `Ensured` on the flags |
| Coordinator.Coordinator.UpdateAndNotifyPopup | background.js:53-74 | performs `Notify` |
| Coordinator.Coordinator.PreparePlaylist | background.js:77-91 | the fallback step: goes on iff `Prepared` does, with its state; otherwise nothing changes |
| Coordinator.Coordinator.PlayTrack | background.js:76-119 | performs `PlayEffect` and keeps `Valid` |
| Coordinator.Coordinator.NextTrack | background.js:121-125 | performs `NextEffect`; also the `track_ended` handler (background.js:156-159) |
| Coordinator.Coordinator.PrevTrack | background.js:127-131 | performs `PrevEffect` |
| Coordinator.Coordinator.OnSetPlaylistInfo | background.js:142-148 | overwrites exactly the two lists and `currentPlaylistId` |
| Coordinator.Coordinator.OnPause | background.js:171-176 | ensure offscreen, send pause, notify with `isPlaying` false |
| Coordinator.Coordinator.OnResumeOrPlayCurrent | background.js:178-195 | performs `ResumeEffect` |
| Coordinator.Coordinator.OnSetVolume | background.js:197-201 | ensure offscreen, forward the volume, no state change |
| Coordinator.Coordinator.OnSeek | background.js:203-207 | ensure offscreen, forward the seek, no state change |
| Coordinator.Coordinator.OnUpdateProgress | background.js:210-215 | records time and duration in memory only and forwards them |
| Coordinator.Coordinator.OnGetCurrentPlaybackState | background.js:218-231 | asks the ready offscreen document for audio info, then notifies with no changes |
| Coordinator.Coordinator.OnInstalled | background.js:236-248 | performs `RestartEffect` |
| PopupViews.NatToString | popup.js:41 | `String(n)`: decimal digits with no leading zero, exactly one digit below 10, at most two below 100 |
| PopupViews.ReadDigits | popup.js:41 | the digits read back as the number |
| PopupViews.PadStart2 | popup.js:41 | `padStart(2, '0')`: a short string is left-padded with zeros to length 2 |
| PopupViews.FmtRoundTrip | popup.js:41 | `Fmt`: the clock reads back as (s / 60, s % 60), seconds always two digits |
| PopupViews.FmtExamples | popup.js:41 | 75 gives "1:15", 5 gives "0:05", 600 gives "10:00" |
| PopupViews.StripTrailingSlash | popup.js:164 | `/\/?$/` removes at most one trailing slash |
| PopupViews.CoverUrl | popup.js:163-164 | empty iff the raw value is empty; otherwise it starts with `https://`; the branch is chosen by `Text.Contains`, the model of `includes('%%')` |
| PopupViews.CoverFillsPlaceholder | popup.js:164 | the first `%%` becomes `300x300` |
| PopupViews.CoverAppendsSize | popup.js:164 | a path without `%%` gets `/200x200`, whether or not it ends in a slash |
| PopupViews.TrackInfoOf | popup.js:162-165 | `ToTrackInfo` keeps id and title; `RawCover` takes the track's truthy cover, else the first album's, and the cover is empty iff neither is truthy |
| PopupViews.Names | popup.js:165 | the artists' names in order |
| PopupViews.ArtistsExample | popup.js:165 | two artists are joined as "A, B" |
| PopupViews.MapTracks | popup.js:161-166 | one record per entry |
| PopupViews.MapTracksElements | popup.js:161-166 | each record is the mapping of the entry (wrapped or bare) at the same position |
| PopupViews.IdsOfMappedTracks | popup.js:172 | the ids sent to the background are the tracks' ids, in order |
| PopupViews.RestoreIndex | popup.js:180-181 | not resuming gives 0; a non-zero result is the stored number, which is below the count |
| PopupViews.ChooseView | popup.js:103-118 | player iff a truthy playlist id and tracks; else playlist selection iff a token; else sign-in |
| PopupViews.ToggleRequest | popup.js:237-246 | pause iff playing; resume iff stopped with tracks; nothing iff stopped without tracks |
| PopupViews.ButtonOf | popup.js:128-131 | a button exists iff there is a cover; it keeps the title and has id `uid:kind` |
| PopupViews.ButtonIdParses | popup.js:130 | a button id splits back into the same uid and kind |
| PopupViews.ButtonCoverFilled | popup.js:131 | the first `%%` of a button cover becomes `200x200` |
| PopupViews.MapButtons | popup.js:128-132 | all buttons, in order, iff every cover is present |
| PopupViews.PersonalRefs | popup.js:127 | every personal item with a playlist uid has its playlist in the result, and everything in the result comes from such an item |
| PopupViews.PersonalRefsAppend | popup.js:127 | the filter keeps order and multiplicity: the refs of concatenated lists concatenate |
| PopupViews.PersonalRefsOne | popup.js:127 | one block gives its playlist if it is personal with a uid, else nothing |
| PopupViews.PersonalCovers | popup.js:128-132 | the mapping succeeds iff every kept personal playlist has a cover |
| PopupViews.PersonalButtons | popup.js:124-133 | `fetchPersonalPlaylists`: buttons iff every personal item of the block list has a cover |
| PopupViews.RecommendedRefs | popup.js:136-140 | fails iff a liked item lacks a playlist; otherwise every liked item's playlist is in the result and everything in it comes from a liked item |
| PopupViews.RecommendedRefsAppend | popup.js:137-140 | item by item and in order: the refs of concatenated lists concatenate, and failure of either part fails the whole |
| PopupViews.RecommendedRefsOne | popup.js:137-140 | a non-liked item gives nothing, a liked one its playlist, and a liked one without a playlist fails |
| PopupViews.RecommendedCovers | popup.js:137-140 | the mapping succeeds iff every liked item has a playlist with a cover |
| PopupViews.RecommendedButtons | popup.js:134-141 | `fetchRecommendedPlaylists`: buttons iff every liked item has a playlist with a cover; absent `items` is empty |
| Popup.LoadTracks | popup.js:160-167 | a fetch error passes through; no tracks is "Плейлист пуст"; otherwise the mapped records, never empty |
| Popup.SavedIndex | popup.js:178-180 | the value under `PLIDX-` + id, if stored |
| Popup.PopupState.constructor | popup.js:34-36 | the initial `state` |
| Popup.PopupState.Bootstrap | popup.js:47-66 | a stored token is kept, `init` hides the error banner and requests the state; without one the sign-in section shows |
| Popup.PopupState.OnTokenUpdated | popup.js:54-66 | keeps the token; `init` hides the error banner and requests the state |
| Popup.PopupState.ShowError | popup.js:39 | shows the message and hides the player |
| Popup.PopupState.ShowPlaylistSel | popup.js:43 | shows playlist selection and clears the tracks |
| Popup.PopupState.Play | popup.js:217-234 | the index always moves; only an existing track is requested with `state.playlistId` and marked playing |
| Popup.PopupState.Toggle | popup.js:237-246 | sends `ToggleRequest` and changes nothing else |
| Popup.PopupState.OnUpdateProgress | popup.js:86-92 | keeps only the duration |
| Popup.PopupState.OnPlaybackStateUpdated | popup.js:94-119 | adopts the broadcast, shows `ChooseView`'s section; playlist selection clears the tracks; the player takes the duration |
| Popup.PopupState.LoadPlaylistAndPlay | popup.js:158-186 | an error changes only the banner and view. Otherwise it keeps the tracks, announces them, stores the id, and shows the player stopped at the restored index |

## Left out

- offscreen.js is not part of this model: it wraps the browser's audio element and a timer. Its commands appear only as outbox messages.
- The OAuth tab flow and the `TOKEN_RE` scrape (background.js:5, 23-32): browser tab plumbing. Only its result, `token_updated`, is modelled (`Popup.PopupState.OnTokenUpdated`).
- The `fetch`/`json` calls themselves, and the playlist fetch with its POST fallback (background.js:251-262, 304-322; popup.js:250-260). Their answers are parameters: `TrackUrl.Catalog`, `Response`, and the `fetched` argument of `LoadPlaylistAndPlay`.
- The popup's `fetchTrackUrl` (popup.js:261-267): defined but never called in popup.js. Its descriptor half is `TrackUrl.PopupResolveDownloadInfo`.
- The popup's `fetchPlaylist` split (popup.js:255): it never checks the part count, and its outcome is a parameter.
- DOM rendering is left out: `list`, `update`, `renderButtons`, icons and CSS classes. Only the section on show (`View`) is kept. The popup's `init` is modelled only as hiding the error banner (`ok`) and its state request (`Bootstrap`, `OnTokenUpdated`); the button bindings it installs are left out. Its `Promise.all` over the two button lists is left out beyond the list functions `PersonalButtons` and `RecommendedButtons`.
- The popup's controls that only send a message (prev, next, volume, seek, sign-in; popup.js:53, 81-84), because they change no state.
- Floating point: times, durations, volume and seek values are carried as opaque `real` values and never computed with. `fmt` is modelled on whole non-negative seconds.
- Concurrency: every message is one synchronous step. `await`, storage callbacks and interleaved `playTrack` calls (last write wins) are not modelled, and so `offscreenCreating` is never observed true between events.
- A failure of `chrome.offscreen.createDocument` is not modelled. In the code it would reach the `catch` within `playTrack`, or go unhandled in the other handlers.
- The message router itself (background.js:135-233) is not a member. Each of its branches is one method of `Coordinator.Coordinator`, and `play_track_by_index` is `PlayTrack`. `open_oauth` is only tab plumbing.
- Values of unexpected JavaScript types are left out. Examples: a non-integer stored index, a numeric track id, JSON without the fields the code dereferences. Each record field has one type. A missing cover object and a missing playlist are modelled where the code would throw while mapping buttons.
- Popup.LoadTracks: a fetched playlist that is itself `undefined` (a missing `result`) is not distinguished from an error.
- Playback.ReadSnapshot: it reads only the value shapes this extension writes. Other shapes fall back to the defaults.
- PopupViews.MapTracks: its contract states only the length. The element-wise mapping is the separate lemma `MapTracksElements`, which keeps the class proofs small.
- Every popup message handler is modelled as always installed. In popup.js the `update_progress`/`playback_state_updated` listener is registered only by `init` via `bindCtrl` (popup.js:63, 86), and the `token_updated` listener only by `auth` (popup.js:54-56). The model lets `OnUpdateProgress`, `OnPlaybackStateUpdated` and `OnTokenUpdated` run in any state, and does not model the duplicate listeners a second `init` would add.
- Console logging is not modelled: the `console.warn`/`console.error`/`console.log` reports of `playTrack`'s abandon, success and failure paths and of `resume_or_play_current` without tracks (background.js:78, 86, 88, 95, 101, 114, 116, 192), and those of the router and the popup. They change no state and send no message, so these paths appear in the model only as their state and outbox effect.
