/** The playback record of background.js (`currentPlaybackState`), its
    durable snapshot in `chrome.storage.local`, and the effect of every
    message handler on the whole service-worker world, as pure functions.
    The class in coordinator.dfy performs these effects step by step. */
module Playback {
  import opened Wrappers
  import opened Protocol
  import TrackUrl

  // ---- storage ---------------------------------------------------------------

  const TOKEN_KEY := "yandex-music-token"
  const INDEX_KEY := "currentIndex"
  const PLAYING_KEY := "isPlaying"
  const TRACKS_KEY := "trackIds"
  const PLAYLIST_KEY := "playlistId"

  /** The values this code stores (`null` for a missing playlist id). */
  datatype Stored = IntV(i: int) | BoolV(b: bool) | IdsV(ids: seq<string>) | StrV(s: string) | NullV

  type Storage = map<string, Stored>

  /** Storage holding only values of the shapes this extension writes. */
  ghost predicate WellFormed(st: Storage) {
    (INDEX_KEY in st ==> st[INDEX_KEY].IntV? && st[INDEX_KEY].i >= 0) &&
    (PLAYING_KEY in st ==> st[PLAYING_KEY].BoolV?) &&
    (TRACKS_KEY in st ==> st[TRACKS_KEY].IdsV?) &&
    (PLAYLIST_KEY in st ==> st[PLAYLIST_KEY].StrV? || st[PLAYLIST_KEY].NullV?) &&
    (TOKEN_KEY in st ==> st[TOKEN_KEY].StrV?)
  }

  /** The OAuth token, when one is stored and is not empty. */
  function Token(st: Storage): (r: Option<string>)
    ensures r.Some? <==> TOKEN_KEY in st && st[TOKEN_KEY].StrV? && st[TOKEN_KEY].s != []
    ensures r.Some? ==> r.value == st[TOKEN_KEY].s
  {
    if TOKEN_KEY in st && st[TOKEN_KEY].StrV? && st[TOKEN_KEY].s != [] then Some(st[TOKEN_KEY].s) else None
  }

  // ---- the playback record -----------------------------------------------------

  /** `currentPlaybackState`, plus the stray `playlistId` property that the
      success path of `playTrack` adds to it through `Object.assign`
      (None while that property has never been written). */
  datatype PlaybackState = PlaybackState(
    currentTrackIndex: int,
    isPlaying: bool,
    currentTrackListIds: seq<string>,
    currentFullTrackListInfo: seq<TrackInfo>,
    currentPlaylistId: Option<string>,
    currentTime: real,
    duration: real,
    playlistIdProperty: Option<string>)

  const Initial := PlaybackState(0, false, [], [], None, 0.0, 0.0, None)

  /** The keys `updateAndNotifyPopup` is ever called with. */
  datatype Changes = Changes(currentTrackIndex: Option<int>, isPlaying: Option<bool>, playlistId: Option<string>)

  const NoChanges := Changes(None, None, None)

  /** `Object.assign(currentPlaybackState, changes)`. No key of `Changes` is
      named like a list field or `currentPlaylistId`, so those never change. */
  function Merge(s: PlaybackState, c: Changes): (r: PlaybackState)
    ensures r.currentTrackListIds == s.currentTrackListIds
    ensures r.currentFullTrackListInfo == s.currentFullTrackListInfo
    ensures r.currentPlaylistId == s.currentPlaylistId
    ensures r.currentTime == s.currentTime && r.duration == s.duration
    ensures r.currentTrackIndex == c.currentTrackIndex.GetOr(s.currentTrackIndex)
    ensures r.isPlaying == c.isPlaying.GetOr(s.isPlaying)
    ensures r.playlistIdProperty == if c.playlistId.Some? then c.playlistId else s.playlistIdProperty
  {
    var s1 := if c.currentTrackIndex.Some? then s.(currentTrackIndex := c.currentTrackIndex.value) else s;
    var s2 := if c.isPlaying.Some? then s1.(isPlaying := c.isPlaying.value) else s1;
    if c.playlistId.Some? then s2.(playlistIdProperty := c.playlistId) else s2
  }

  lemma MergeNothing(s: PlaybackState)
    ensures Merge(s, NoChanges) == s
  {
  }

  /** The durable subset written on every notification. */
  datatype Snapshot = Snapshot(currentIndex: int, isPlaying: bool, trackIds: seq<string>, playlistId: Option<string>)

  function SnapshotOf(s: PlaybackState): Snapshot {
    Snapshot(s.currentTrackIndex, s.isPlaying, s.currentTrackListIds, s.currentPlaylistId)
  }

  function DurableKeys(): set<string> {
    {INDEX_KEY, PLAYING_KEY, TRACKS_KEY, PLAYLIST_KEY}
  }

  /** `chrome.storage.local.set` of the four durable keys. */
  function Persist(st: Storage, snap: Snapshot): (r: Storage)
    ensures r.Keys == st.Keys + DurableKeys()
    ensures forall k :: k in st && k !in DurableKeys() ==> r[k] == st[k]
    ensures r[INDEX_KEY] == IntV(snap.currentIndex) && r[PLAYING_KEY] == BoolV(snap.isPlaying)
    ensures r[TRACKS_KEY] == IdsV(snap.trackIds)
    ensures r[PLAYLIST_KEY] == if snap.playlistId.Some? then StrV(snap.playlistId.value) else NullV
  {
    st[INDEX_KEY := IntV(snap.currentIndex)]
      [PLAYING_KEY := BoolV(snap.isPlaying)]
      [TRACKS_KEY := IdsV(snap.trackIds)]
      [PLAYLIST_KEY := if snap.playlistId.Some? then StrV(snap.playlistId.value) else NullV]
  }

  /** The onInstalled read-back: `r.currentIndex || 0`, `r.isPlaying || false`,
      `r.trackIds || []`, `r.playlistId || null`. */
  function ReadSnapshot(st: Storage): (r: Snapshot)
    ensures INDEX_KEY !in st ==> r.currentIndex == 0
    ensures PLAYING_KEY !in st ==> !r.isPlaying
    ensures TRACKS_KEY !in st ==> r.trackIds == []
    ensures PLAYLIST_KEY !in st ==> r.playlistId == None
    ensures WellFormed(st) ==> r.currentIndex >= 0
    ensures r.playlistId.Some? ==> r.playlistId.value != []
  {
    Snapshot(
      if INDEX_KEY in st && st[INDEX_KEY].IntV? then st[INDEX_KEY].i else 0,
      if PLAYING_KEY in st && st[PLAYING_KEY].BoolV? then st[PLAYING_KEY].b else false,
      if TRACKS_KEY in st && st[TRACKS_KEY].IdsV? then st[TRACKS_KEY].ids else [],
      if PLAYLIST_KEY in st && st[PLAYLIST_KEY].StrV? && st[PLAYLIST_KEY].s != [] then Some(st[PLAYLIST_KEY].s) else None)
  }

  /** Writing a snapshot and reading it back gives it back, except that an
      empty playlist id comes back as null. */
  lemma PersistReadBack(st: Storage, snap: Snapshot)
    ensures ReadSnapshot(Persist(st, snap)) == snap.(playlistId := if Truthy(snap.playlistId) then snap.playlistId else None)
  {
  }

  lemma PersistWellFormed(st: Storage, snap: Snapshot)
    requires WellFormed(st) && snap.currentIndex >= 0
    ensures WellFormed(Persist(st, snap))
  {
  }

  /** The seven-field `playback_state_updated` message. */
  function BroadcastOf(s: PlaybackState): StateUpdate {
    StateUpdate(s.currentTrackIndex, s.isPlaying, s.currentTrackListIds, s.currentFullTrackListInfo,
                s.currentPlaylistId, s.currentTime, s.duration)
  }

  // ---- wrap-around -----------------------------------------------------------

  /** JavaScript's `%`, which truncates toward zero. */
  function JsRem(a: int, n: int): (r: int)
    requires n > 0
    ensures a >= 0 ==> r == a % n
  {
    if a >= 0 then a % n else -((-a) % n)
  }

  function NextIndex(i: int, n: int): int
    requires n > 0
  {
    JsRem(i + 1, n)
  }

  function PrevIndex(i: int, n: int): int
    requires n > 0
  {
    JsRem(i - 1 + n, n)
  }

  lemma WrapInRange(i: int, n: int)
    requires n > 0 && i >= 0
    ensures 0 <= NextIndex(i, n) < n && NextIndex(i, n) == (i + 1) % n
    ensures 0 <= PrevIndex(i, n) < n && PrevIndex(i, n) == (i - 1 + n) % n
    ensures n == 1 ==> NextIndex(i, n) == 0 && PrevIndex(i, n) == 0
  {
  }

  /** Inside the list, next steps one forward except from the last track,
      previous one back except from the first. */
  lemma WrapSteps(i: int, n: int)
    requires 0 <= i < n
    ensures NextIndex(i, n) == if i == n - 1 then 0 else i + 1
    ensures PrevIndex(i, n) == if i == 0 then n - 1 else i - 1
  {
    if i == n - 1 {
      assert (i + 1) % n == n % n == 0;
    } else {
      assert (i + 1) % n == i + 1;
    }
    if i == 0 {
      assert (n - 1) % n == n - 1;
    } else {
      assert i - 1 + n == (i - 1) + n;
      ModShift(i - 1, n);
    }
  }

  lemma ModShift(a: int, n: int)
    requires 0 <= a < n
    ensures (a + n) % n == a
  {
  }

  /** Next and previous undo each other on every index of the list. */
  lemma WrapInverse(i: int, n: int)
    requires 0 <= i < n
    ensures PrevIndex(NextIndex(i, n), n) == i
    ensures NextIndex(PrevIndex(i, n), n) == i
  {
    WrapSteps(i, n);
    var nx := NextIndex(i, n);
    var pv := PrevIndex(i, n);
    WrapSteps(nx, n);
    WrapSteps(pv, n);
  }

  // ---- playTrack ---------------------------------------------------------------

  /** The guard of the storage fallback at the top of `playTrack`. */
  predicate NeedsRecovery(s: PlaybackState, playlistId: Option<string>) {
    |s.currentTrackListIds| == 0 || |s.currentFullTrackListInfo| == 0 ||
    !Truthy(playlistId) || !Truthy(s.currentPlaylistId)
  }

  /** The storage fallback: track ids and playlist id come back from the
      snapshot; the full track information cannot and stays as it was. */
  function Recover(s: PlaybackState, st: Storage): (r: Option<PlaybackState>)
    ensures r.Some? <==> |ReadSnapshot(st).trackIds| > 0 && ReadSnapshot(st).playlistId.Some?
    ensures r.Some? ==> r.value.currentTrackListIds == ReadSnapshot(st).trackIds
    ensures r.Some? ==> r.value.currentPlaylistId == ReadSnapshot(st).playlistId
    ensures r.Some? ==> r.value == s.(currentTrackListIds := r.value.currentTrackListIds,
                                     currentPlaylistId := r.value.currentPlaylistId)
  {
    var snap := ReadSnapshot(st);
    if |snap.trackIds| > 0 && snap.playlistId.Some? then
      Some(s.(currentTrackListIds := snap.trackIds, currentPlaylistId := snap.playlistId))
    else None
  }

  /** The state `playTrack` goes on with, or None when it gives up. */
  function Prepared(s: PlaybackState, st: Storage, playlistId: Option<string>): (r: Option<PlaybackState>)
    ensures r.Some? ==> |r.value.currentTrackListIds| > 0 && Truthy(r.value.currentPlaylistId)
    ensures r.Some? ==> r.value == s.(currentTrackListIds := r.value.currentTrackListIds,
                                     currentPlaylistId := r.value.currentPlaylistId)
    ensures !NeedsRecovery(s, playlistId) ==> r == Some(s)
    ensures NeedsRecovery(s, playlistId) ==> r == Recover(s, st)
  {
    if NeedsRecovery(s, playlistId) then Recover(s, st) else Some(s)
  }

  /** `currentTrackListIds[index]` when it is a truthy id. */
  function TrackIdAt(ids: seq<string>, index: int): (r: Option<string>)
    ensures r.Some? <==> 0 <= index < |ids| && ids[index] != []
    ensures r.Some? ==> r.value == ids[index]
  {
    if 0 <= index < |ids| && ids[index] != [] then Some(ids[index]) else None
  }

  // ---- the service-worker world ------------------------------------------------

  /** `offscreenReady`, `offscreenCreating`, whether `chrome.offscreen`
      exists, and whether the browser holds an offscreen document. */
  datatype Offscreen = Offscreen(api: bool, ready: bool, creating: bool, document: bool)

  /** `ensureOffscreen`, run to completion. */
  function Ensured(o: Offscreen): (r: Offscreen)
    ensures o.ready || o.creating ==> r == o
    ensures !(o.ready || o.creating) ==>
              r.api == o.api && r.ready && !r.creating && r.document == (o.document || o.api)
  {
    if o.ready || o.creating then o
    else Offscreen(o.api, true, false, o.document || o.api)
  }

  /** The offscreen factory is one-shot: a second call does nothing. */
  lemma EnsuredOnce(o: Offscreen)
    ensures Ensured(Ensured(o)) == Ensured(o)
  {
  }

  datatype World = World(state: PlaybackState, offscreen: Offscreen, storage: Storage, outbox: seq<Outbound>)

  /** What holds between two events: the index is never negative, no
      offscreen creation is half done, a ready offscreen has its document,
      and storage only holds what this extension writes. */
  ghost predicate Consistent(w: World) {
    w.state.currentTrackIndex >= 0 &&
    !w.offscreen.creating &&
    (w.offscreen.ready && w.offscreen.api ==> w.offscreen.document) &&
    WellFormed(w.storage)
  }

  function Send(w: World, m: Outbound): World {
    w.(outbox := w.outbox + [m])
  }

  function EnsureOffscreenIn(w: World): World {
    w.(offscreen := Ensured(w.offscreen))
  }

  /** `updateAndNotifyPopup(changes)`: merge, persist the four durable fields
      of the merged state, broadcast its seven fields. */
  function Notify(w: World, c: Changes): (r: World)
    ensures r.state == Merge(w.state, c) && r.offscreen == w.offscreen
    ensures r.storage == Persist(w.storage, SnapshotOf(r.state))
    ensures r.outbox == w.outbox + [StateUpdated(BroadcastOf(r.state))]
  {
    var s := Merge(w.state, c);
    w.(state := s, storage := Persist(w.storage, SnapshotOf(s)), outbox := w.outbox + [StateUpdated(BroadcastOf(s))])
  }

  /** `set_playlist_info` */
  function SetPlaylistEffect(w: World, playlistId: Option<string>, trackIds: seq<string>, fullTrackInfo: seq<TrackInfo>): World {
    w.(state := w.state.(currentTrackListIds := trackIds, currentFullTrackListInfo := fullTrackInfo,
                         currentPlaylistId := playlistId))
  }

  /** Whether `playTrack` returns before its `try`: no playlist even after
      the fallback, no token, or no truthy id at `index`. */
  predicate Abandons(s: PlaybackState, st: Storage, index: int, playlistId: Option<string>) {
    var p := Prepared(s, st, playlistId);
    p.None? || Token(st).None? || TrackIdAt(p.value.currentTrackListIds, index).None?
  }

  /** The URL lookup of a `playTrack` that does not give up. */
  function Lookup(s: PlaybackState, st: Storage, index: int, playlistId: Option<string>,
                  cat: TrackUrl.Catalog): Result<string, TrackUrl.UrlError>
    requires !Abandons(s, st, index, playlistId)
  {
    TrackUrl.FetchTrackUrl(cat, Token(st).value, Prepared(s, st, playlistId).value.currentTrackListIds[index])
  }

  /** `playTrack(index, playlistId)`. On success the merge writes the key
      `playlistId`, which is not `currentPlaylistId`: the broadcast and the
      snapshot keep the playlist id that was already current. */
  function PlayEffect(w: World, index: int, playlistId: Option<string>, cat: TrackUrl.Catalog): World
  {
    if Abandons(w.state, w.storage, index, playlistId) then
      w.(state := Prepared(w.state, w.storage, playlistId).GetOr(w.state))
    else
      var s1 := Prepared(w.state, w.storage, playlistId).value;
      var w1 := w.(state := s1);
      match Lookup(w.state, w.storage, index, playlistId, cat)
      case Ok(url) =>
        Notify(Send(EnsureOffscreenIn(w1), ToOffscreen(PlayUrl(url))),
               Changes(Some(index), Some(true), Or(playlistId, s1.currentPlaylistId)))
      case Err(_) => Notify(w1, Changes(None, Some(false), None))
  }

  lemma PlayAbandons(w: World, index: int, playlistId: Option<string>, cat: TrackUrl.Catalog)
    requires Abandons(w.state, w.storage, index, playlistId)
    ensures PlayEffect(w, index, playlistId, cat) == w.(state := Prepared(w.state, w.storage, playlistId).GetOr(w.state))
  {
  }

  lemma PlayStarts(w: World, index: int, playlistId: Option<string>, cat: TrackUrl.Catalog, url: string)
    requires !Abandons(w.state, w.storage, index, playlistId)
    requires Lookup(w.state, w.storage, index, playlistId, cat) == Ok(url)
    ensures var s1 := Prepared(w.state, w.storage, playlistId).value;
            PlayEffect(w, index, playlistId, cat) ==
              Notify(Send(EnsureOffscreenIn(w.(state := s1)), ToOffscreen(PlayUrl(url))),
                     Changes(Some(index), Some(true), Or(playlistId, s1.currentPlaylistId)))
  {
  }

  lemma PlayFails(w: World, index: int, playlistId: Option<string>, cat: TrackUrl.Catalog)
    requires !Abandons(w.state, w.storage, index, playlistId)
    requires Lookup(w.state, w.storage, index, playlistId, cat).Err?
    ensures PlayEffect(w, index, playlistId, cat) ==
              Notify(w.(state := Prepared(w.state, w.storage, playlistId).value), Changes(None, Some(false), None))
  {
  }

  /** The outcomes of `playTrack`: giving up writes nothing but what the
      fallback recovered; otherwise the snapshot and the last broadcast are
      of the merged state, which is playing at `index` on success and merely
      stopped on failure. */
  lemma PlayOutcomes(w: World, index: int, playlistId: Option<string>, cat: TrackUrl.Catalog)
    ensures var r := PlayEffect(w, index, playlistId, cat);
            (Abandons(w.state, w.storage, index, playlistId) ==>
              r == w.(state := Prepared(w.state, w.storage, playlistId).GetOr(w.state))) &&
            (r.state.currentFullTrackListInfo == w.state.currentFullTrackListInfo) &&
            (r.state.currentTime == w.state.currentTime && r.state.duration == w.state.duration) &&
            (!Abandons(w.state, w.storage, index, playlistId) ==>
              var p := Prepared(w.state, w.storage, playlistId).value;
              r.state.currentTrackListIds == p.currentTrackListIds &&
              r.state.currentPlaylistId == p.currentPlaylistId &&
              r.storage == Persist(w.storage, SnapshotOf(r.state)) &&
              |r.outbox| > 0 && r.outbox[|r.outbox| - 1] == StateUpdated(BroadcastOf(r.state))) &&
            ((!Abandons(w.state, w.storage, index, playlistId) &&
              Lookup(w.state, w.storage, index, playlistId, cat).Ok?) ==>
              r.state.currentTrackIndex == index && r.state.isPlaying &&
              0 <= index < |r.state.currentTrackListIds| && r.state.currentTrackListIds[index] != [] &&
              r.outbox == w.outbox + [ToOffscreen(PlayUrl(Lookup(w.state, w.storage, index, playlistId, cat).value)),
                                      StateUpdated(BroadcastOf(r.state))] &&
              r.offscreen == Ensured(w.offscreen) &&
              r.state.playlistIdProperty == Or(playlistId, r.state.currentPlaylistId) &&
              Truthy(r.state.playlistIdProperty)) &&
            ((!Abandons(w.state, w.storage, index, playlistId) &&
              Lookup(w.state, w.storage, index, playlistId, cat).Err?) ==>
              !r.state.isPlaying && r.state.currentTrackIndex == w.state.currentTrackIndex &&
              r.state.playlistIdProperty == w.state.playlistIdProperty &&
              r.outbox == w.outbox + [StateUpdated(BroadcastOf(r.state))] && r.offscreen == w.offscreen) &&
            (!NeedsRecovery(w.state, playlistId) ==>
              r.state.currentTrackListIds == w.state.currentTrackListIds &&
              r.state.currentPlaylistId == w.state.currentPlaylistId)
  {
  }

  /** `nextTrack` (also `track_ended`) */
  function NextEffect(w: World, cat: TrackUrl.Catalog): World {
    var n := |w.state.currentTrackListIds|;
    if n == 0 then w
    else PlayEffect(w, NextIndex(w.state.currentTrackIndex, n), w.state.currentPlaylistId, cat)
  }

  /** `prevTrack` */
  function PrevEffect(w: World, cat: TrackUrl.Catalog): World {
    var n := |w.state.currentTrackListIds|;
    if n == 0 then w
    else PlayEffect(w, PrevIndex(w.state.currentTrackIndex, n), w.state.currentPlaylistId, cat)
  }

  /** `pause` */
  function PauseEffect(w: World): World {
    Notify(Send(EnsureOffscreenIn(w), ToOffscreen(PauseAudio)), Changes(None, Some(false), None))
  }

  /** `resume_or_play_current` */
  function ResumeEffect(w: World): World {
    if w.state.isPlaying then w
    else if |w.state.currentTrackListIds| > 0 then
      Notify(Send(EnsureOffscreenIn(w), ToOffscreen(ResumeAudio)), Changes(None, Some(true), None))
    else w
  }

  /** `set_volume` and `seek`: forwarded, no state change. */
  function ForwardEffect(w: World, command: AudioCommand): World {
    Send(EnsureOffscreenIn(w), ToOffscreen(command))
  }

  /** `update_progress`: transient fields only, forwarded, not persisted. */
  function ProgressEffect(w: World, currentTime: real, duration: real): World {
    Send(w.(state := w.state.(currentTime := currentTime, duration := duration)), ProgressForwarded(currentTime, duration))
  }

  /** `get_current_playback_state` */
  function GetStateEffect(w: World): World {
    var w1 := if w.offscreen.ready then Send(w, ToOffscreen(GetAudioInfo)) else w;
    Notify(w1, NoChanges)
  }

  /** The `playTrack` call made at start-up, if any: only when the snapshot
      says playback was on and it has tracks and a playlist id. */
  function RestartTarget(st: Storage): (r: Option<(int, string)>)
    ensures var snap := ReadSnapshot(st);
            r.Some? <==> snap.isPlaying && |snap.trackIds| > 0 && snap.playlistId.Some?
    ensures r.Some? ==> r.value == (ReadSnapshot(st).currentIndex, ReadSnapshot(st).playlistId.value)
  {
    var snap := ReadSnapshot(st);
    if snap.isPlaying && |snap.trackIds| > 0 && snap.playlistId.Some? then
      Some((snap.currentIndex, snap.playlistId.value))
    else None
  }

  /** `onInstalled`: reload the four durable fields, then resume. */
  function RestartEffect(w: World, cat: TrackUrl.Catalog): World {
    var snap := ReadSnapshot(w.storage);
    var w1 := w.(state := w.state.(currentTrackIndex := snap.currentIndex, isPlaying := snap.isPlaying,
                                   currentTrackListIds := snap.trackIds, currentPlaylistId := snap.playlistId));
    match RestartTarget(w.storage)
    case Some((i, p)) => PlayEffect(w1, i, Some(p), cat)
    case None => w1
  }

  // ---- properties of the handlers --------------------------------------------

  /** With an empty list next and previous do nothing at all; otherwise they
      play the wrapped neighbour of the current index of the same playlist. */
  lemma NextPrevTargets(w: World, cat: TrackUrl.Catalog)
    requires Consistent(w)
    ensures |w.state.currentTrackListIds| == 0 ==> NextEffect(w, cat) == w && PrevEffect(w, cat) == w
    ensures var n := |w.state.currentTrackListIds|;
            n > 0 ==>
              0 <= NextIndex(w.state.currentTrackIndex, n) < n &&
              0 <= PrevIndex(w.state.currentTrackIndex, n) < n &&
              NextEffect(w, cat) == PlayEffect(w, NextIndex(w.state.currentTrackIndex, n), w.state.currentPlaylistId, cat) &&
              PrevEffect(w, cat) == PlayEffect(w, PrevIndex(w.state.currentTrackIndex, n), w.state.currentPlaylistId, cat)
  {
    var n := |w.state.currentTrackListIds|;
    if n > 0 {
      WrapInRange(w.state.currentTrackIndex, n);
    }
  }

  /** A successful `playTrack` leaves a snapshot that reads back as the
      committed index, playing, and the prepared list and playlist id, and
      the offscreen document ready. */
  lemma StartPersists(w: World, index: int, playlistId: Option<string>, cat: TrackUrl.Catalog)
    requires Consistent(w)
    requires !Abandons(w.state, w.storage, index, playlistId)
    requires Lookup(w.state, w.storage, index, playlistId, cat).Ok?
    ensures var r := PlayEffect(w, index, playlistId, cat);
            var p := Prepared(w.state, w.storage, playlistId).value;
            ReadSnapshot(r.storage) == Snapshot(index, true, p.currentTrackListIds, p.currentPlaylistId) &&
            r.outbox[|r.outbox| - 1].update.playlistId == p.currentPlaylistId &&
            r.offscreen.ready
  {
    var r := PlayEffect(w, index, playlistId, cat);
    PlayOutcomes(w, index, playlistId, cat);
    PersistReadBack(w.storage, SnapshotOf(r.state));
  }

  /** With a playable list in memory, a failed URL lookup only turns playback off. */
  lemma FailOnlyStops(w: World, index: int, playlistId: Option<string>, cat: TrackUrl.Catalog)
    requires !NeedsRecovery(w.state, playlistId)
    requires !Abandons(w.state, w.storage, index, playlistId)
    requires Lookup(w.state, w.storage, index, playlistId, cat).Err?
    ensures PlayEffect(w, index, playlistId, cat).state == w.state.(isPlaying := false)
  {
    var r := PlayEffect(w, index, playlistId, cat);
    PlayOutcomes(w, index, playlistId, cat);
    assert Prepared(w.state, w.storage, playlistId) == Some(w.state);
    assert r.state == Merge(w.state, Changes(None, Some(false), None));
  }

  /** Asking for the state re-persists and re-broadcasts it unchanged. */
  lemma GetStateUnchanged(w: World)
    ensures var r := GetStateEffect(w);
            r.state == w.state && r.offscreen == w.offscreen &&
            r.storage == Persist(w.storage, SnapshotOf(w.state)) &&
            r.outbox[|r.outbox| - 1] == StateUpdated(BroadcastOf(w.state))
  {
    MergeNothing(w.state);
  }

  /** `set_playlist_info` followed by `get_current_playback_state` broadcasts
      exactly the supplied lists and id, and the index and flag from before. */
  lemma SetPlaylistThenQuery(w: World, playlistId: Option<string>, trackIds: seq<string>, fullTrackInfo: seq<TrackInfo>)
    ensures var r := GetStateEffect(SetPlaylistEffect(w, playlistId, trackIds, fullTrackInfo));
            var u := r.outbox[|r.outbox| - 1].update;
            u.trackList == trackIds && u.fullTrackInfo == fullTrackInfo && u.playlistId == playlistId &&
            u.currentIndex == w.state.currentTrackIndex && u.isPlaying == w.state.isPlaying
  {
    GetStateUnchanged(SetPlaylistEffect(w, playlistId, trackIds, fullTrackInfo));
  }

  /** Resuming while already playing is a pure no-op. */
  lemma ResumeWhilePlaying(w: World)
    requires w.state.isPlaying
    ensures ResumeEffect(w) == w
  {
  }

  /** `set_playlist_info` neither persists nor broadcasts: the stored
      snapshot still reads as before, so a restart before the next
      notification resumes the previous playlist. */
  lemma SetPlaylistSilent(w: World, playlistId: Option<string>, trackIds: seq<string>, fullTrackInfo: seq<TrackInfo>)
    ensures var r := SetPlaylistEffect(w, playlistId, trackIds, fullTrackInfo);
            ReadSnapshot(r.storage) == ReadSnapshot(w.storage) && RestartTarget(r.storage) == RestartTarget(w.storage) &&
            r.outbox == w.outbox && r.offscreen == w.offscreen &&
            r.state.currentTrackIndex == w.state.currentTrackIndex && r.state.isPlaying == w.state.isPlaying
  {
  }

  /** `pause` stops playback everywhere: the offscreen document is told to
      pause before the broadcast, and the stored snapshot no longer says
      playing, so start-up will not resume. */
  lemma PauseStops(w: World)
    requires Consistent(w)
    ensures var r := PauseEffect(w);
            r.state == w.state.(isPlaying := false) && r.offscreen.ready &&
            r.outbox == w.outbox + [ToOffscreen(PauseAudio), StateUpdated(BroadcastOf(r.state))] &&
            !ReadSnapshot(r.storage).isPlaying && RestartTarget(r.storage).None?
  {
    var r := PauseEffect(w);
    PersistReadBack(w.storage, SnapshotOf(r.state));
  }

  /** `resume_or_play_current` with tracks and playback off resumes the
      audio and records playing; without tracks it does nothing. */
  lemma ResumeStarts(w: World)
    requires Consistent(w)
    ensures |w.state.currentTrackListIds| == 0 ==> ResumeEffect(w) == w
    ensures var r := ResumeEffect(w);
            !w.state.isPlaying && |w.state.currentTrackListIds| > 0 ==>
              r.state == w.state.(isPlaying := true) && r.offscreen.ready &&
              r.outbox == w.outbox + [ToOffscreen(ResumeAudio), StateUpdated(BroadcastOf(r.state))] &&
              ReadSnapshot(r.storage).isPlaying
  {
    if !w.state.isPlaying && |w.state.currentTrackListIds| > 0 {
      var r := ResumeEffect(w);
      PersistReadBack(w.storage, SnapshotOf(r.state));
    }
  }

  /** `set_volume` and `seek` only reach the (then ready) offscreen document. */
  lemma ForwardKeepsState(w: World, command: AudioCommand)
    requires Consistent(w)
    ensures var r := ForwardEffect(w, command);
            r.state == w.state && r.storage == w.storage && r.offscreen.ready &&
            r.outbox == w.outbox + [ToOffscreen(command)]
  {
  }

  /** Progress is kept in memory only, and the next state query broadcasts it. */
  lemma ProgressTransient(w: World, currentTime: real, duration: real)
    ensures var r := ProgressEffect(w, currentTime, duration);
            r.storage == w.storage && SnapshotOf(r.state) == SnapshotOf(w.state) &&
            r.outbox == w.outbox + [ProgressForwarded(currentTime, duration)]
    ensures var q := GetStateEffect(ProgressEffect(w, currentTime, duration));
            var u := q.outbox[|q.outbox| - 1].update;
            u.currentTime == currentTime && u.duration == duration
  {
    GetStateUnchanged(ProgressEffect(w, currentTime, duration));
  }

  /** The start-up example: a snapshot at index 2, playing, three tracks,
      playlist "u:k" issues exactly `playTrack(2, "u:k")`. */
  lemma RestartExample(st: Storage)
    requires st == map[INDEX_KEY := IntV(2), PLAYING_KEY := BoolV(true),
                       TRACKS_KEY := IdsV(["a", "b", "c"]), PLAYLIST_KEY := StrV("u:k")]
    ensures RestartTarget(st) == Some((2, "u:k"))
  {
  }

  /** Start-up with nothing stored adopts the defaults and plays nothing. */
  lemma RestartFromEmpty(w: World, cat: TrackUrl.Catalog)
    requires w.storage == map[]
    ensures var r := RestartEffect(w, cat);
            r.state.currentTrackIndex == 0 && !r.state.isPlaying && r.state.currentTrackListIds == [] &&
            r.state.currentPlaylistId == None && r.outbox == w.outbox && r.storage == w.storage
  {
  }

  // ---- the handlers keep the world consistent -----------------------------------

  lemma NotifyConsistent(w: World, c: Changes)
    requires Consistent(w)
    requires c.currentTrackIndex.Some? ==> c.currentTrackIndex.value >= 0
    ensures Consistent(Notify(w, c))
  {
    PersistWellFormed(w.storage, SnapshotOf(Merge(w.state, c)));
  }

  lemma PlayConsistent(w: World, index: int, playlistId: Option<string>, cat: TrackUrl.Catalog)
    requires Consistent(w)
    ensures Consistent(PlayEffect(w, index, playlistId, cat))
  {
    if !Abandons(w.state, w.storage, index, playlistId) {
      var r := PlayEffect(w, index, playlistId, cat);
      PlayOutcomes(w, index, playlistId, cat);
      PersistWellFormed(w.storage, SnapshotOf(r.state));
    }
  }

  lemma RestartConsistent(w: World, cat: TrackUrl.Catalog)
    requires Consistent(w)
    ensures Consistent(RestartEffect(w, cat))
  {
    var snap := ReadSnapshot(w.storage);
    var w1 := w.(state := w.state.(currentTrackIndex := snap.currentIndex, isPlaying := snap.isPlaying,
                                   currentTrackListIds := snap.trackIds, currentPlaylistId := snap.playlistId));
    assert Consistent(w1);
    match RestartTarget(w.storage)
    case Some((i, p)) => PlayConsistent(w1, i, Some(p), cat);
    case None =>
  }
}
