/** The background service worker of background.js as an object: the
    module-level `currentPlaybackState`, the offscreen flags, the extension's
    local storage and the messages it has sent. Every handler is proved to
    perform the pure effect of the same name in playback.dfy and to keep the
    world consistent. */
module Coordinator {
  import opened Wrappers
  import opened Protocol
  import opened Playback
  import TrackUrl

  class Coordinator {
    var currentTrackIndex: int
    var isPlaying: bool
    var currentTrackListIds: seq<string>
    var currentFullTrackListInfo: seq<TrackInfo>
    var currentPlaylistId: Option<string>
    var currentTime: real
    var duration: real
    var playlistIdProperty: Option<string>

    var offscreenReady: bool
    var offscreenCreating: bool
    /** Whether the browser currently holds the offscreen document. */
    var offscreenDocument: bool
    /** Whether `chrome.offscreen` exists in this browser. */
    const offscreenApi: bool

    var storage: Storage
    var outbox: seq<Outbound>

    function State(): PlaybackState
      reads this
    {
      PlaybackState(currentTrackIndex, isPlaying, currentTrackListIds, currentFullTrackListInfo,
                    currentPlaylistId, currentTime, duration, playlistIdProperty)
    }

    function World(): World
      reads this
    {
      Playback.World(State(), Offscreen(offscreenApi, offscreenReady, offscreenCreating, offscreenDocument),
                     storage, outbox)
    }

    ghost predicate Valid()
      reads this
    {
      Consistent(World())
    }

    /** A fresh service worker over whatever storage and offscreen
        document survived from before. */
    constructor(api: bool, documentOpen: bool, stored: Storage)
      requires WellFormed(stored)
      ensures World() == Playback.World(Initial, Offscreen(api, false, false, documentOpen), stored, [])
      ensures Valid()
    {
      currentTrackIndex := 0;
      isPlaying := false;
      currentTrackListIds := [];
      currentFullTrackListInfo := [];
      currentPlaylistId := None;
      currentTime := 0.0;
      duration := 0.0;
      playlistIdProperty := None;
      offscreenReady := false;
      offscreenCreating := false;
      offscreenDocument := documentOpen;
      offscreenApi := api;
      storage := stored;
      outbox := [];
    }

    method EnsureOffscreen()
      modifies this
      ensures World() == EnsureOffscreenIn(old(World()))
    {
      if offscreenReady || offscreenCreating {
        return;
      }
      offscreenCreating := true;
      if offscreenApi {
        if !offscreenDocument {
          offscreenDocument := true;
        }
      }
      offscreenReady := true;
      offscreenCreating := false;
    }

    method UpdateAndNotifyPopup(changes: Changes)
      modifies this
      ensures World() == Notify(old(World()), changes)
    {
      if changes.currentTrackIndex.Some? {
        currentTrackIndex := changes.currentTrackIndex.value;
      }
      if changes.isPlaying.Some? {
        isPlaying := changes.isPlaying.value;
      }
      if changes.playlistId.Some? {
        playlistIdProperty := changes.playlistId;
      }
      storage := Persist(storage, Snapshot(currentTrackIndex, isPlaying, currentTrackListIds, currentPlaylistId));
      outbox := outbox + [StateUpdated(StateUpdate(currentTrackIndex, isPlaying, currentTrackListIds,
                                                   currentFullTrackListInfo, currentPlaylistId, currentTime, duration))];
    }

    /** The storage fallback at the top of `playTrack`: whether there is a
        playlist to go on with. */
    method PreparePlaylist(playlistId: Option<string>) returns (ready: bool)
      modifies this
      ensures ready == Prepared(old(State()), old(storage), playlistId).Some?
      ensures ready ==> World() == old(World()).(state := Prepared(old(State()), old(storage), playlistId).value)
      ensures !ready ==> World() == old(World())
    {
      ready := true;
      if |currentTrackListIds| == 0 || |currentFullTrackListInfo| == 0 || !Truthy(playlistId) || !Truthy(currentPlaylistId) {
        var snap := ReadSnapshot(storage);
        if |snap.trackIds| > 0 && snap.playlistId.Some? {
          currentTrackListIds := snap.trackIds;
          currentPlaylistId := snap.playlistId;
        } else {
          ready := false;
        }
      }
    }

    method PlayTrack(index: int, playlistId: Option<string>, cat: TrackUrl.Catalog)
      requires Valid()
      modifies this
      ensures World() == PlayEffect(old(World()), index, playlistId, cat)
      ensures Valid()
    {
      ghost var w0 := World();
      PlayConsistent(w0, index, playlistId, cat);
      var ready := PreparePlaylist(playlistId);
      if !ready {
        PlayAbandons(w0, index, playlistId, cat);
        return;
      }
      var token := Token(storage);
      if token.None? {
        PlayAbandons(w0, index, playlistId, cat);
        return;
      }
      var trackId := TrackIdAt(currentTrackListIds, index);
      if trackId.None? {
        PlayAbandons(w0, index, playlistId, cat);
        return;
      }
      var url := TrackUrl.FetchTrackUrl(cat, token.value, trackId.value);
      assert Lookup(w0.state, w0.storage, index, playlistId, cat) == url;
      if url.Ok? {
        PlayStarts(w0, index, playlistId, cat, url.value);
        EnsureOffscreen();
        outbox := outbox + [ToOffscreen(PlayUrl(url.value))];
        UpdateAndNotifyPopup(Changes(Some(index), Some(true), Or(playlistId, currentPlaylistId)));
      } else {
        PlayFails(w0, index, playlistId, cat);
        UpdateAndNotifyPopup(Changes(None, Some(false), None));
      }
    }

    /** `nextTrack`, also run on `track_ended`. */
    method NextTrack(cat: TrackUrl.Catalog)
      requires Valid()
      modifies this
      ensures World() == NextEffect(old(World()), cat)
      ensures Valid()
    {
      if |currentTrackListIds| == 0 {
        return;
      }
      var newIndex := JsRem(currentTrackIndex + 1, |currentTrackListIds|);
      PlayTrack(newIndex, currentPlaylistId, cat);
    }

    method PrevTrack(cat: TrackUrl.Catalog)
      requires Valid()
      modifies this
      ensures World() == PrevEffect(old(World()), cat)
      ensures Valid()
    {
      if |currentTrackListIds| == 0 {
        return;
      }
      var newIndex := JsRem(currentTrackIndex - 1 + |currentTrackListIds|, |currentTrackListIds|);
      PlayTrack(newIndex, currentPlaylistId, cat);
    }

    method OnSetPlaylistInfo(playlistId: Option<string>, trackIds: seq<string>, fullTrackInfo: seq<TrackInfo>)
      requires Valid()
      modifies this
      ensures World() == SetPlaylistEffect(old(World()), playlistId, trackIds, fullTrackInfo)
      ensures Valid()
    {
      currentTrackListIds := trackIds;
      currentFullTrackListInfo := fullTrackInfo;
      currentPlaylistId := playlistId;
    }

    method OnPause()
      requires Valid()
      modifies this
      ensures World() == PauseEffect(old(World()))
      ensures Valid()
    {
      EnsureOffscreen();
      outbox := outbox + [ToOffscreen(PauseAudio)];
      NotifyConsistent(World(), Changes(None, Some(false), None));
      UpdateAndNotifyPopup(Changes(None, Some(false), None));
    }

    method OnResumeOrPlayCurrent()
      requires Valid()
      modifies this
      ensures World() == ResumeEffect(old(World()))
      ensures Valid()
    {
      if isPlaying {
        return;
      }
      if |currentTrackListIds| > 0 {
        EnsureOffscreen();
        outbox := outbox + [ToOffscreen(ResumeAudio)];
        NotifyConsistent(World(), Changes(None, Some(true), None));
        UpdateAndNotifyPopup(Changes(None, Some(true), None));
      }
    }

    method OnSetVolume(value: real)
      requires Valid()
      modifies this
      ensures World() == ForwardEffect(old(World()), SetAudioVolume(value))
      ensures Valid()
    {
      EnsureOffscreen();
      outbox := outbox + [ToOffscreen(SetAudioVolume(value))];
    }

    method OnSeek(value: real)
      requires Valid()
      modifies this
      ensures World() == ForwardEffect(old(World()), SeekAudio(value))
      ensures Valid()
    {
      EnsureOffscreen();
      outbox := outbox + [ToOffscreen(SeekAudio(value))];
    }

    method OnUpdateProgress(time: real, total: real)
      requires Valid()
      modifies this
      ensures World() == ProgressEffect(old(World()), time, total)
      ensures Valid()
    {
      currentTime := time;
      duration := total;
      outbox := outbox + [ProgressForwarded(time, total)];
    }

    method OnGetCurrentPlaybackState()
      requires Valid()
      modifies this
      ensures World() == GetStateEffect(old(World()))
      ensures Valid()
    {
      if offscreenReady {
        outbox := outbox + [ToOffscreen(GetAudioInfo)];
      }
      NotifyConsistent(World(), NoChanges);
      UpdateAndNotifyPopup(NoChanges);
    }

    method OnInstalled(cat: TrackUrl.Catalog)
      requires Valid()
      modifies this
      ensures World() == RestartEffect(old(World()), cat)
      ensures Valid()
    {
      var snap := ReadSnapshot(storage);
      currentTrackIndex := snap.currentIndex;
      isPlaying := snap.isPlaying;
      currentTrackListIds := snap.trackIds;
      currentPlaylistId := snap.playlistId;
      if isPlaying && |currentTrackListIds| > 0 && Truthy(currentPlaylistId) {
        PlayTrack(currentTrackIndex, currentPlaylistId, cat);
      }
    }
  }
}
