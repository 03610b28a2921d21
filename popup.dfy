/** The popup's `state` object of popup.js and the handlers that change
    it, with the section on show, the error banner, the extension storage
    the popup reads and writes, and the requests it has sent to the
    background. */
module Popup {
  import opened Wrappers
  import opened Protocol
  import opened PopupViews
  import Playback

  const PLAYLIST_ID_KEY := "current-playlist-id"
  const IDX_PREFIX := "PLIDX-"
  const EMPTY_PLAYLIST := "Плейлист пуст"

  /** The tracks `loadPlaylistAndPlay` goes on with: the mapped records of
      the fetched playlist, or the message it shows instead. */
  function LoadTracks(fetched: Result<Option<seq<TrackEntry>>, string>): (r: Result<seq<TrackInfo>, string>)
    ensures fetched.Err? ==> r == Err(fetched.error)
    ensures fetched.Ok? && |fetched.value.GetOr([])| == 0 ==> r == Err(EMPTY_PLAYLIST)
    ensures fetched.Ok? && |fetched.value.GetOr([])| > 0 ==> r == Ok(MapTracks(fetched.value.value))
    ensures r.Ok? ==> |r.value| > 0
  {
    match fetched
    case Err(e) => Err(e)
    case Ok(entries) =>
      var infos := MapTracks(entries.GetOr([]));
      if |infos| == 0 then Err(EMPTY_PLAYLIST) else Ok(infos)
  }

  /** The value stored under the playlist's index key, if any. */
  function SavedIndex(st: Playback.Storage, id: string): (r: Option<Playback.Stored>)
    ensures r.Some? <==> IDX_PREFIX + id in st
    ensures r.Some? ==> r.value == st[IDX_PREFIX + id]
  {
    var key := IDX_PREFIX + id;
    if key in st then Some(st[key]) else None
  }

  class PopupState {
    var token: Option<string>
    var tracks: seq<TrackInfo>
    var index: int
    var playing: bool
    var duration: real
    var playlistId: Option<string>
    /** Absent until the first state broadcast arrives. */
    var trackList: Option<seq<string>>

    /** The section made visible last; None once an error has hidden the player. */
    var view: Option<View>
    var error: Option<string>
    var storage: Playback.Storage
    var outbox: seq<Request>

    constructor(stored: Playback.Storage)
      ensures token == None && tracks == [] && index == 0 && !playing && duration == 0.0
      ensures playlistId == None && trackList == None && view == None && error == None
      ensures storage == stored && outbox == []
    {
      token := None;
      tracks := [];
      index := 0;
      playing := false;
      duration := 0.0;
      playlistId := None;
      trackList := None;
      view := None;
      error := None;
      storage := stored;
      outbox := [];
    }

    /** The bootstrap: with a stored token, `init` hides the error banner
        (`ok`) and asks the background for its state; without one, `auth`
        shows the sign-in section. */
    method Bootstrap()
      modifies this
      ensures token == if Playback.Token(old(storage)).Some? then Playback.Token(old(storage)) else old(token)
      ensures Playback.Token(old(storage)).Some? ==> outbox == old(outbox) + [GetCurrentPlaybackState] && view == old(view)
      ensures Playback.Token(old(storage)).None? ==> outbox == old(outbox) && view == Some(Auth)
      ensures tracks == old(tracks) && index == old(index) && playing == old(playing)
      ensures playlistId == old(playlistId) && trackList == old(trackList) && duration == old(duration)
      ensures error == if Playback.Token(old(storage)).Some? then None else old(error)
      ensures storage == old(storage)
    {
      var t := Playback.Token(storage);
      if t.Some? {
        token := t;
        error := None;
        outbox := outbox + [GetCurrentPlaybackState];
      } else {
        view := Some(Auth);
      }
    }

    /** `token_updated` while signing in: keep the token and run `init`,
        which hides the error banner and asks for the state. */
    method OnTokenUpdated(t: string)
      modifies this
      ensures token == Some(t) && outbox == old(outbox) + [GetCurrentPlaybackState]
      ensures tracks == old(tracks) && index == old(index) && playing == old(playing)
      ensures playlistId == old(playlistId) && trackList == old(trackList) && duration == old(duration)
      ensures error == None
      ensures view == old(view) && storage == old(storage)
    {
      token := Some(t);
      error := None;
      outbox := outbox + [GetCurrentPlaybackState];
    }

    /** `err(m)`: show the message and hide the player. */
    method ShowError(m: string)
      modifies this
      ensures error == Some(m)
      ensures view == if old(view) == Some(Player) then None else old(view)
      ensures token == old(token) && tracks == old(tracks) && index == old(index) && playing == old(playing)
      ensures playlistId == old(playlistId) && trackList == old(trackList) && duration == old(duration)
      ensures storage == old(storage) && outbox == old(outbox)
    {
      error := Some(m);
      if view == Some(Player) {
        view := None;
      }
    }

    /** `showPlaylistSel`, which also forgets the shown tracks. */
    method ShowPlaylistSel()
      modifies this
      ensures view == Some(PlaylistSelection) && tracks == []
      ensures token == old(token) && index == old(index) && playing == old(playing)
      ensures playlistId == old(playlistId) && trackList == old(trackList) && duration == old(duration)
      ensures error == old(error) && storage == old(storage) && outbox == old(outbox)
    {
      view := Some(PlaylistSelection);
      tracks := [];
    }

    /** `play(i)`: the index moves even when there is no track there; only
        an existing track is requested and marked as playing. */
    method Play(i: int)
      modifies this
      ensures index == i
      ensures 0 <= i < |old(tracks)| ==>
                outbox == old(outbox) + [PlayTrackByIndex(i, old(playlistId), old(tracks)[i].id)] && playing
      ensures !(0 <= i < |old(tracks)|) ==> outbox == old(outbox) && playing == old(playing)
      ensures token == old(token) && tracks == old(tracks) && playlistId == old(playlistId)
      ensures trackList == old(trackList) && duration == old(duration) && view == old(view)
      ensures error == old(error) && storage == old(storage)
    {
      index := i;
      if !(0 <= i < |tracks|) {
        return;
      }
      outbox := outbox + [PlayTrackByIndex(i, playlistId, tracks[i].id)];
      playing := true;
    }

    /** `toggle`: asks the background and waits for its broadcast; the
        popup's own state does not change. */
    method Toggle()
      modifies this
      ensures match ToggleRequest(playing, |tracks|)
              case Some(req) => outbox == old(outbox) + [req]
              case None => outbox == old(outbox)
      ensures token == old(token) && tracks == old(tracks) && index == old(index) && playing == old(playing)
      ensures playlistId == old(playlistId) && trackList == old(trackList) && duration == old(duration)
      ensures view == old(view) && error == old(error) && storage == old(storage)
    {
      if playing {
        outbox := outbox + [Pause];
      } else if |tracks| > 0 {
        outbox := outbox + [ResumeOrPlayCurrent];
      }
    }

    /** `update_progress` keeps only the duration (for seeking). */
    method OnUpdateProgress(currentTime: real, total: real)
      modifies this
      ensures duration == total
      ensures token == old(token) && tracks == old(tracks) && index == old(index) && playing == old(playing)
      ensures playlistId == old(playlistId) && trackList == old(trackList) && view == old(view)
      ensures error == old(error) && storage == old(storage) && outbox == old(outbox)
    {
      duration := total;
    }

    /** `playback_state_updated`: adopt the background's state, then show
        the section `ChooseView` picks; playlist selection clears the tracks. */
    method OnPlaybackStateUpdated(u: StateUpdate)
      modifies this
      ensures view == Some(ChooseView(u.playlistId, u.fullTrackInfo, old(token)))
      ensures index == u.currentIndex && playing == u.isPlaying && trackList == Some(u.trackList)
      ensures playlistId == u.playlistId
      ensures tracks == if view == Some(PlaylistSelection) then [] else u.fullTrackInfo
      ensures duration == if view == Some(Player) then u.duration else old(duration)
      ensures token == old(token) && error == old(error) && storage == old(storage) && outbox == old(outbox)
    {
      index := u.currentIndex;
      playing := u.isPlaying;
      trackList := Some(u.trackList);
      playlistId := u.playlistId;
      tracks := u.fullTrackInfo;
      if Truthy(playlistId) && |tracks| > 0 {
        view := Some(Player);
        duration := u.duration;
      } else if Truthy(token) {
        ShowPlaylistSel();
      } else {
        view := Some(Auth);
      }
    }

    /** `loadPlaylistAndPlay(id, isResuming)` given the outcome of
        `fetchPlaylist`. A failure, or a playlist without tracks, only shows
        an error; otherwise the tracks are kept and announced to the
        background, the id is remembered, and the player is shown stopped
        at the restored index. */
    method LoadPlaylistAndPlay(id: string, fetched: Result<Option<seq<TrackEntry>>, string>, isResuming: bool)
      modifies this
      ensures LoadTracks(fetched).Err? ==>
                error == Some(LoadTracks(fetched).error) &&
                view == (if old(view) == Some(Player) then None else old(view)) &&
                tracks == old(tracks) && index == old(index) && playing == old(playing) &&
                playlistId == old(playlistId) && storage == old(storage) && outbox == old(outbox)
      ensures LoadTracks(fetched).Ok? ==>
                tracks == LoadTracks(fetched).value && playlistId == Some(id) &&
                !playing && view == Some(Player) && error == old(error)
      ensures LoadTracks(fetched).Ok? ==>
                outbox == old(outbox) + [SetPlaylistInfo(Some(id), TrackIds(tracks), tracks)]
      ensures LoadTracks(fetched).Ok? ==>
                storage == old(storage)[PLAYLIST_ID_KEY := Playback.StrV(id)]
      ensures LoadTracks(fetched).Ok? ==>
                index == RestoreIndex(isResuming, SavedIndex(old(storage), id), |tracks|)
      ensures token == old(token) && trackList == old(trackList) && duration == old(duration)
    {
      var loaded := LoadTracks(fetched);
      if loaded.Err? {
        ShowError(loaded.error);
      } else {
        var infos := loaded.value;
        tracks := infos;
        playlistId := Some(id);
        outbox := outbox + [SetPlaylistInfo(Some(id), TrackIds(infos), infos)];
        ghost var before := storage;
        storage := storage[PLAYLIST_ID_KEY := Playback.StrV(id)];
        assert (IDX_PREFIX + id)[0] != PLAYLIST_ID_KEY[0];
        assert SavedIndex(storage, id) == SavedIndex(before, id);
        index := RestoreIndex(isResuming, SavedIndex(storage, id), |infos|);
        playing := false;
        view := Some(Player);
      }
    }
  }
}
