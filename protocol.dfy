/** The records and messages exchanged between the popup, the background
    service worker and the offscreen audio document. Times, durations,
    volumes and seek targets are JavaScript numbers that the core only
    carries along; they are `real` here and never computed with. */
module Protocol {
  import opened Wrappers

  /** JavaScript truthiness of an optional string: `null`, `undefined`
      and `''` are falsy. */
  predicate Truthy(s: Option<string>) {
    s.Some? && s.value != []
  }

  /** `a || b` on optional strings. */
  function Or(a: Option<string>, b: Option<string>): (r: Option<string>)
    ensures Truthy(a) ==> r == a
    ensures !Truthy(a) ==> r == b
  {
    if Truthy(a) then a else b
  }

  /** A track record as the popup builds it and the background keeps it
      in `currentFullTrackListInfo`. */
  datatype TrackInfo = TrackInfo(id: string, title: string, artists: string, cover: string)

  /** The full-state broadcast `playback_state_updated`: always all seven fields. */
  datatype StateUpdate = StateUpdate(
    currentIndex: int,
    isPlaying: bool,
    trackList: seq<string>,
    fullTrackInfo: seq<TrackInfo>,
    playlistId: Option<string>,
    currentTime: real,
    duration: real)

  /** Commands addressed to the offscreen document (`target: 'offscreen'`). */
  datatype AudioCommand =
    | PlayUrl(url: string)
    | PauseAudio
    | ResumeAudio
    | SetAudioVolume(value: real)
    | SeekAudio(value: real)
    | GetAudioInfo

  /** Everything the background sends with `chrome.runtime.sendMessage`. */
  datatype Outbound =
    | ToOffscreen(command: AudioCommand)
    | StateUpdated(update: StateUpdate)
    | ProgressForwarded(currentTime: real, duration: real)

  /** The requests the popup sends to the background. */
  datatype Request =
    | OpenOauth
    | SetPlaylistInfo(playlistId: Option<string>, trackIds: seq<string>, fullTrackInfo: seq<TrackInfo>)
    | PlayTrackByIndex(index: int, playlistId: Option<string>, trackId: string)
    | PrevTrack
    | NextTrack
    | Pause
    | ResumeOrPlayCurrent
    | SetVolume(value: real)
    | Seek(value: real)
    | GetCurrentPlaybackState
}
