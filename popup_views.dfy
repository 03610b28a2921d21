/** The pure helpers of popup.js: the `m:ss` clock, the cover-URL rule and
    track-record mapping of `loadPlaylistAndPlay`, the saved-index rule, the
    choice of view after a state broadcast, the play/pause toggle decision
    and the playlist-button lists. */
module PopupViews {
  import opened Wrappers
  import opened Text
  import opened Protocol
  import Catalog
  import Playback

  // ---- the clock -------------------------------------------------------------

  predicate IsDigit(c: char) {
    '0' <= c <= '9'
  }

  predicate AllDigits(s: string) {
    forall i :: 0 <= i < |s| ==> IsDigit(s[i])
  }

  function Digit(d: nat): (c: char)
    requires d < 10
    ensures IsDigit(c)
  {
    ('0' as int + d) as char
  }

  function DigitValue(c: char): nat
    requires IsDigit(c)
  {
    c as int - '0' as int
  }

  /** `String(n)` for a natural number: its decimal digits, no leading zero. */
  function NatToString(n: nat): (r: string)
    ensures |r| > 0 && AllDigits(r)
    ensures n < 100 ==> |r| <= 2
    ensures n >= 10 ==> |r| >= 2
    ensures n < 10 ==> |r| == 1
    ensures n > 0 ==> r[0] != '0'
  {
    if n < 10 then [Digit(n)] else NatToString(n / 10) + [Digit(n % 10)]
  }

  /** The number a string of decimal digits denotes. */
  function DigitsValue(ds: string): nat
    requires AllDigits(ds)
  {
    if |ds| == 0 then 0 else DigitsValue(ds[..|ds| - 1]) * 10 + DigitValue(ds[|ds| - 1])
  }

  /** Reading the decimal digits of `n` gives `n` back. */
  lemma {:induction false} ReadDigits(n: nat)
    ensures DigitsValue(NatToString(n)) == n
  {
    if n >= 10 {
      var r := NatToString(n);
      assert r[..|r| - 1] == NatToString(n / 10);
      ReadDigits(n / 10);
    }
  }

  /** A leading zero does not change the value. */
  lemma {:induction false} LeadingZero(ds: string)
    requires AllDigits(ds)
    ensures AllDigits(['0'] + ds) && DigitsValue(['0'] + ds) == DigitsValue(ds)
  {
    if |ds| > 0 {
      var zs := ['0'] + ds;
      assert zs[..|zs| - 1] == ['0'] + ds[..|ds| - 1];
      LeadingZero(ds[..|ds| - 1]);
    }
  }

  /** `s.padStart(2, '0')` */
  function PadStart2(s: string): (r: string)
    ensures |s| >= 2 ==> r == s
    ensures |s| < 2 ==> |r| == 2 && r[2 - |s|..] == s && forall i :: 0 <= i < 2 - |s| ==> r[i] == '0'
  {
    if |s| >= 2 then s else if |s| == 1 then ['0'] + s else "00"
  }

  /** `fmt(s)` on whole, non-negative seconds: minutes, `:`, two-digit seconds. */
  function Fmt(s: nat): string {
    NatToString(s / 60) + ":" + PadStart2(NatToString(s % 60))
  }

  /** Reads an `m:ss` clock back into minutes and seconds. */
  function ReadClock(f: string): Option<(nat, nat)> {
    var parts := Split(f, ':');
    if |parts| == 2 && AllDigits(parts[0]) && AllDigits(parts[1]) && |parts[1]| == 2 then
      Some((DigitsValue(parts[0]), DigitsValue(parts[1])))
    else None
  }

  /** The clock shows the whole minutes and the remaining seconds, always
      with two second digits. */
  lemma FmtRoundTrip(s: nat)
    ensures ReadClock(Fmt(s)) == Some((s / 60, s % 60))
  {
    var m := NatToString(s / 60);
    var d := NatToString(s % 60);
    var t := PadStart2(d);
    ReadDigits(s / 60);
    ReadDigits(s % 60);
    if |d| == 1 {
      assert t == ['0'] + d;
      LeadingZero(d);
    }
    assert AllDigits(t);
    assert ':' !in m by {
      forall i | 0 <= i < |m| ensures m[i] != ':' {
        assert IsDigit(m[i]);
      }
    }
    assert ':' !in t by {
      forall i | 0 <= i < |t| ensures t[i] != ':' {
        assert IsDigit(t[i]);
      }
    }
    assert Fmt(s) == m + [':'] + t;
    SplitPair(m, t, ':');
  }

  lemma FmtExamples()
    ensures Fmt(75) == "1:15"
    ensures Fmt(5) == "0:05"
    ensures Fmt(600) == "10:00"
  {
    assert NatToString(15) == "15";
    assert NatToString(10) == "10";
  }

  // ---- tracks ------------------------------------------------------------------

  datatype Artist = Artist(name: string)

  datatype Album = Album(coverUri: Option<string>)

  /** A track as the playlist API returns it; `artists` and `albums` are
      empty when absent. */
  datatype Track = Track(id: string, title: string, artists: seq<Artist>, coverUri: Option<string>, albums: seq<Album>)

  /** A playlist entry either wraps its track under `track` or is the track. */
  datatype TrackEntry = Wrapped(track: Track) | Bare(track: Track)

  /** `t.cover?.uri || t.albums?.[0]?.coverUri || ''` */
  function RawCover(t: Track): string {
    var album := if |t.albums| > 0 then t.albums[0].coverUri else None;
    Or(t.coverUri, album).GetOr([])
  }

  /** `raw.replace(/\/?$/, …)` removes at most one trailing slash. */
  function StripTrailingSlash(raw: string): (r: string)
    ensures r == raw || r + "/" == raw
    ensures |raw| > 0 && raw[|raw| - 1] == '/' ==> r + "/" == raw
  {
    if |raw| > 0 && raw[|raw| - 1] == '/' then raw[..|raw| - 1] else raw
  }

  /** The cover expression of `loadPlaylistAndPlay`. */
  function CoverUrl(raw: string): (r: string)
    ensures raw == [] <==> r == []
    ensures raw != [] ==> "https://" <= r
  {
    if raw == [] then []
    else "https://" + (if Contains(raw, "%%") then ReplaceFirst(raw, "%%", "300x300")
                       else StripTrailingSlash(raw) + "/200x200")
  }

  /** A cover template gets its first `%%` filled with the large size. */
  lemma CoverFillsPlaceholder(a: string, b: string)
    requires forall j :: 0 <= j < |a| ==> !OccursAt(a + "%%" + b, "%%", j)
    ensures CoverUrl(a + "%%" + b) == "https://" + a + "300x300" + b
  {
    var raw := a + "%%" + b;
    assert OccursAt(raw, "%%", |a|);
    assert Contains(raw, "%%");
    ReplaceFirstAt(a, "%%", b, "300x300");
  }

  /** A plain cover path gets the small size appended, whether or not it
      already ends in a slash. */
  lemma CoverAppendsSize(x: string)
    requires x != [] && x[|x| - 1] != '/' && !Contains(x, "%%")
    ensures CoverUrl(x) == "https://" + x + "/200x200"
    ensures CoverUrl(x + "/") == CoverUrl(x)
  {
    var y := x + "/";
    assert IndexFrom(x, "%%", 0).None?;
    assert !Contains(y, "%%") by {
      forall j | 0 <= j <= |y| ensures !OccursAt(y, "%%", j) {
        if j + 2 <= |x| {
          assert y[j..j + 2] == x[j..j + 2];
          assert !OccursAt(x, "%%", j);
        } else if j + 2 == |y| {
          assert y[j..j + 2][1] == y[j + 1] == '/';
        }
      }
      if IndexFrom(y, "%%", 0).Some? {
        assert OccursAt(y, "%%", IndexFrom(y, "%%", 0).value);
      }
    }
    assert y[..|y| - 1] == x;
  }

  /** The record the popup keeps and sends for a track. */
  function ToTrackInfo(t: Track): TrackInfo {
    TrackInfo(t.id, t.title, Join(Names(t.artists), ", "), CoverUrl(RawCover(t)))
  }

  /** A track keeps its id and title; its cover comes from the track's own
      cover when that is truthy, else from the first album's, and is empty
      when neither is. */
  lemma TrackInfoOf(t: Track)
    ensures ToTrackInfo(t).id == t.id && ToTrackInfo(t).title == t.title
    ensures Truthy(t.coverUri) ==> ToTrackInfo(t).cover == CoverUrl(t.coverUri.value)
    ensures !Truthy(t.coverUri) && |t.albums| > 0 && Truthy(t.albums[0].coverUri) ==>
              ToTrackInfo(t).cover == CoverUrl(t.albums[0].coverUri.value)
    ensures ToTrackInfo(t).cover == [] <==>
              !Truthy(t.coverUri) && (|t.albums| == 0 || !Truthy(t.albums[0].coverUri))
  {
  }

  function Names(artists: seq<Artist>): (r: seq<string>)
    ensures |r| == |artists| && forall i :: 0 <= i < |r| ==> r[i] == artists[i].name
  {
    if |artists| == 0 then [] else [artists[0].name] + Names(artists[1..])
  }

  /** Two artists are shown as "A, B". */
  lemma ArtistsExample(t: Track, a: string, b: string)
    requires t.artists == [Artist(a), Artist(b)]
    ensures ToTrackInfo(t).artists == a + ", " + b
  {
    assert Names(t.artists) == [a, b];
    assert [a, b][1..] == [b];
    assert Join([a, b], ", ") == a + ", " + Join([b], ", ");
  }

  /** `(pl.tracks || []).map(…)` */
  function MapTracks(entries: seq<TrackEntry>): (r: seq<TrackInfo>)
    ensures |r| == |entries|
  {
    if |entries| == 0 then [] else [ToTrackInfo(entries[0].track)] + MapTracks(entries[1..])
  }

  /** Each record is the mapping of the entry at the same position. */
  lemma {:induction false} MapTracksElements(entries: seq<TrackEntry>)
    ensures forall i :: 0 <= i < |entries| ==> MapTracks(entries)[i] == ToTrackInfo(entries[i].track)
  {
    if |entries| > 0 {
      MapTracksElements(entries[1..]);
      assert forall i :: 1 <= i < |entries| ==> entries[i] == entries[1..][i - 1];
    }
  }

  /** `tracks.map(t => t.id)` */
  function TrackIds(infos: seq<TrackInfo>): (r: seq<string>)
    ensures |r| == |infos|
  {
    if |infos| == 0 then [] else [infos[0].id] + TrackIds(infos[1..])
  }

  lemma {:induction false} TrackIdsElements(infos: seq<TrackInfo>)
    ensures forall i :: 0 <= i < |infos| ==> TrackIds(infos)[i] == infos[i].id
  {
    if |infos| > 0 {
      TrackIdsElements(infos[1..]);
      assert forall i :: 1 <= i < |infos| ==> infos[i] == infos[1..][i - 1];
    }
  }

  /** The ids sent to the background are the ids of the playlist's tracks, in order. */
  lemma IdsOfMappedTracks(entries: seq<TrackEntry>)
    ensures var ids := TrackIds(MapTracks(entries));
            |ids| == |entries| && forall i :: 0 <= i < |entries| ==> ids[i] == entries[i].track.id
  {
    MapTracksElements(entries);
    TrackIdsElements(MapTracks(entries));
  }

  // ---- saved index, view, toggle -------------------------------------------------

  /** The saved-index rule: the value stored under the playlist's index key
      is used only when resuming and it is a number below the track count. */
  function RestoreIndex(isResuming: bool, saved: Option<Playback.Stored>, count: nat): (r: int)
    ensures !isResuming ==> r == 0
    ensures r != 0 ==> isResuming && saved == Some(Playback.IntV(r)) && r < count
    ensures isResuming && saved.Some? && saved.value.IntV? && saved.value.i < count ==> r == saved.value.i
  {
    if isResuming && saved.Some? && saved.value.IntV? && saved.value.i < count then saved.value.i else 0
  }

  /** The section the popup shows. */
  datatype View = Player | PlaylistSelection | Auth

  /** After a state broadcast: the player iff there is a playlist and tracks,
      else playlist selection with a token, else sign-in. */
  function ChooseView(playlistId: Option<string>, tracks: seq<TrackInfo>, token: Option<string>): (v: View)
    ensures v == Player <==> Truthy(playlistId) && |tracks| > 0
    ensures v == PlaylistSelection <==> !(Truthy(playlistId) && |tracks| > 0) && Truthy(token)
    ensures v == Auth <==> !(Truthy(playlistId) && |tracks| > 0) && !Truthy(token)
  {
    if Truthy(playlistId) && |tracks| > 0 then Player
    else if Truthy(token) then PlaylistSelection
    else Auth
  }

  /** The request the play/pause button sends, if any. */
  function ToggleRequest(playing: bool, trackCount: nat): (r: Option<Request>)
    ensures r == Some(Pause) <==> playing
    ensures r == Some(ResumeOrPlayCurrent) <==> !playing && trackCount > 0
    ensures r.None? <==> !playing && trackCount == 0
  {
    if playing then Some(Pause)
    else if trackCount > 0 then Some(ResumeOrPlayCurrent)
    else None
  }

  // ---- playlist buttons ------------------------------------------------------------

  const LIKED_ITEM := "liked_playlist_item"

  datatype PlaylistButton = PlaylistButton(title: string, id: string, cover: string)

  /** One button; a playlist without a cover makes `cover.uri` throw. */
  function ButtonOf(p: Catalog.PlaylistRef): (r: Option<PlaylistButton>)
    ensures r.Some? <==> p.cover.Some?
    ensures r.Some? ==> r.value.title == p.title && r.value.id == Catalog.PlaylistId(p.uid, p.kind)
    ensures r.Some? && !Contains(p.cover.value, "%%") ==> r.value.cover == p.cover.value
  {
    match p.cover
    case None => None
    case Some(uri) => Some(PlaylistButton(p.title, Catalog.PlaylistId(p.uid, p.kind), ReplaceFirst(uri, "%%", "200x200")))
  }

  /** A button's id is the playlist id that `fetchPlaylist` splits back
      into the same user and kind. */
  lemma ButtonIdParses(p: Catalog.PlaylistRef)
    requires p.cover.Some? && ':' !in p.uid && ':' !in p.kind
    ensures Catalog.ParsePlaylistId(ButtonOf(p).value.id) == Ok((p.uid, p.kind))
  {
    Catalog.PlaylistIdRoundTrip(p.uid, p.kind);
  }

  /** A button cover gets its first `%%` filled with the button size. */
  lemma ButtonCoverFilled(p: Catalog.PlaylistRef, a: string, b: string)
    requires p.cover == Some(a + "%%" + b)
    requires forall j :: 0 <= j < |a| ==> !OccursAt(a + "%%" + b, "%%", j)
    ensures ButtonOf(p).value.cover == a + "200x200" + b
  {
    ReplaceFirstAt(a, "%%", b, "200x200");
  }

  /** All buttons, or None when one cover is missing (the whole list fails). */
  function MapButtons(refs: seq<Catalog.PlaylistRef>): (r: Option<seq<PlaylistButton>>)
    ensures r.Some? <==> forall i :: 0 <= i < |refs| ==> refs[i].cover.Some?
    ensures r.Some? ==> |r.value| == |refs| && forall i :: 0 <= i < |refs| ==> Some(r.value[i]) == ButtonOf(refs[i])
  {
    if |refs| == 0 then Some([])
    else
      match (ButtonOf(refs[0]), MapButtons(refs[1..]))
      case (Some(b), Some(bs)) => Some([b] + bs)
      case _ => None
  }

  /** The personal filter: personal items that have a playlist with a uid. */
  predicate IsPersonal(b: Catalog.Block) {
    b.blockType == Catalog.PERSONAL_ITEM && b.playlist.Some? && b.playlist.value.uid != []
  }

  function PersonalRefs(blocks: seq<Catalog.Block>): (r: seq<Catalog.PlaylistRef>)
    ensures |r| <= |blocks|
    ensures forall i :: 0 <= i < |blocks| && IsPersonal(blocks[i]) ==> blocks[i].playlist.value in r
    ensures forall p :: p in r ==> exists i :: 0 <= i < |blocks| && IsPersonal(blocks[i]) && blocks[i].playlist.value == p
  {
    if |blocks| == 0 then []
    else
      var rest := PersonalRefs(blocks[1..]);
      assert forall i :: 1 <= i < |blocks| ==> blocks[i] == blocks[1..][i - 1];
      if IsPersonal(blocks[0]) then [blocks[0].playlist.value] + rest else rest
  }

  /** The personal filter works block by block and keeps the order: the refs
      of two lists concatenate, and one block gives its playlist or nothing. */
  lemma {:induction false} PersonalRefsAppend(xs: seq<Catalog.Block>, ys: seq<Catalog.Block>)
    ensures PersonalRefs(xs + ys) == PersonalRefs(xs) + PersonalRefs(ys)
  {
    if xs == [] {
      assert xs + ys == ys;
    } else {
      assert (xs + ys)[0] == xs[0];
      assert (xs + ys)[1..] == xs[1..] + ys;
      PersonalRefsAppend(xs[1..], ys);
    }
  }

  lemma PersonalRefsOne(b: Catalog.Block)
    ensures PersonalRefs([b]) == if IsPersonal(b) then [b.playlist.value] else []
  {
    assert [b][1..] == [];
  }

  lemma PersonalCovers(bs: seq<Catalog.Block>)
    ensures MapButtons(PersonalRefs(bs)).Some? <==>
              forall i :: 0 <= i < |bs| && IsPersonal(bs[i]) ==> bs[i].playlist.value.cover.Some?
  {
    var refs := PersonalRefs(bs);
    if forall i :: 0 <= i < |bs| && IsPersonal(bs[i]) ==> bs[i].playlist.value.cover.Some? {
      forall j | 0 <= j < |refs| ensures refs[j].cover.Some? {
        assert refs[j] in refs;
      }
    } else {
      var i :| 0 <= i < |bs| && IsPersonal(bs[i]) && bs[i].playlist.value.cover.None?;
      assert bs[i].playlist.value in refs;
    }
  }

  /** `fetchPersonalPlaylists` on the landing answer. */
  function PersonalButtons(lb: Catalog.Landing): (r: Option<seq<PlaylistButton>>)
    ensures var bs := Catalog.Blocks(lb);
            r.Some? <==> forall i :: 0 <= i < |bs| && IsPersonal(bs[i]) ==> bs[i].playlist.value.cover.Some?
  {
    PersonalCovers(Catalog.Blocks(lb));
    MapButtons(PersonalRefs(Catalog.Blocks(lb)))
  }

  /** The recommended filter keeps liked items; one without a playlist
      makes `i.data.playlist` throw, failing the whole list. */
  function RecommendedRefs(items: seq<Catalog.Block>): (r: Option<seq<Catalog.PlaylistRef>>)
    ensures r.Some? <==> forall i :: 0 <= i < |items| && items[i].blockType == LIKED_ITEM ==> items[i].playlist.Some?
    ensures r.Some? ==> |r.value| <= |items|
    ensures r.Some? ==> forall i :: 0 <= i < |items| && items[i].blockType == LIKED_ITEM ==> items[i].playlist.value in r.value
    ensures r.Some? ==> forall p :: p in r.value ==>
              exists i :: 0 <= i < |items| && items[i].blockType == LIKED_ITEM && items[i].playlist == Some(p)
  {
    if |items| == 0 then Some([])
    else
      var rest := RecommendedRefs(items[1..]);
      assert forall i :: 1 <= i < |items| ==> items[i] == items[1..][i - 1];
      if items[0].blockType != LIKED_ITEM then rest
      else if items[0].playlist.None? || rest.None? then None
      else Some([items[0].playlist.value] + rest.value)
  }

  /** The recommended filter is the same item by item: the refs of two lists
      concatenate, and the whole list fails as soon as one part does. */
  lemma {:induction false} RecommendedRefsAppend(xs: seq<Catalog.Block>, ys: seq<Catalog.Block>)
    ensures var a := RecommendedRefs(xs);
            var b := RecommendedRefs(ys);
            RecommendedRefs(xs + ys) == if a.Some? && b.Some? then Some(a.value + b.value) else None
  {
    if xs == [] {
      assert xs + ys == ys;
      assert [] + RecommendedRefs(ys).GetOr([]) == RecommendedRefs(ys).GetOr([]);
    } else {
      assert (xs + ys)[0] == xs[0];
      assert (xs + ys)[1..] == xs[1..] + ys;
      RecommendedRefsAppend(xs[1..], ys);
      var a, b := RecommendedRefs(xs[1..]), RecommendedRefs(ys);
      if xs[0].blockType == LIKED_ITEM && xs[0].playlist.Some? && a.Some? && b.Some? {
        assert [xs[0].playlist.value] + (a.value + b.value) == ([xs[0].playlist.value] + a.value) + b.value;
      }
    }
  }

  lemma RecommendedRefsOne(b: Catalog.Block)
    ensures RecommendedRefs([b]) ==
              if b.blockType != LIKED_ITEM then Some([])
              else if b.playlist.None? then None
              else Some([b.playlist.value])
  {
    assert [b][1..] == [];
    if b.playlist.Some? {
      assert [b.playlist.value] + [] == [b.playlist.value];
    }
  }

  lemma RecommendedCovers(its: seq<Catalog.Block>)
    ensures (RecommendedRefs(its).Some? && MapButtons(RecommendedRefs(its).value).Some?) <==>
              forall i :: 0 <= i < |its| && its[i].blockType == LIKED_ITEM ==>
                its[i].playlist.Some? && its[i].playlist.value.cover.Some?
  {
    var r := RecommendedRefs(its);
    if r.Some? {
      var refs := r.value;
      if forall i :: 0 <= i < |its| && its[i].blockType == LIKED_ITEM ==> its[i].playlist.value.cover.Some? {
        forall j | 0 <= j < |refs| ensures refs[j].cover.Some? {
          assert refs[j] in refs;
        }
      } else {
        var i :| 0 <= i < |its| && its[i].blockType == LIKED_ITEM && its[i].playlist.value.cover.None?;
        assert its[i].playlist.value in refs;
      }
    }
  }

  /** `fetchRecommendedPlaylists` on the answer's `items` (absent is empty). */
  function RecommendedButtons(items: Option<seq<Catalog.Block>>): (r: Option<seq<PlaylistButton>>)
    ensures var its := items.GetOr([]);
            r.Some? <==> forall i :: 0 <= i < |its| && its[i].blockType == LIKED_ITEM ==>
                          its[i].playlist.Some? && its[i].playlist.value.cover.Some?
  {
    RecommendedCovers(items.GetOr([]));
    match RecommendedRefs(items.GetOr([]))
    case None => None
    case Some(refs) => MapButtons(refs)
  }
}
