/** Catalog lookups in background.js that are not network plumbing: the
    shape check `fetchPlaylist` applies to a playlist id before any request,
    and the search `fetchPlaylistOfTheDay` runs over the landing blocks.
    The requests are oracle inputs. */
module Catalog {
  import opened Wrappers
  import opened Text
  import TrackUrl

  datatype CatalogError =
    | MalformedPlaylistId   // 'Некорректный playlistId'
    | RequestFailed         // json(): network error or non-ok status
    | LegalBlock            // 'Unavailable For Legal Reasons'
    | NotFound              // 'Не найден «Плейлист дня» в landing blocks'

  /** The playlist id the extension passes around: `uid + ':' + kind`. */
  function PlaylistId(uid: string, kind: string): string {
    uid + ":" + kind
  }

  /** `playlistId.split(':')` followed by the `parts.length !== 2` check. */
  function ParsePlaylistId(id: string): (r: Result<(string, string), CatalogError>)
    ensures r.Ok? <==> Count(id, ':') == 1
    ensures r.Err? ==> r.error == MalformedPlaylistId
    ensures r.Ok? ==> PlaylistId(r.value.0, r.value.1) == id
    ensures r.Ok? ==> ':' !in r.value.0 && ':' !in r.value.1
  {
    var parts := Split(id, ':');
    JoinSplit(id, ':');
    if |parts| != 2 then Err(MalformedPlaylistId)
    else
      assert Join(parts, [':']) == parts[0] + [':'] + parts[1];
      Ok((parts[0], parts[1]))
  }

  /** An id built from a colon-free uid and kind parses back to them. */
  lemma PlaylistIdRoundTrip(uid: string, kind: string)
    requires ':' !in uid && ':' !in kind
    ensures ParsePlaylistId(PlaylistId(uid, kind)) == Ok((uid, kind))
  {
    assert PlaylistId(uid, kind) == uid + [':'] + kind;
    SplitPair(uid, kind, ':');
  }

  /** The first request `fetchPlaylist` makes, or the rejection before it. */
  function PlaylistRequestUrl(id: string): (r: Result<string, CatalogError>)
    ensures r.Ok? <==> Count(id, ':') == 1
    ensures r.Ok? ==> r.value == "https://api.music.yandex.net/users/" + ParsePlaylistId(id).value.0 +
                                 "/playlists/" + ParsePlaylistId(id).value.1 + "?rich-tracks=true"
  {
    match ParsePlaylistId(id)
    case Err(e) => Err(e)
    case Ok((uid, kind)) => Ok("https://api.music.yandex.net/users/" + uid + "/playlists/" + kind + "?rich-tracks=true")
  }

  // ---- landing blocks ------------------------------------------------------

  /** `data.playlist` of a landing entity; `cover` is `cover.uri`, absent when
      the cover object or its uri is missing. */
  datatype PlaylistRef = PlaylistRef(uid: string, kind: string, title: string, idForFrom: string, cover: Option<string>)

  /** A landing block or one of its entities: `type`, `data.playlist`,
      `data.playlistType` (`""` when absent) and `entities`. */
  datatype Block = Block(blockType: string, playlist: Option<PlaylistRef>, playlistType: string, entities: Option<seq<Block>>)

  /** The landing answer: `name`, `items`, `result.blocks`, `blocks`. */
  datatype Landing = Landing(name: string, items: Option<seq<Block>>, resultBlocks: Option<seq<Block>>, blocks: Option<seq<Block>>)

  const PERSONAL_ITEM := "personal_playlist_item"

  /** The block list both background.js and popup.js read: `items` if it is
      an array, else `result.blocks`, else `blocks`, else none. */
  function Blocks(lb: Landing): (r: seq<Block>)
    ensures lb.items.Some? ==> r == lb.items.value
    ensures lb.items.None? && lb.resultBlocks.Some? ==> r == lb.resultBlocks.value
    ensures lb.items.None? && lb.resultBlocks.None? ==> r == lb.blocks.GetOr([])
  {
    if lb.items.Some? then lb.items.value
    else if lb.resultBlocks.Some? then lb.resultBlocks.value
    else lb.blocks.GetOr([])
  }

  /** `isPlaylistOfDay` */
  predicate IsPlaylistOfDay(b: Block) {
    b.blockType == PERSONAL_ITEM && b.playlist.Some? &&
    (b.playlist.value.idForFrom == "playlist_of_the_day" ||
     b.playlist.value.title == "Плейлист дня" ||
     b.playlistType == "playlistOfTheDay")
  }

  /** The entities the search looks at for one block: the entities of any
      non-personal block that has them, otherwise the block itself. */
  function Expand(b: Block): seq<Block> {
    if b.blockType != PERSONAL_ITEM && b.entities.Some? then b.entities.value else [b]
  }

  /** A personal item is looked at itself, even when it has entities; a
      non-personal block only through its entities, and without entities it
      contributes nothing that qualifies. */
  lemma ExpandOutcome(b: Block)
    ensures b.blockType == PERSONAL_ITEM ==> Expand(b) == [b]
    ensures b.blockType != PERSONAL_ITEM ==> FirstOfDay(Expand(b)) == FirstOfDay(b.entities.GetOr([]))
  {
    if b.blockType != PERSONAL_ITEM && b.entities.None? {
      assert !IsPlaylistOfDay([b][0]);
    }
  }

  function Candidates(blocks: seq<Block>): seq<Block> {
    if blocks == [] then [] else Expand(blocks[0]) + Candidates(blocks[1..])
  }

  lemma {:induction false} CandidatesAppend(xs: seq<Block>, ys: seq<Block>)
    ensures Candidates(xs + ys) == Candidates(xs) + Candidates(ys)
  {
    if xs == [] {
      assert xs + ys == ys;
    } else {
      assert (xs + ys)[1..] == xs[1..] + ys;
      CandidatesAppend(xs[1..], ys);
    }
  }

  function DayId(b: Block): string
    requires b.playlist.Some?
  {
    PlaylistId(b.playlist.value.uid, b.playlist.value.kind)
  }

  /** The id of the first playlist of the day among `cs`. */
  function FirstOfDay(cs: seq<Block>): (r: Option<string>)
    ensures r.None? <==> forall k :: 0 <= k < |cs| ==> !IsPlaylistOfDay(cs[k])
  {
    if cs == [] then None
    else if IsPlaylistOfDay(cs[0]) then Some(DayId(cs[0]))
    else
      assert forall k :: 1 <= k < |cs| ==> cs[k] == cs[1..][k - 1];
      FirstOfDay(cs[1..])
  }

  /** The answer is the id of the first candidate that qualifies. */
  lemma {:induction false} FirstOfDayIsFirst(cs: seq<Block>, k: nat)
    requires k < |cs| && IsPlaylistOfDay(cs[k])
    requires forall j :: 0 <= j < k ==> !IsPlaylistOfDay(cs[j])
    ensures FirstOfDay(cs) == Some(DayId(cs[k]))
  {
    if k > 0 {
      assert forall j :: 0 <= j < k - 1 ==> cs[1..][j] == cs[j + 1];
      FirstOfDayIsFirst(cs[1..], k - 1);
    }
  }

  lemma {:induction false} FirstOfDayAppend(xs: seq<Block>, ys: seq<Block>)
    ensures FirstOfDay(xs + ys) == if FirstOfDay(xs).Some? then FirstOfDay(xs) else FirstOfDay(ys)
  {
    if xs == [] {
      assert xs + ys == ys;
    } else {
      assert (xs + ys)[0] == xs[0];
      assert (xs + ys)[1..] == xs[1..] + ys;
      FirstOfDayAppend(xs[1..], ys);
    }
  }

  /** After the blocks before `i` produced nothing, block `i` decides unless
      it too produces nothing. */
  lemma {:induction false} SearchStep(blocks: seq<Block>, i: nat)
    requires i < |blocks| && FirstOfDay(Candidates(blocks[..i])).None?
    ensures FirstOfDay(Candidates(blocks[..i + 1])) == FirstOfDay(Expand(blocks[i]))
    ensures FirstOfDay(Expand(blocks[i])).Some? ==> FirstOfDay(Candidates(blocks)) == FirstOfDay(Expand(blocks[i]))
  {
    var e := blocks[i];
    assert blocks[..i + 1] == blocks[..i] + [e];
    assert blocks == blocks[..i] + ([e] + blocks[i + 1..]);
    CandidatesAppend(blocks[..i], [e]);
    CandidatesAppend(blocks[..i], [e] + blocks[i + 1..]);
    assert Candidates([e]) == Expand(e) by {
      assert [e][1..] == [];
      assert Expand(e) + [] == Expand(e);
    }
    assert Candidates([e] + blocks[i + 1..]) == Expand(e) + Candidates(blocks[i + 1..]) by {
      assert ([e] + blocks[i + 1..])[1..] == blocks[i + 1..];
    }
    FirstOfDayAppend(Candidates(blocks[..i]), Candidates([e] + blocks[i + 1..]));
    FirstOfDayAppend(Candidates(blocks[..i]), Expand(e));
    FirstOfDayAppend(Expand(e), Candidates(blocks[i + 1..]));
  }

  /** Scanning entities one at a time. */
  lemma {:induction false} EntityStep(ents: seq<Block>, j: nat)
    requires j < |ents| && FirstOfDay(ents[..j]).None?
    ensures !IsPlaylistOfDay(ents[j]) ==> FirstOfDay(ents[..j + 1]).None?
    ensures IsPlaylistOfDay(ents[j]) ==> FirstOfDay(ents) == Some(DayId(ents[j]))
  {
    assert forall k :: 0 <= k < j ==> !IsPlaylistOfDay(ents[..j][k]);
    if IsPlaylistOfDay(ents[j]) {
      assert forall k :: 0 <= k < j ==> !IsPlaylistOfDay(ents[k]);
      FirstOfDayIsFirst(ents, j);
    } else {
      assert forall k :: 0 <= k < j + 1 ==> ents[..j + 1][k] == ents[k];
    }
  }

  /** The nested loops of `fetchPlaylistOfTheDay` with their early return:
      the answer is the first playlist of the day among the candidates. */
  method SearchPlaylistOfTheDay(blocks: seq<Block>) returns (found: Option<string>)
    ensures found == FirstOfDay(Candidates(blocks))
  {
    var i := 0;
    while i < |blocks|
      invariant 0 <= i <= |blocks|
      invariant FirstOfDay(Candidates(blocks[..i])).None?
    {
      var e := blocks[i];
      SearchStep(blocks, i);
      if e.blockType != PERSONAL_ITEM && e.entities.Some? {
        var ents := e.entities.value;
        var j := 0;
        while j < |ents|
          invariant 0 <= j <= |ents|
          invariant FirstOfDay(ents[..j]).None?
        {
          EntityStep(ents, j);
          if IsPlaylistOfDay(ents[j]) {
            found := Some(DayId(ents[j]));
            return;
          }
          j := j + 1;
        }
        assert ents[..|ents|] == ents;
      } else if IsPlaylistOfDay(e) {
        found := Some(DayId(e));
        return;
      }
      i := i + 1;
    }
    assert blocks[..|blocks|] == blocks;
    found := None;
  }

  /** `fetchPlaylistOfTheDay` after the landing request has answered. It is
      defined in background.js but never called there. */
  method FetchPlaylistOfTheDay(resp: TrackUrl.Response<Landing>) returns (r: Result<string, CatalogError>)
    ensures resp.NetworkError? || !resp.ok ==> r == Err(RequestFailed)
    ensures resp.Http? && resp.ok && resp.body.name == "Unavailable For Legal Reasons" ==> r == Err(LegalBlock)
    ensures resp.Http? && resp.ok && resp.body.name != "Unavailable For Legal Reasons" ==>
              r == match FirstOfDay(Candidates(Blocks(resp.body)))
                   case Some(id) => Ok(id)
                   case None => Err(NotFound)
  {
    if resp.NetworkError? || !resp.ok {
      return Err(RequestFailed);
    }
    var lb := resp.body;
    if lb.name == "Unavailable For Legal Reasons" {
      return Err(LegalBlock);
    }
    var found := SearchPlaylistOfTheDay(Blocks(lb));
    if found.Some? {
      r := Ok(found.value);
    } else {
      r := Err(NotFound);
    }
  }
}
