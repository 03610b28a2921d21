/** Resolving a track id to a playable URL (`fetchTrackUrl` and
    `resolveDownloadInfo` in background.js, and the popup's copy of
    `resolveDownloadInfo`). The two HTTP requests are oracle parameters;
    everything done with their answers is modelled. */
module TrackUrl {
  import opened Wrappers

  /** The outcome of a `fetch`: a rejected promise, or a response with its
      `ok` flag and its (already decoded) body. */
  datatype Response<T> = NetworkError | Http(ok: bool, body: T)

  /** One entry of `download-info`'s `result`; an absent URL is `""`. */
  datatype Encoding = Encoding(codec: string, bitrateInKbps: int, directUrl: string, downloadInfoUrl: string)

  /** The catalog as seen from the coordinator: the `download-info` answer
      for a (token, track id) pair, whose `result` may be missing, and the
      text served at a descriptor URL. */
  datatype Catalog = Catalog(
    downloadInfo: (string, string) -> Response<Option<seq<Encoding>>>,
    fetchText: string -> Response<string>)

  datatype UrlError =
    | RequestFailed        // network error or a non-ok status
    | DownloadInfoEmpty    // 'download-info пуст'
    | NoTrackLink          // 'Не удалось извлечь ссылку трека'
    | DescriptorIncomplete // 'XML download info неполный'

  predicate Preferred(e: Encoding) {
    e.codec == "mp3" && e.bitrateInKbps == 192
  }

  /** `result.find(mp3 at 192)`, as an index. */
  function FirstPreferred(es: seq<Encoding>): (r: Option<nat>)
    ensures r.Some? ==> r.value < |es| && Preferred(es[r.value])
    ensures r.Some? ==> forall j :: 0 <= j < r.value ==> !Preferred(es[j])
    ensures r.None? ==> forall j :: 0 <= j < |es| ==> !Preferred(es[j])
  {
    if es == [] then None
    else if Preferred(es[0]) then Some(0)
    else match FirstPreferred(es[1..])
      case None => None
      case Some(k) => Some(k + 1)
  }

  /** The encoding `fetchTrackUrl` picks: the first mp3 at 192 kbps, else the first one. */
  function ChooseEncoding(es: seq<Encoding>): (r: Encoding)
    requires |es| > 0
    ensures r in es
    ensures (forall j :: 0 <= j < |es| ==> !Preferred(es[j])) ==> r == es[0]
    ensures (exists j :: 0 <= j < |es| && Preferred(es[j])) ==>
              exists k :: 0 <= k < |es| && r == es[k] && Preferred(r) &&
                          forall j :: 0 <= j < k ==> !Preferred(es[j])
  {
    match FirstPreferred(es)
    case Some(k) => es[k]
    case None => es[0]
  }

  lemma ChooseEncodingExamples()
    ensures var aac := Encoding("aac", 128, "a", "");
            var mp3 := Encoding("mp3", 192, "b", "");
            var low := Encoding("mp3", 128, "c", "");
            ChooseEncoding([aac, mp3, low]) == mp3 && ChooseEncoding([aac]) == aac
  {
    var aac := Encoding("aac", 128, "a", "");
    var mp3 := Encoding("mp3", 192, "b", "");
    var low := Encoding("mp3", 128, "c", "");
    assert !Preferred(aac) && Preferred(mp3);
    assert [aac, mp3, low][1..] == [mp3, low];
  }

  // ---- the XML descriptor ------------------------------------------------

  function Open(tag: string): string { "<" + tag + ">" }
  function Close(tag: string): string { "</" + tag + ">" }
  function Element(tag: string, v: string): string { Open(tag) + v + Close(tag) }

  /** Length of the longest prefix of `s` without `<` (what `[^<]+` can eat). */
  function TextRun(s: string): (n: nat)
    ensures n <= |s|
    ensures forall k :: 0 <= k < n ==> s[k] != '<'
    ensures n < |s| ==> s[n] == '<'
  {
    if s == [] || s[0] == '<' then 0 else 1 + TextRun(s[1..])
  }

  /** `a + b + c` is a prefix of `s` when `s` starts with `a`, continues
      with `b`, and `c` starts what follows. */
  lemma PrefixOfParts(s: string, a: string, b: string, c: string)
    requires a <= s && b <= s[|a|..] && c <= s[|a| + |b|..]
    ensures a + b + c <= s
  {
    var t := a + b + c;
    forall k | 0 <= k < |t| ensures t[k] == s[k] {
      if k < |a| {
      } else if k < |a| + |b| {
        assert t[k] == b[k - |a|] == s[|a|..][k - |a|];
      } else {
        assert t[k] == c[k - |a| - |b|] == s[|a| + |b|..][k - |a| - |b|];
      }
    }
  }

  /** The regular expression `<tag>([^<]+)</tag>` anchored at the start of `s`.
      `[^<]+` must stop right before the `<` of the closing tag, so the only
      candidate is the longest `<`-free run. */
  function MatchAt(s: string, tag: string): (r: Option<string>)
    ensures r.Some? ==> |r.value| > 0 && '<' !in r.value && Element(tag, r.value) <= s
  {
    var open := Open(tag);
    if open <= s then
      var rest := s[|open|..];
      var n := TextRun(rest);
      if n > 0 && Close(tag) <= rest[n..] then
        assert forall k :: 0 <= k < n ==> rest[..n][k] != '<';
        PrefixOfParts(s, open, rest[..n], Close(tag));
        Some(rest[..n])
      else None
    else None
  }

  /** `(xml.match(/<tag>([^<]+)<\/tag>/) || [])[1]`: the leftmost match's group. */
  function ExtractTag(s: string, tag: string): (r: Option<string>)
    decreases |s|
    ensures r.Some? ==> |r.value| > 0 && '<' !in r.value
    ensures r.Some? ==> exists i :: 0 <= i <= |s| && Element(tag, r.value) <= s[i..]
  {
    var m := MatchAt(s, tag);
    if m.Some? then
      assert s[0..] == s;
      m
    else if s == [] then None
    else
      var r := ExtractTag(s[1..], tag);
      if r.Some? then
        var i :| 0 <= i <= |s[1..]| && Element(tag, r.value) <= s[1..][i..];
        assert s[1..][i..] == s[i + 1..];
        r
      else r
  }

  /** The template of background.js:354 (and popup.js:273). */
  function MediaUrl(host: string, path: string, ts: string, s: string): string {
    "https://" + host + "/get-mp3/" + s + "/" + ts + path
  }

  /** The XML half of `resolveDownloadInfo`: all four fields or an error. */
  function ResolveDescriptor(xml: string): (r: Result<string, UrlError>)
    ensures r.Err? <==> (ExtractTag(xml, "host").None? || ExtractTag(xml, "path").None? ||
                         ExtractTag(xml, "ts").None? || ExtractTag(xml, "s").None?)
    ensures r.Err? ==> r.error == DescriptorIncomplete
    ensures r.Ok? ==> r.value == MediaUrl(ExtractTag(xml, "host").value, ExtractTag(xml, "path").value,
                                          ExtractTag(xml, "ts").value, ExtractTag(xml, "s").value)
  {
    var host := ExtractTag(xml, "host");
    var path := ExtractTag(xml, "path");
    var ts := ExtractTag(xml, "ts");
    var s := ExtractTag(xml, "s");
    if host.None? || path.None? || ts.None? || s.None? then Err(DescriptorIncomplete)
    else Ok(MediaUrl(host.value, path.value, ts.value, s.value))
  }

  /** background.js `resolveDownloadInfo`: a failed or non-ok fetch is an error. */
  function ResolveDownloadInfo(resp: Response<string>): (r: Result<string, UrlError>)
    ensures resp.NetworkError? || !resp.ok ==> r == Err(RequestFailed)
    ensures resp.Http? && resp.ok ==> r == ResolveDescriptor(resp.body)
  {
    match resp
    case NetworkError => Err(RequestFailed)
    case Http(ok, xml) => if !ok then Err(RequestFailed) else ResolveDescriptor(xml)
  }

  /** popup.js `resolveDownloadInfo`: it reads the body without looking at
      the status, so it agrees with background.js only on ok responses. */
  function PopupResolveDownloadInfo(resp: Response<string>): (r: Result<string, UrlError>)
    ensures resp.Http? && resp.ok ==> r == ResolveDownloadInfo(resp)
    ensures resp.Http? ==> r == ResolveDescriptor(resp.body)
    ensures resp.NetworkError? ==> r == Err(RequestFailed)
  {
    match resp
    case NetworkError => Err(RequestFailed)
    case Http(_, xml) => ResolveDescriptor(xml)
  }

  /** background.js `fetchTrackUrl`. */
  function FetchTrackUrl(cat: Catalog, token: string, trackId: string): (r: Result<string, UrlError>)
    ensures match cat.downloadInfo(token, trackId)
            case Http(true, Some(es)) =>
              |es| == 0 ==> r == Err(DownloadInfoEmpty)
            case _ => r.Err?
  {
    match cat.downloadInfo(token, trackId)
    case NetworkError => Err(RequestFailed)
    case Http(ok, info) =>
      if !ok then Err(RequestFailed)
      else if info.None? || |info.value| == 0 then Err(DownloadInfoEmpty)
      else
        var best := ChooseEncoding(info.value);
        if best.directUrl != [] then Ok(best.directUrl)
        else if best.downloadInfoUrl != [] then ResolveDownloadInfo(cat.fetchText(best.downloadInfoUrl))
        else Err(NoTrackLink)
  }

  /** A direct URL on the chosen encoding wins; the descriptor is never fetched. */
  lemma DirectUrlPreferred(cat: Catalog, token: string, trackId: string, es: seq<Encoding>)
    requires cat.downloadInfo(token, trackId) == Http(true, Some(es)) && |es| > 0
    requires ChooseEncoding(es).directUrl != []
    ensures FetchTrackUrl(cat, token, trackId) == Ok(ChooseEncoding(es).directUrl)
  {
  }

  /** Without a direct URL the chosen encoding's descriptor decides, and an
      encoding with neither is an error. */
  lemma DescriptorFallback(cat: Catalog, token: string, trackId: string, es: seq<Encoding>)
    requires cat.downloadInfo(token, trackId) == Http(true, Some(es)) && |es| > 0
    requires ChooseEncoding(es).directUrl == []
    ensures var best := ChooseEncoding(es);
            FetchTrackUrl(cat, token, trackId) ==
              if best.downloadInfoUrl == [] then Err(NoTrackLink)
              else ResolveDownloadInfo(cat.fetchText(best.downloadInfoUrl))
  {
  }

  // ---- round trip over a well-formed descriptor ----------------------------

  /** Every `<` in `a` is followed, inside `a`, by a character other than `c`:
      no opening tag whose name starts with `c` can begin in `a`. */
  ghost predicate Skippable(a: string, c: char) {
    forall p :: 0 <= p < |a| && a[p] == '<' ==> p + 1 < |a| && a[p + 1] != c
  }

  lemma SkippableConcat(a: string, b: string, c: char)
    requires Skippable(a, c) && Skippable(b, c)
    ensures Skippable(a + b, c)
  {
    var ab := a + b;
    forall p | 0 <= p < |ab| && ab[p] == '<'
      ensures p + 1 < |ab| && ab[p + 1] != c
    {
      if p < |a| {
        assert a[p] == '<';
        assert ab[p + 1] == a[p + 1];
      } else {
        assert b[p - |a|] == '<';
      }
    }
  }

  lemma SkippableOpen(name: string, c: char)
    requires |name| > 0 && name[0] != c && '<' !in name
    ensures Skippable(Open(name), c)
  {
    var o := Open(name);
    assert o == ['<'] + name + ['>'];
    assert forall p :: 1 <= p <= |name| ==> o[p] == name[p - 1];
    assert o[|o| - 1] == '>';
    assert o[1] == name[0];
  }

  lemma SkippableClose(name: string, c: char)
    requires c != '/' && '<' !in name
    ensures Skippable(Close(name), c)
  {
    var o := Close(name);
    assert o == ['<', '/'] + name + ['>'];
    assert forall p :: 2 <= p < |name| + 2 ==> o[p] == name[p - 2];
    assert o[|o| - 1] == '>';
    assert o[1] == '/';
  }

  lemma SkippableElement(name: string, v: string, c: char)
    requires |name| > 0 && name[0] != c && c != '/' && '<' !in name && '<' !in v
    ensures Skippable(Element(name, v), c)
  {
    SkippableOpen(name, c);
    SkippableClose(name, c);
    assert Skippable(v, c);
    SkippableConcat(Open(name), v, c);
    SkippableConcat(Open(name) + v, Close(name), c);
  }

  /** The leftmost-match search passes over a skippable prefix. */
  lemma {:induction false} ExtractSkips(pre: string, rest: string, tag: string)
    requires |tag| > 0 && Skippable(pre, tag[0])
    ensures ExtractTag(pre + rest, tag) == ExtractTag(rest, tag)
    decreases |pre|
  {
    if pre == [] {
      assert pre + rest == rest;
    } else {
      var s := pre + rest;
      var m := MatchAt(s, tag);
      assert Open(tag)[0] == '<' && Open(tag)[1] == tag[0];
      assert s[0] == pre[0];
      assert pre[0] == '<' ==> |pre| > 1 && s[1] == pre[1] && pre[1] != tag[0];
      assert m.None?;
      assert s[1..] == pre[1..] + rest;
      assert Skippable(pre[1..], tag[0]) by {
        forall p | 0 <= p < |pre[1..]| && pre[1..][p] == '<'
          ensures p + 1 < |pre[1..]| && pre[1..][p + 1] != tag[0]
        {
          assert pre[p + 1] == '<';
        }
      }
      ExtractSkips(pre[1..], rest, tag);
    }
  }

  lemma {:induction false} TextRunOver(v: string, t: string)
    requires '<' !in v && (t == [] || t[0] == '<')
    ensures TextRun(v + t) == |v|
  {
    if v != [] {
      assert (v + t)[1..] == v[1..] + t;
      assert '<' !in v[1..];
      TextRunOver(v[1..], t);
    } else {
      assert v + t == t;
    }
  }

  /** An element at the very start is matched with its text. */
  lemma MatchElement(tag: string, v: string, rest: string)
    requires |v| > 0 && '<' !in v
    ensures MatchAt(Element(tag, v) + rest, tag) == Some(v)
  {
    var s := Element(tag, v) + rest;
    var open := Open(tag);
    assert s == open + (v + Close(tag) + rest);
    assert open <= s;
    var r := s[|open|..];
    assert r == v + (Close(tag) + rest);
    TextRunOver(v, Close(tag) + rest);
    assert r[..|v|] == v;
    assert r[|v|..] == Close(tag) + rest;
  }

  /** `ExtractTag` finds nothing iff no position starts a match. */
  lemma {:induction false} ExtractTagNone(s: string, tag: string)
    decreases |s|
    ensures ExtractTag(s, tag).None? <==> forall i :: 0 <= i <= |s| ==> MatchAt(s[i..], tag).None?
  {
    assert s[0..] == s;
    if MatchAt(s, tag).None? && s != [] {
      ExtractTagNone(s[1..], tag);
      if ExtractTag(s[1..], tag).None? {
        forall i | 0 <= i <= |s| ensures MatchAt(s[i..], tag).None? {
          if i > 0 {
            assert s[i..] == s[1..][i - 1..];
          }
        }
      } else {
        var i :| 0 <= i <= |s[1..]| && MatchAt(s[1..][i..], tag).Some?;
        assert s[1..][i..] == s[i + 1..];
      }
    }
  }

  /** What `ExtractTag` finds is the match at the first position that starts one. */
  lemma {:induction false} ExtractTagLeftmost(s: string, tag: string)
    decreases |s|
    ensures ExtractTag(s, tag).Some? ==>
              exists i :: 0 <= i <= |s| && ExtractTag(s, tag) == MatchAt(s[i..], tag) &&
                          forall j :: 0 <= j < i ==> MatchAt(s[j..], tag).None?
  {
    assert s[0..] == s;
    if MatchAt(s, tag).None? && s != [] && ExtractTag(s[1..], tag).Some? {
      ExtractTagLeftmost(s[1..], tag);
      var i :| 0 <= i <= |s[1..]| && ExtractTag(s[1..], tag) == MatchAt(s[1..][i..], tag) &&
               forall j :: 0 <= j < i ==> MatchAt(s[1..][j..], tag).None?;
      assert s[1..][i..] == s[i + 1..];
      forall j | 0 <= j < i + 1 ensures MatchAt(s[j..], tag).None? {
        if j > 0 {
          assert s[j..] == s[1..][j - 1..];
        }
      }
      assert ExtractTag(s, tag) == MatchAt(s[i + 1..], tag);
    }
  }

  /** An element present anywhere in the text is found. */
  lemma ElementFound(s: string, tag: string, v: string, i: nat)
    requires i <= |s| && Element(tag, v) <= s[i..] && |v| > 0 && '<' !in v
    ensures ExtractTag(s, tag).Some?
  {
    var e := Element(tag, v);
    var rest := s[i..][|e|..];
    assert s[i..] == e + rest;
    MatchElement(tag, v, rest);
    ExtractTagNone(s, tag);
  }

  /** A descriptor laid out as the catalog serves it: a root element holding
      the four fields. */
  function Descriptor(host: string, path: string, ts: string, s: string): string {
    Open("download-info") + Element("host", host) + Element("path", path) +
    Element("ts", ts) + Element("s", s) + Close("download-info")
  }

  ghost predicate FieldText(v: string) {
    |v| > 0 && '<' !in v
  }

  lemma ExtractFrom(pre: string, tag: string, v: string, post: string)
    requires |tag| > 0 && Skippable(pre, tag[0]) && FieldText(v)
    ensures ExtractTag(pre + Element(tag, v) + post, tag) == Some(v)
  {
    assert pre + Element(tag, v) + post == pre + (Element(tag, v) + post);
    ExtractSkips(pre, Element(tag, v) + post, tag);
    MatchElement(tag, v, post);
  }

  lemma DescriptorHost(host: string, path: string, ts: string, s: string)
    requires FieldText(host)
    ensures ExtractTag(Descriptor(host, path, ts, s), "host") == Some(host)
  {
    var root := Open("download-info");
    assert '<' !in "download-info";
    SkippableOpen("download-info", 'h');
    var post := Element("path", path) + Element("ts", ts) + Element("s", s) + Close("download-info");
    assert Descriptor(host, path, ts, s) == root + Element("host", host) + post;
    ExtractFrom(root, "host", host, post);
  }

  lemma DescriptorPath(host: string, path: string, ts: string, s: string)
    requires FieldText(host) && FieldText(path)
    ensures ExtractTag(Descriptor(host, path, ts, s), "path") == Some(path)
  {
    var pre := Open("download-info") + Element("host", host);
    assert '<' !in "download-info" && '<' !in "host";
    SkippableOpen("download-info", 'p');
    SkippableElement("host", host, 'p');
    SkippableConcat(Open("download-info"), Element("host", host), 'p');
    var post := Element("ts", ts) + Element("s", s) + Close("download-info");
    assert Descriptor(host, path, ts, s) == pre + Element("path", path) + post;
    ExtractFrom(pre, "path", path, post);
  }

  lemma DescriptorTs(host: string, path: string, ts: string, s: string)
    requires FieldText(host) && FieldText(path) && FieldText(ts)
    ensures ExtractTag(Descriptor(host, path, ts, s), "ts") == Some(ts)
  {
    var pre1 := Open("download-info") + Element("host", host);
    var pre := pre1 + Element("path", path);
    assert '<' !in "download-info" && '<' !in "host" && '<' !in "path";
    SkippableOpen("download-info", 't');
    SkippableElement("host", host, 't');
    SkippableElement("path", path, 't');
    SkippableConcat(Open("download-info"), Element("host", host), 't');
    SkippableConcat(pre1, Element("path", path), 't');
    var post := Element("s", s) + Close("download-info");
    assert Descriptor(host, path, ts, s) == pre + Element("ts", ts) + post;
    ExtractFrom(pre, "ts", ts, post);
  }

  lemma DescriptorSignature(host: string, path: string, ts: string, s: string)
    requires FieldText(host) && FieldText(path) && FieldText(ts) && FieldText(s)
    ensures ExtractTag(Descriptor(host, path, ts, s), "s") == Some(s)
  {
    var pre1 := Open("download-info") + Element("host", host);
    var pre2 := pre1 + Element("path", path);
    var pre := pre2 + Element("ts", ts);
    assert '<' !in "download-info" && '<' !in "host" && '<' !in "path" && '<' !in "ts";
    SkippableOpen("download-info", 's');
    SkippableElement("host", host, 's');
    SkippableElement("path", path, 's');
    SkippableElement("ts", ts, 's');
    SkippableConcat(Open("download-info"), Element("host", host), 's');
    SkippableConcat(pre1, Element("path", path), 's');
    SkippableConcat(pre2, Element("ts", ts), 's');
    assert Descriptor(host, path, ts, s) == pre + Element("s", s) + Close("download-info");
    ExtractFrom(pre, "s", s, Close("download-info"));
  }

  /** Reading a well-formed descriptor back yields the templated URL. */
  lemma DescriptorRoundTrip(host: string, path: string, ts: string, s: string)
    requires FieldText(host) && FieldText(path) && FieldText(ts) && FieldText(s)
    ensures ResolveDescriptor(Descriptor(host, path, ts, s)) == Ok(MediaUrl(host, path, ts, s))
  {
    DescriptorHost(host, path, ts, s);
    DescriptorPath(host, path, ts, s);
    DescriptorTs(host, path, ts, s);
    DescriptorSignature(host, path, ts, s);
  }

  /** The worked example of the template: host h, path /p, ts 111, signature sig. */
  lemma MediaUrlExample(host: string, path: string, ts: string, sig: string)
    requires host == "h" && path == "/p" && ts == "111" && sig == "sig"
    ensures MediaUrl(host, path, ts, sig) == "https://h/get-mp3/sig/111/p"
  {
  }

  /** A descriptor that lacks the signature is rejected. */
  lemma MissingSignature(host: string, path: string, ts: string)
    requires FieldText(host) && FieldText(path) && FieldText(ts)
    ensures ResolveDescriptor(Open("download-info") + Element("host", host) + Element("path", path) +
                              Element("ts", ts) + Close("download-info")) == Err(DescriptorIncomplete)
  {
    var xml := Open("download-info") + Element("host", host) + Element("path", path) +
               Element("ts", ts) + Close("download-info");
    assert '<' !in "download-info" && '<' !in "host" && '<' !in "path" && '<' !in "ts";
    SkippableOpen("download-info", 's');
    SkippableElement("host", host, 's');
    SkippableElement("path", path, 's');
    SkippableElement("ts", ts, 's');
    SkippableClose("download-info", 's');
    SkippableConcat(Open("download-info"), Element("host", host), 's');
    SkippableConcat(Open("download-info") + Element("host", host), Element("path", path), 's');
    SkippableConcat(Open("download-info") + Element("host", host) + Element("path", path), Element("ts", ts), 's');
    SkippableConcat(Open("download-info") + Element("host", host) + Element("path", path) + Element("ts", ts),
                    Close("download-info"), 's');
    assert xml + [] == xml;
    ExtractSkips(xml, [], "s");
    assert MatchAt([], "s").None?;
  }
}
