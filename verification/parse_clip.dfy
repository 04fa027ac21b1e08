/**
 * The clip-URL classifier of src/lib/parseClip.ts: a total function from a URL
 * string to a YouTube video id, a Twitch clip slug, or "unknown".
 */
module ClipParser {
  import opened Optional
  import opened Strings
  import opened Urls

  /** The `Parsed` union: `{kind: "youtube", id}`, `{kind: "twitch-clip", id}` or `{kind: "unknown"}`. */
  datatype Parsed = YouTube(id: string) | TwitchClip(id: string) | Unknown

  // ---------------------------------------------------------------------------
  // pathname.split("/").filter(Boolean)[0]

  /** The first non-empty segment of a path, as `split("/").filter(Boolean)[0]` gives it. */
  function FirstSegment(path: string): (r: Option<string>)
    ensures r.Some? ==> r.value != "" && '/' !in r.value
  {
    Head(NonEmpty(Split(path, '/')))
  }

  /** A path made only of slashes (the empty path included) has no segment. */
  lemma {:induction false} FirstSegmentOfSlashes(pre: string, tail: string)
    requires AllChar(pre, '/')
    ensures FirstSegment(pre + tail) == FirstSegment(tail)
    decreases |pre|
  {
    if pre != [] {
      var s := pre + tail;
      assert s == [] + ['/'] + (pre[1..] + tail);
      SplitConcat([], '/', pre[1..] + tail);
      assert NonEmpty(Split(s, '/')) == NonEmpty(Split(pre[1..] + tail, '/'));
      FirstSegmentOfSlashes(pre[1..], tail);
    } else {
      assert pre + tail == tail;
    }
  }

  /** Slashes, then a slash-free word, then nothing or a slash: the word is the first segment. */
  lemma FirstSegmentOf(pre: string, id: string, rest: string)
    requires AllChar(pre, '/') && id != "" && '/' !in id
    requires rest == "" || rest[0] == '/'
    ensures FirstSegment(pre + id + rest) == Some(id)
  {
    assert pre + id + rest == pre + (id + rest);
    FirstSegmentOfSlashes(pre, id + rest);
    if rest == "" {
      assert id + rest == id;
      SplitNoSep(id, '/');
    } else {
      assert id + rest == id + ['/'] + rest[1..];
      SplitConcat(id, '/', rest[1..]);
      NonEmptyAppend([id], Split(rest[1..], '/'));
    }
  }

  /**
   * The direct reading of "first non-empty segment": skip the leading slashes,
   * then take the text up to the next slash.
   */
  function SegmentAfterSlashes(path: string): Option<string> {
    var t := DropLeading(path, '/');
    if t == "" then None else Some(Before(t, '/'))
  }

  /** `split("/").filter(Boolean)[0]` agrees with the direct reading on every path. */
  lemma FirstSegmentIsSegmentAfterSlashes(path: string)
    ensures FirstSegment(path) == SegmentAfterSlashes(path)
  {
    var t := DropLeading(path, '/');
    var pre := path[..|path| - |t|];
    if t == "" {
      NoWordAfterSlashes(pre, path);
    } else {
      WordAfterSlashes(pre, t, path);
    }
  }

  lemma NoWordAfterSlashes(pre: string, path: string)
    requires AllChar(pre, '/') && path == pre + ""
    ensures FirstSegment(path).None?
  {
    FirstSegmentOfSlashes(pre, "");
  }

  lemma WordAfterSlashes(pre: string, t: string, path: string)
    requires AllChar(pre, '/') && path == pre + t && t != "" && t[0] != '/'
    ensures FirstSegment(path) == Some(Before(t, '/'))
  {
    var id := Before(t, '/');
    var rest := t[|id|..];
    WordThenRest(t);
    assert path == pre + id + rest;
    FirstSegmentOf(pre, id, rest);
  }

  /** A string not starting with '/' is its text up to the first '/', then nothing or a '/'. */
  lemma WordThenRest(t: string)
    requires t != "" && t[0] != '/'
    ensures var id := Before(t, '/');
      id != "" && t == id + t[|id|..] && (t[|id|..] == "" || t[|id|..][0] == '/')
  {
    var id := Before(t, '/');
    assert t == id + t[|id|..];
    match IndexOf(t, '/')
    case None =>
    case Some(k) =>
      assert t[k] == '/';
  }

  /** There is no segment exactly when the path is all slashes. */
  lemma FirstSegmentNone(path: string)
    ensures FirstSegment(path).None? <==> AllChar(path, '/')
  {
    FirstSegmentIsSegmentAfterSlashes(path);
    var t := DropLeading(path, '/');
    if t != "" {
      assert path[|path| - |t|] == t[0];
    }
  }

  // ---------------------------------------------------------------------------
  // pathname.match(/\/shorts\/([a-zA-Z0-9_-]{6,})/)

  /** The character class `[a-zA-Z0-9_-]`. */
  predicate IsIdChar(c: char) {
    ('a' <= c <= 'z') || ('A' <= c <= 'Z') || ('0' <= c <= '9') || c == '_' || c == '-'
  }

  /** The longest prefix of `s` made of id characters: what the greedy `[a-zA-Z0-9_-]{6,}` consumes. */
  function IdRun(s: string): (r: string)
    ensures HasPrefix(s, r)
    ensures forall i :: 0 <= i < |r| ==> IsIdChar(r[i])
    ensures |r| == |s| || !IsIdChar(s[|r|])
    decreases |s|
  {
    if s != [] && IsIdChar(s[0]) then
      var r := IdRun(s[1..]);
      assert s[..|r| + 1] == [s[0]] + s[1..][..|r|];
      [s[0]] + r
    else ""
  }

  lemma {:induction false} IdRunWhole(s: string)
    requires forall i :: 0 <= i < |s| ==> IsIdChar(s[i])
    ensures IdRun(s) == s
    decreases |s|
  {
    if s != [] {
      IdRunWhole(s[1..]);
      assert [s[0]] + s[1..] == s;
    }
  }

  const ShortsMarker: string := "/shorts/"

  /** The regular expression matches at position `i`: "/shorts/" followed by at least six id characters. */
  predicate ShortsAt(path: string, i: nat) {
    i + |ShortsMarker| <= |path| && path[i..i + |ShortsMarker|] == ShortsMarker
    && |IdRun(path[i + |ShortsMarker|..])| >= 6
  }

  /** The leftmost position at or after `from` where the expression matches. */
  function FindShorts(path: string, from: nat): (r: Option<nat>)
    ensures r.Some? ==> from <= r.value && ShortsAt(path, r.value)
    ensures r.Some? ==> forall j :: from <= j < r.value ==> !ShortsAt(path, j)
    ensures r.None? ==> forall j :: from <= j ==> !ShortsAt(path, j)
    decreases |path| - from
  {
    if from + |ShortsMarker| > |path| then None
    else if ShortsAt(path, from) then Some(from)
    else FindShorts(path, from + 1)
  }

  /** `match(...)?.[1]`: the captured group of the leftmost match. */
  function ShortsId(path: string): (r: Option<string>)
    ensures r.Some? ==> |r.value| >= 6 && forall k :: 0 <= k < |r.value| ==> IsIdChar(r.value[k])
    ensures r.None? <==> forall j :: 0 <= j ==> !ShortsAt(path, j)
  {
    match FindShorts(path, 0)
    case None => None
    case Some(i) => Some(IdRun(path[i + |ShortsMarker|..]))
  }

  // ---------------------------------------------------------------------------
  // parseClip

  /** The body of the `try`: classification of a URL that did parse. */
  function Classify(u: Url): (p: Parsed)
    ensures p.YouTube? ==> StripWww(u.hostname) in {"youtube.com", "youtu.be"}
    ensures p.TwitchClip? ==> StripWww(u.hostname) == "clips.twitch.tv"
    ensures !p.Unknown? ==> p.id != ""
  {
    var h := StripWww(u.hostname);
    if h == "youtu.be" then
      match FirstSegment(u.pathname)
      case Some(id) => YouTube(id)
      case None => Unknown
    else if h == "youtube.com" then
      var v := GetParam(u.query, "v");
      if v.Some? && v.value != "" then YouTube(v.value)
      else
        match ShortsId(u.pathname)
        case Some(id) => YouTube(id)
        case None => Unknown
    else if h == "clips.twitch.tv" then
      match FirstSegment(u.pathname)
      case Some(slug) => TwitchClip(slug)
      case None => Unknown
    else Unknown
  }

  /** `parseClip(url)`: a URL the constructor rejects is "unknown"; the function never throws. */
  function ParseClip(parse: Parser, url: string): (p: Parsed)
    ensures parse(url).None? ==> p == Unknown
    ensures parse(url).Some? ==> p == Classify(parse(url).value)
    ensures !p.Unknown? ==> p.id != ""
  {
    match parse(url)
    case None => Unknown
    case Some(u) => Classify(u)
  }

  // ---------------------------------------------------------------------------
  // The rules, each stated from its independent description

  /** Hosts are compared whole, after one "www." is stripped: a host that merely contains a supported one is unknown. */
  lemma ExactHostsOnly(u: Url)
    requires StripWww(u.hostname) !in {"youtube.com", "youtu.be", "clips.twitch.tv"}
    ensures Classify(u) == Unknown
  {
  }

  /** youtu.be: the first path segment is the id, and query text never reaches it. */
  lemma YoutuBeRule(u: Url, pre: string, id: string, rest: string)
    requires StripWww(u.hostname) == "youtu.be"
    requires u.pathname == pre + id + rest
    requires AllChar(pre, '/') && id != "" && '/' !in id && (rest == "" || rest[0] == '/')
    ensures Classify(u) == YouTube(id)
  {
    FirstSegmentOf(pre, id, rest);
  }

  /** youtu.be with a path of slashes only is unknown. */
  lemma YoutuBeNoSegment(u: Url)
    requires StripWww(u.hostname) == "youtu.be" && AllChar(u.pathname, '/')
    ensures Classify(u) == Unknown
  {
    FirstSegmentNone(u.pathname);
  }

  /** youtube.com: a non-empty first `v` value is the id, whatever the path says. */
  lemma WatchRule(u: Url, before: seq<(string, string)>, v: string, after: seq<(string, string)>)
    requires StripWww(u.hostname) == "youtube.com"
    requires u.query == before + [("v", v)] + after
    requires forall i :: 0 <= i < |before| ==> before[i].0 != "v"
    requires v != ""
    ensures Classify(u) == YouTube(v)
  {
    GetParamFirst(before, "v", v, after);
  }

  /** youtube.com: an absent or empty `v` falls through to the Shorts rule. */
  lemma EmptyVFallsThrough(u: Url)
    requires StripWww(u.hostname) == "youtube.com"
    requires GetParam(u.query, "v") in {None, Some("")}
    ensures Classify(u) == match ShortsId(u.pathname) case Some(id) => YouTube(id) case None => Unknown
  {
  }

  /**
   * youtube.com without a usable `v`: the id is the whole run of id characters
   * after the leftmost "/shorts/" that is followed by at least six of them.
   */
  lemma ShortsRule(u: Url, i: nat)
    requires StripWww(u.hostname) == "youtube.com"
    requires GetParam(u.query, "v") in {None, Some("")}
    requires ShortsAt(u.pathname, i) && forall j :: 0 <= j < i ==> !ShortsAt(u.pathname, j)
    ensures Classify(u) == YouTube(IdRun(u.pathname[i + |ShortsMarker|..]))
  {
    assert FindShorts(u.pathname, 0) == Some(i);
  }

  /** youtube.com with neither a usable `v` nor a Shorts match is unknown. */
  lemma NoShortsIsUnknown(u: Url)
    requires StripWww(u.hostname) == "youtube.com"
    requires GetParam(u.query, "v") in {None, Some("")}
    requires forall j :: 0 <= j ==> !ShortsAt(u.pathname, j)
    ensures Classify(u) == Unknown
  {
  }

  /** clips.twitch.tv: the first path segment is the slug; without one the clip is unknown. */
  lemma TwitchClipRule(u: Url, pre: string, slug: string, rest: string)
    requires StripWww(u.hostname) == "clips.twitch.tv"
    requires u.pathname == pre + slug + rest
    requires AllChar(pre, '/') && slug != "" && '/' !in slug && (rest == "" || rest[0] == '/')
    ensures Classify(u) == TwitchClip(slug)
  {
    FirstSegmentOf(pre, slug, rest);
  }

  lemma TwitchClipNoSegment(u: Url)
    requires StripWww(u.hostname) == "clips.twitch.tv" && AllChar(u.pathname, '/')
    ensures Classify(u) == Unknown
  {
    FirstSegmentNone(u.pathname);
  }

  /** The result depends only on the host name, the path and the query; the scheme and port play no part. */
  lemma ClassifyIgnoresSchemeAndPort(u: Url, protocol: string, host: string)
    ensures Classify(u.(protocol := protocol, host := host)) == Classify(u)
  {
  }

  /**
   * A youtu.be or clips.twitch.tv id is a contiguous piece of the path (the text
   * after the leading slashes, up to the next slash), so it holds no query or
   * fragment text.
   */
  lemma SegmentIdComesFromPath(u: Url)
    requires StripWww(u.hostname) in {"youtu.be", "clips.twitch.tv"}
    requires !Classify(u).Unknown?
    ensures '/' !in Classify(u).id
    ensures Classify(u).id == Before(DropLeading(u.pathname, '/'), '/')
    ensures exists i, j :: 0 <= i <= j <= |u.pathname| && Classify(u).id == u.pathname[i..j]
  {
    FirstSegmentIsSegmentAfterSlashes(u.pathname);
    assert Classify(u).id == FirstSegment(u.pathname).value;
    SegmentAfterSlashesIsSlice(u.pathname);
  }

  lemma SegmentAfterSlashesIsSlice(path: string)
    requires DropLeading(path, '/') != ""
    ensures exists i, j :: 0 <= i <= j <= |path| && Before(DropLeading(path, '/'), '/') == path[i..j]
  {
    var t := DropLeading(path, '/');
    PrefixOfSuffixIsSlice(path, t, Before(t, '/'));
  }

  lemma PrefixOfSuffixIsSlice(s: string, t: string, p: string)
    requires |t| <= |s| && s == s[..|s| - |t|] + t
    requires HasPrefix(t, p)
    ensures exists i, j :: 0 <= i <= j <= |s| && p == s[i..j]
  {
    var i := |s| - |t|;
    assert s[i..] == t;
    assert s[i..i + |p|] == s[i..][..|p|];
  }

  // ---------------------------------------------------------------------------
  // Worked inputs (each URL written out as the record the parser yields for it)

  /** https://youtu.be/abc123?t=30: the query does not leak into the id. */
  lemma ExampleShortLinkWithQuery()
    ensures Classify(Url("https:", "youtu.be", "youtu.be", "/abc123", [("t", "30")])) == YouTube("abc123")
  {
    assert "youtu.be"[0] == 'y';
    YoutuBeRule(Url("https:", "youtu.be", "youtu.be", "/abc123", [("t", "30")]), "/", "abc123", "");
  }

  /** https://www.youtube.com/shorts/abcdef12345 is the video abcdef12345. */
  lemma ExampleShorts()
    ensures Classify(Url("https:", "www.youtube.com", "www.youtube.com", "/shorts/abcdef12345", [])) == YouTube("abcdef12345")
  {
    var path := ShortsMarker + "abcdef12345";
    assert path == "/shorts/abcdef12345";
    var u := Url("https:", "www.youtube.com", "www.youtube.com", path, []);
    assert StripWww(u.hostname) == "youtube.com" by {
      StripWwwOnce("youtube.com");
    }
    ExampleShortsPath();
    ShortsRule(u, 0);
  }

  lemma ExampleShortsPath()
    ensures var path := ShortsMarker + "abcdef12345";
      ShortsAt(path, 0) && IdRun(path[|ShortsMarker|..]) == "abcdef12345"
  {
    var id := "abcdef12345";
    var path := ShortsMarker + id;
    assert path[..8] == ShortsMarker && path[8..] == id;
    assert forall k :: 0 <= k < |id| ==> IsIdChar(id[k]);
    IdRunWhole(id);
  }

  /** https://youtube.com/watch?v= has an empty `v` and no Shorts path: unknown, not an empty id. */
  lemma ExampleEmptyV()
    ensures Classify(Url("https:", "youtube.com", "youtube.com", "/watch", [("v", "")])) == Unknown
  {
    var u := Url("https:", "youtube.com", "youtube.com", "/watch", [("v", "")]);
    assert GetParam(u.query, "v") == Some("");
    assert forall j :: 0 <= j ==> !ShortsAt(u.pathname, j);
  }

  /** https://clips.twitch.tv/SlugGoesHere is the clip SlugGoesHere. */
  lemma ExampleTwitchClip()
    ensures Classify(Url("https:", "clips.twitch.tv", "clips.twitch.tv", "/SlugGoesHere", [])) == TwitchClip("SlugGoesHere")
  {
    assert "clips.twitch.tv"[0] == 'c';
    TwitchClipRule(Url("https:", "clips.twitch.tv", "clips.twitch.tv", "/SlugGoesHere", []), "/", "SlugGoesHere", "");
  }

  /** https://notyoutube.com.evil.example/watch?v=x only contains "youtube.com": unknown. */
  lemma ExampleLookalikeHost()
    ensures Classify(Url("https:", "notyoutube.com.evil.example", "notyoutube.com.evil.example", "/watch", [("v", "x")])) == Unknown
  {
  }

  /** https://www.www.youtube.com/watch?v=x keeps one "www." after stripping: unknown. */
  lemma ExampleDoubleWww()
    ensures Classify(Url("https:", "www.www.youtube.com", "www.www.youtube.com", "/watch", [("v", "x")])) == Unknown
  {
    StripWwwOnce("www.youtube.com");
  }

  /** A Twitch VOD such as https://twitch.tv/videos/123456789 is not recognised. */
  lemma ExampleTwitchVideoUnknown()
    ensures Classify(Url("https:", "twitch.tv", "twitch.tv", "/videos/123456789", [])) == Unknown
  {
  }
}
