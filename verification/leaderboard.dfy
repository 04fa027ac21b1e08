/**
 * The ranked list of src/components/LeaderboardClient.tsx: the per-row display
 * helpers, the hover preview, and the component state that key presses and mouse
 * movement update.
 */
module Leaderboard {
  import opened Optional
  import opened Strings
  import opened Decimal
  import opened Urls
  import opened ClipParser
  import opened Rows
  import opened Navigation
  import opened Embeds
  import PlayerModal
  import SubmitPage

  // ---------------------------------------------------------------------------
  // getThumb

  const FaviconPath: string := "/favicon.ico"

  /** The still image YouTube serves for a video id. */
  function YouTubeThumb(id: string): string {
    "https://i.ytimg.com/vi/" + id + "/hqdefault.jpg"
  }

  /**
   * `getThumb(url)`: the YouTube still for a YouTube clip, otherwise the favicon at
   * the URL's origin, and the site's own "/favicon.ico" when the URL does not parse.
   */
  function GetThumb(parse: Parser, url: string): (t: string)
    ensures ParseClip(parse, url).YouTube? ==> t == YouTubeThumb(ParseClip(parse, url).id)
    ensures !ParseClip(parse, url).YouTube? && parse(url).Some? ==> t == Origin(parse(url).value) + FaviconPath
    ensures t == FaviconPath <==> parse(url).None?
  {
    match ParseClip(parse, url)
    case YouTube(id) =>
      assert YouTubeThumb(id)[0] == 'h';
      YouTubeThumb(id)
    case _ =>
      match parse(url)
      case Some(u) =>
        assert |Origin(u) + FaviconPath| > |FaviconPath|;
        Origin(u) + FaviconPath
      case None => FaviconPath
  }

  // ---------------------------------------------------------------------------
  // buildEmbedSrc

  /** The address of the silent hover preview, for a classified clip. */
  function PreviewSrc(p: Parsed, window: Option<string>, encode: string -> string): Option<string> {
    match p
    case YouTube(id) =>
      Some(YouTubeEmbedBase + id + "?autoplay=1" + "&mute=1" + "&playsinline=1" + "&controls=0"
        + "&modestbranding=1" + "&rel=0")
    case TwitchClip(id) =>
      Some(TwitchEmbedBase + "?clip=" + id + "&parent=" + encode(PlayerModal.ParentHost(window))
        + "&autoplay=true" + "&muted=true")
    case Unknown => None
  }

  /**
   * `buildEmbedSrc(url)`: the preview address, or null for a URL that is not a clip.
   * A preview exists exactly when the player overlay would embed the same URL.
   */
  function BuildEmbedSrc(parse: Parser, url: string, window: Option<string>, encode: string -> string): (r: Option<string>)
    ensures r.None? <==> ParseClip(parse, url).Unknown?
    ensures url != "" ==> (r.Some? <==> PlayerModal.Render(parse, Some(url), window, encode).Player?)
  {
    PreviewSrc(ParseClip(parse, url), window, encode)
  }

  const PreviewYouTubePairs: seq<(string, string)> :=
    [("autoplay", "1"), ("mute", "1"), ("playsinline", "1"), ("controls", "0"), ("modestbranding", "1"), ("rel", "0")]

  /** The YouTube preview's address is its base and id followed by six query pairs. */
  lemma PreviewYouTubeShape(id: string, window: Option<string>, encode: string -> string)
    ensures PreviewSrc(YouTube(id), window, encode) == Some(YouTubeEmbedBase + id + "?" + QueryOf(PreviewYouTubePairs))
  {
    PreviewYouTubeQueryOf();
    PreviewYouTubePieces();
    RegroupSix(YouTubeEmbedBase + id, PairText(("autoplay", "1")), PairText(("mute", "1")),
      PairText(("playsinline", "1")), PairText(("controls", "0")), PairText(("modestbranding", "1")), PairText(("rel", "0")));
  }

  lemma PreviewYouTubeQueryOf()
    ensures QueryOf(PreviewYouTubePairs)
      == (PairText(("autoplay", "1")) + "&" + PairText(("mute", "1")) + "&" + PairText(("playsinline", "1")))
         + "&" + (PairText(("controls", "0")) + "&" + PairText(("modestbranding", "1")) + "&" + PairText(("rel", "0")))
  {
    var first := [("autoplay", "1"), ("mute", "1"), ("playsinline", "1")];
    var second := [("controls", "0"), ("modestbranding", "1"), ("rel", "0")];
    assert PreviewYouTubePairs == first + second;
    QueryOfAppend(first, second);
    QueryOfThree(("autoplay", "1"), ("mute", "1"), ("playsinline", "1"));
    QueryOfThree(("controls", "0"), ("modestbranding", "1"), ("rel", "0"));
  }

  lemma PreviewYouTubePieces()
    ensures "?autoplay=1" == "?" + PairText(("autoplay", "1"))
    ensures "&mute=1" == "&" + PairText(("mute", "1"))
    ensures "&playsinline=1" == "&" + PairText(("playsinline", "1"))
    ensures "&controls=0" == "&" + PairText(("controls", "0"))
    ensures "&modestbranding=1" == "&" + PairText(("modestbranding", "1"))
    ensures "&rel=0" == "&" + PairText(("rel", "0"))
  {
  }

  function PreviewTwitchPairs(id: string, parent: string): seq<(string, string)> {
    [("clip", id), ("parent", parent), ("autoplay", "true"), ("muted", "true")]
  }

  /** The Twitch preview's address is its base followed by four query pairs. */
  lemma PreviewTwitchShape(id: string, window: Option<string>, encode: string -> string)
    ensures PreviewSrc(TwitchClip(id), window, encode)
      == Some(TwitchEmbedBase + "?" + QueryOf(PreviewTwitchPairs(id, encode(PlayerModal.ParentHost(window)))))
  {
    var parent := encode(PlayerModal.ParentHost(window));
    var first := [("clip", id)];
    var second := [("parent", parent), ("autoplay", "true"), ("muted", "true")];
    assert PreviewTwitchPairs(id, parent) == first + second;
    QueryOfAppend(first, second);
    QueryOfOne(("clip", id));
    QueryOfThree(("parent", parent), ("autoplay", "true"), ("muted", "true"));
    assert "?clip=" == "?" + "clip" + "=";
    assert "&parent=" == "&" + "parent" + "=";
    assert "&autoplay=true" == "&" + PairText(("autoplay", "true"));
    assert "&muted=true" == "&" + PairText(("muted", "true"));
    RegroupFour(TwitchEmbedBase, "clip", id, "parent", parent, PairText(("autoplay", "true")), PairText(("muted", "true")));
  }

  /** Re-associates the concatenation, so that the query pieces line up with `QueryOf` for the verifier. */
  lemma RegroupSix(x: string, p0: string, p1: string, p2: string, p3: string, p4: string, p5: string)
    ensures x + ("?" + p0) + ("&" + p1) + ("&" + p2) + ("&" + p3) + ("&" + p4) + ("&" + p5)
         == x + "?" + ((p0 + "&" + p1 + "&" + p2) + "&" + (p3 + "&" + p4 + "&" + p5))
  {
  }

  /** Re-associates the concatenation, so that the query pieces line up with `QueryOf` for the verifier. */
  lemma RegroupFour(x: string, k0: string, v0: string, k1: string, v1: string, p2: string, p3: string)
    ensures x + ("?" + k0 + "=") + v0 + ("&" + k1 + "=") + v1 + ("&" + p2) + ("&" + p3)
         == x + "?" + ((k0 + "=" + v0) + "&" + ((k1 + "=" + v1) + "&" + p2 + "&" + p3))
  {
  }

  lemma PreviewYouTubePairsSafe()
    ensures forall i :: 0 <= i < |PreviewYouTubePairs| ==> SafePair(PreviewYouTubePairs[i])
  {
  }

  lemma PreviewTwitchPairsSafe(id: string, parent: string)
    requires PlayerModal.ValueSafe(id) && PlayerModal.ValueSafe(parent)
    ensures forall i :: 0 <= i < 4 ==> SafePair(PreviewTwitchPairs(id, parent)[i])
  {
  }

  /** Reading the YouTube preview's query back gives exactly the six pairs written. */
  lemma PreviewYouTubeRead(id: string, window: Option<string>, encode: string -> string)
    requires PlayerModal.PathSafe(id)
    ensures Params(PreviewSrc(YouTube(id), window, encode).value) == PreviewYouTubePairs
  {
    BasesHaveNoDelimiters();
    PreviewYouTubePairsSafe();
    PreviewYouTubeShape(id, window, encode);
    ParamsRoundTrip(YouTubeEmbedBase + id, PreviewYouTubePairs);
  }

  /** The YouTube preview autoplays muted, inline and without controls. */
  lemma PreviewYouTubeQuery(id: string, window: Option<string>, encode: string -> string)
    requires PlayerModal.PathSafe(id)
    ensures var src := PreviewSrc(YouTube(id), window, encode).value;
      && Param(src, "autoplay") == Some("1")
      && Param(src, "mute") == Some("1")
      && Param(src, "playsinline") == Some("1")
      && Param(src, "controls") == Some("0")
  {
    PreviewYouTubeRead(id, window, encode);
    PreviewYouTubeLookup();
  }

  lemma PreviewYouTubeLookup()
    ensures var q := PreviewYouTubePairs;
      && GetParam(q, "autoplay") == Some("1")
      && GetParam(q, "mute") == Some("1")
      && GetParam(q, "playsinline") == Some("1")
      && GetParam(q, "controls") == Some("0")
  {
  }

  /** Reading the Twitch preview's query back gives exactly the four pairs written. */
  lemma PreviewTwitchRead(id: string, window: Option<string>, encode: string -> string)
    requires PlayerModal.ValueSafe(id) && PlayerModal.ValueSafe(encode(PlayerModal.ParentHost(window)))
    ensures Params(PreviewSrc(TwitchClip(id), window, encode).value)
      == PreviewTwitchPairs(id, encode(PlayerModal.ParentHost(window)))
  {
    var q := PreviewTwitchPairs(id, encode(PlayerModal.ParentHost(window)));
    BasesHaveNoDelimiters();
    PreviewTwitchPairsSafe(id, encode(PlayerModal.ParentHost(window)));
    PreviewTwitchShape(id, window, encode);
    ParamsRoundTrip(TwitchEmbedBase, q);
  }

  /** The Twitch preview names the clip and the embedding page and plays muted. */
  lemma PreviewTwitchQuery(id: string, window: Option<string>, encode: string -> string)
    requires PlayerModal.ValueSafe(id) && PlayerModal.ValueSafe(encode(PlayerModal.ParentHost(window)))
    ensures var src := PreviewSrc(TwitchClip(id), window, encode).value;
      && Param(src, "clip") == Some(id)
      && Param(src, "parent") == Some(encode(PlayerModal.ParentHost(window)))
      && Param(src, "muted") == Some("true")
  {
    PreviewTwitchRead(id, window, encode);
    PreviewTwitchLookup(id, encode(PlayerModal.ParentHost(window)));
  }

  lemma PreviewTwitchLookup(id: string, parent: string)
    ensures var q := PreviewTwitchPairs(id, parent);
      && GetParam(q, "clip") == Some(id)
      && GetParam(q, "parent") == Some(parent)
      && GetParam(q, "muted") == Some("true")
  {
    var q := PreviewTwitchPairs(id, parent);
    GetParamFirst([], "clip", id, q[1..]);
    assert [] + [("clip", id)] + q[1..] == q;
    GetParamFirst(q[..1], "parent", parent, q[2..]);
    assert q[..1] + [("parent", parent)] + q[2..] == q;
    GetParamFirst(q[..3], "muted", "true", []);
    assert q[..3] + [("muted", "true")] + [] == q;
  }

  /** The hover preview of a YouTube clip is muted, while the overlay player for the same clip is not. */
  lemma PreviewMutedPlayerNot(parse: Parser, url: string, window: Option<string>, encode: string -> string)
    requires url != "" && ParseClip(parse, url).YouTube? && PlayerModal.PathSafe(ParseClip(parse, url).id)
    ensures Param(BuildEmbedSrc(parse, url, window, encode).value, "mute") == Some("1")
    ensures Param(PlayerModal.Render(parse, Some(url), window, encode).src, "mute") == None
  {
    var id := ParseClip(parse, url).id;
    assert BuildEmbedSrc(parse, url, window, encode) == PreviewSrc(YouTube(id), window, encode);
    assert PlayerModal.Render(parse, Some(url), window, encode) == PlayerModal.Player(PlayerModal.PlayerSrc(YouTube(id), window, encode));
    PreviewYouTubeQuery(id, window, encode);
    PlayerModal.YouTubePlayerQuery(id, window, encode);
  }

  // ---------------------------------------------------------------------------
  // An id that rewrites the preview's query

  /**
   * `buildEmbedSrc` splices the id into the address unencoded. `searchParams.get`
   * has already percent-decoded `v`, so `watch?v=x%3Fmute%3D0%26` yields the id
   * "x?mute=0&": the allow-list accepts the URL, and the silent preview's first
   * `mute` pair is "0".
   */
  lemma CraftedVideoIdUnmutesPreview(parse: Parser, url: string, window: Option<string>, encode: string -> string)
    requires parse(url) == Some(Url("https:", "www.youtube.com", "www.youtube.com", "/watch", [("v", "x?mute=0&")]))
    ensures SubmitPage.IsAllowedUrl(parse, url)
    ensures ParseClip(parse, url) == YouTube("x?mute=0&")
    ensures Param(BuildEmbedSrc(parse, url, window, encode).value, "mute") == Some("0")
  {
    var id := "x?mute=0&";
    CraftedVideoIdClassified(parse(url).value);
    assert ParseClip(parse, url) == YouTube(id);
    assert BuildEmbedSrc(parse, url, window, encode) == PreviewSrc(YouTube(id), window, encode);
    VideoIdPieces();
    InjectedPairLeadsYouTubePreview("x", ("mute", "0"), window, encode);
  }

  lemma CraftedVideoIdClassified(u: Url)
    requires u == Url("https:", "www.youtube.com", "www.youtube.com", "/watch", [("v", "x?mute=0&")])
    ensures Classify(u) == YouTube("x?mute=0&")
  {
    assert "www.youtube.com"[..4] == "www.";
    assert u.query == [] + [("v", "x?mute=0&")] + [];
    WatchRule(u, [], "x?mute=0&", []);
  }

  lemma VideoIdPieces()
    ensures "x?mute=0&" == "x" + "?" + PairText(("mute", "0")) + "&"
    ensures '?' !in "x" && '#' !in "x" && SafePair(("mute", "0"))
  {
  }

  /** An id that ends in "?name=value&" puts that pair first in the YouTube preview's query. */
  lemma InjectedPairLeadsYouTubePreview(x: string, p: (string, string), window: Option<string>, encode: string -> string)
    requires '?' !in x && '#' !in x && SafePair(p)
    ensures Param(PreviewSrc(YouTube(x + "?" + PairText(p) + "&"), window, encode).value, p.0) == Some(p.1)
  {
    var id := x + "?" + PairText(p) + "&";
    var lead := [p];
    var tail := "?" + QueryOf(PreviewYouTubePairs);
    PreviewYouTubeShape(id, window, encode);
    QueryOfOne(p);
    var src := YouTubeEmbedBase + x + "?" + QueryOf(lead) + "&" + tail;
    assert PreviewSrc(YouTube(id), window, encode).value == src;
    BasesHaveNoDelimiters();
    ParamsStartWith(YouTubeEmbedBase + x, lead, tail);
    GetParamPrefix(Params(src), lead, p.0);
  }

  /**
   * The same for a Twitch slug: `pathname` keeps a literal '&', so
   * clips.twitch.tv/abc&muted=false yields the slug "abc&muted=false", and the
   * preview's first `muted` pair is "false".
   */
  lemma CraftedSlugUnmutesPreview(parse: Parser, url: string, window: Option<string>, encode: string -> string)
    requires parse(url) == Some(Url("https:", "clips.twitch.tv", "clips.twitch.tv", "/abc&muted=false", []))
    ensures SubmitPage.IsAllowedUrl(parse, url)
    ensures ParseClip(parse, url) == TwitchClip("abc&muted=false")
    ensures Param(BuildEmbedSrc(parse, url, window, encode).value, "muted") == Some("false")
  {
    var slug := "abc&muted=false";
    CraftedSlugClassified(parse(url).value);
    assert ParseClip(parse, url) == TwitchClip(slug);
    assert BuildEmbedSrc(parse, url, window, encode) == PreviewSrc(TwitchClip(slug), window, encode);
    SlugPieces();
    InjectedPairLeadsTwitchPreview("abc", ("muted", "false"), window, encode);
  }

  lemma SlugPieces()
    ensures "abc&muted=false" == "abc" + "&" + PairText(("muted", "false"))
    ensures SafePair(("clip", "abc")) && SafePair(("muted", "false"))
  {
  }

  lemma CraftedSlugClassified(u: Url)
    requires u == Url("https:", "clips.twitch.tv", "clips.twitch.tv", "/abc&muted=false", [])
    ensures Classify(u) == TwitchClip("abc&muted=false")
  {
    assert "clips.twitch.tv"[0] == 'c';
    assert u.pathname == "/" + "abc&muted=false" + "";
    TwitchClipRule(u, "/", "abc&muted=false", "");
  }

  /** A slug that goes on with "&name=value" puts that pair second in the Twitch preview's query. */
  lemma InjectedPairLeadsTwitchPreview(a: string, p: (string, string), window: Option<string>, encode: string -> string)
    requires SafePair(("clip", a)) && SafePair(p) && p.0 != "clip"
    ensures Param(PreviewSrc(TwitchClip(a + "&" + PairText(p)), window, encode).value, p.0) == Some(p.1)
  {
    var slug := a + "&" + PairText(p);
    var parent := encode(PlayerModal.ParentHost(window));
    PreviewTwitchShape(slug, window, encode);
    var pairs := PreviewTwitchPairs(slug, parent);
    assert pairs == [("clip", slug)] + pairs[1..];
    QueryOfCons(("clip", slug), pairs[1..]);
    var lead := [("clip", a), p];
    assert lead == [("clip", a)] + [p];
    QueryOfCons(("clip", a), [p]);
    QueryOfOne(p);
    assert PairText(("clip", slug)) == QueryOf(lead);
    var tail := QueryOf(pairs[1..]);
    var src := TwitchEmbedBase + "?" + QueryOf(lead) + "&" + tail;
    assert PreviewSrc(TwitchClip(slug), window, encode).value == src;
    BasesHaveNoDelimiters();
    ParamsStartWith(TwitchEmbedBase, lead, tail);
    GetParamPrefix(Params(src), lead, p.0);
  }

  /** What `encodeURIComponent` guarantees: its output holds no '?', '#' or '&'. */
  ghost predicate EscapesDelimiters(encode: string -> string) {
    forall s :: '?' !in encode(s) && '#' !in encode(s) && '&' !in encode(s)
  }

  /**
   * The preview address with the id passed through `encodeURIComponent`, as
   * `buildEmbedSrc` evidently means to build it.
   */
  function PreviewSrcEncoded(p: Parsed, window: Option<string>, encode: string -> string): (r: Option<string>)
    ensures r.None? <==> p.Unknown?
  {
    match p
    case YouTube(id) => PreviewSrc(YouTube(encode(id)), window, encode)
    case TwitchClip(id) => PreviewSrc(TwitchClip(encode(id)), window, encode)
    case Unknown => None
  }

  /** `buildEmbedSrc(url)` with the id encoded: null exactly for a URL that is not a clip. */
  function BuildEmbedSrcEncoded(parse: Parser, url: string, window: Option<string>, encode: string -> string): (r: Option<string>)
    ensures r.None? <==> ParseClip(parse, url).Unknown?
  {
    PreviewSrcEncoded(ParseClip(parse, url), window, encode)
  }

  /** With the id encoded, every preview autoplays muted, whatever the id. */
  lemma EncodedPreviewIsMuted(p: Parsed, window: Option<string>, encode: string -> string)
    requires EscapesDelimiters(encode)
    ensures p.YouTube? ==> var src := PreviewSrcEncoded(p, window, encode).value;
      && Param(src, "autoplay") == Some("1")
      && Param(src, "mute") == Some("1")
      && Param(src, "playsinline") == Some("1")
      && Param(src, "controls") == Some("0")
    ensures p.TwitchClip? ==> var src := PreviewSrcEncoded(p, window, encode).value;
      && Param(src, "clip") == Some(encode(p.id))
      && Param(src, "parent") == Some(encode(PlayerModal.ParentHost(window)))
      && Param(src, "muted") == Some("true")
  {
    if p.YouTube? {
      PreviewYouTubeQuery(encode(p.id), window, encode);
    } else if p.TwitchClip? {
      PreviewTwitchQuery(encode(p.id), window, encode);
    }
  }

  // ---------------------------------------------------------------------------
  // Row display

  /** The rank colour of row `i`. */
  datatype Medal = Gold | Silver | Bronze | NoMedal

  function MedalOf(i: nat): (m: Medal)
    ensures m == Gold <==> i == 0
    ensures m == Silver <==> i == 1
    ensures m == Bronze <==> i == 2
    ensures m == NoMedal <==> i >= 3
  {
    if i == 0 then Gold else if i == 1 then Silver else if i == 2 then Bronze else NoMedal
  }

  /** Row `i` carries the top-10 class. */
  predicate IsTop10(i: nat) {
    i < 10
  }

  /** The three medal rows are among the top ten, and every row from the eleventh on has neither. */
  lemma MedalsAreTop10(i: nat)
    ensures MedalOf(i) != NoMedal ==> IsTop10(i)
    ensures !IsTop10(i) ==> MedalOf(i) == NoMedal && i + 1 > 10
  {
  }

  /**
   * The rank label of row `i`: "#" and the 1-based rank, padded to two digits with
   * leading zeros. It reads back as the rank and has three characters below rank 100.
   */
  function RankLabel(i: nat): (s: string)
    ensures |s| >= 3 && s[0] == '#' && AllDigits(s[1..])
    ensures ParseNat(s[1..]) == i + 1
    ensures i + 1 < 100 <==> |s| == 3
    ensures i + 1 < 10 <==> s[1] == '0'
  {
    RankDigits(i + 1);
    assert ("#" + PadStart(NatToString(i + 1), 2, '0'))[1..] == PadStart(NatToString(i + 1), 2, '0');
    "#" + PadStart(NatToString(i + 1), 2, '0')
  }

  /** The two-digit padding of a rank keeps its value. */
  lemma RankDigits(n: nat)
    ensures var p := PadStart(NatToString(n), 2, '0');
      && |p| >= 2 && AllDigits(p) && ParseNat(p) == n
      && (n < 100 <==> |p| == 2)
      && (n < 10 <==> p[0] == '0')
  {
    var digits := NatToString(n);
    NatToStringRoundTrip(n);
    NatToStringLength(n);
    var p := PadStart(digits, 2, '0');
    if |digits| < 2 {
      assert p == "0" + digits;
      ParseNatLeadingZero(digits);
    } else {
      assert p == digits;
    }
  }

  /** `r.author_name?.trim() || "Unknown Player"`. */
  function Nick(author: Option<string>): (n: string)
    ensures n != "" && Trimmed(n)
    ensures author.Some? && !AllWhitespace(author.value) ==> n == Trim(author.value)
    ensures author.None? || AllWhitespace(author.value) ==> n == "Unknown Player"
  {
    if author.None? || Trim(author.value) == "" then "Unknown Player" else Trim(author.value)
  }

  // ---------------------------------------------------------------------------
  // Component state

  /**
   * The state of one LeaderboardClient: the rows it was given, whether the
   * device can hover, the open row, and the hover bookkeeping. The 120 ms
   * timeout is modelled by `hoverTimer`, the id a pending timeout will make the
   * active preview; its firing is the method `TimerFires`.
   */
  class LeaderboardView {
    const rows: seq<Row>
    const canHover: bool
    var openIdx: Option<nat>
    var hoverId: Option<string>
    var activeHoverId: Option<string>
    var hoverTimer: Option<string>

    /** The open row is a row of the list, and nothing is hovered on a device that cannot hover. */
    ghost predicate Valid()
      reads this
    {
      && (openIdx.Some? ==> openIdx.value < |rows|)
      && (!canHover ==> hoverId.None? && activeHoverId.None? && hoverTimer.None?)
    }

    constructor(rows: seq<Row>, canHover: bool)
      ensures this.rows == rows && this.canHover == canHover
      ensures openIdx.None? && hoverId.None? && activeHoverId.None? && hoverTimer.None?
      ensures Valid()
    {
      this.rows := rows;
      this.canHover := canHover;
      openIdx := None;
      hoverId := None;
      activeHoverId := None;
      hoverTimer := None;
    }

    /** Clicking row `i` opens it. */
    method Open(i: nat)
      requires Valid() && i < |rows|
      modifies this
      ensures openIdx == Some(i)
      ensures hoverId == old(hoverId) && activeHoverId == old(activeHoverId) && hoverTimer == old(hoverTimer)
      ensures Valid()
    {
      openIdx := Some(i);
    }

    /** A key press: arrows move between rows while the overlay is open, Escape closes it. */
    method KeyDown(key: Key)
      requires Valid()
      modifies this
      ensures openIdx == OpenAfterKey(old(openIdx), key, |rows|)
      ensures hoverId == old(hoverId) && activeHoverId == old(activeHoverId) && hoverTimer == old(hoverTimer)
      ensures Valid()
    {
      openIdx := OpenAfterKey(openIdx, key, |rows|);
    }

    /**
     * `onRowEnter(id)`: on a hovering device, the row becomes the hovered one and
     * a fresh timeout is scheduled for it, replacing any pending one.
     */
    method RowEnter(id: string)
      requires Valid()
      modifies this
      ensures canHover ==> hoverId == Some(id) && hoverTimer == Some(id)
      ensures !canHover ==> hoverId == old(hoverId) && hoverTimer == old(hoverTimer)
      ensures openIdx == old(openIdx) && activeHoverId == old(activeHoverId)
      ensures Valid()
    {
      if !canHover {
        return;
      }
      hoverId := Some(id);
      hoverTimer := Some(id);
    }

    /** The pending timeout fires and its row becomes the active preview. */
    method TimerFires()
      requires Valid()
      modifies this
      ensures old(hoverTimer).Some? ==> activeHoverId == old(hoverTimer)
      ensures old(hoverTimer).None? ==> activeHoverId == old(activeHoverId)
      ensures hoverTimer.None?
      ensures openIdx == old(openIdx) && hoverId == old(hoverId)
      ensures Valid()
    {
      if hoverTimer.Some? {
        activeHoverId := hoverTimer;
        hoverTimer := None;
      }
    }

    /**
     * `onRowLeave(id)`: on a hovering device, the pending timeout is cancelled,
     * and the active and hovered ids are cleared when they are this row's; a
     * different row's ids are left alone.
     */
    method RowLeave(id: string)
      requires Valid()
      modifies this
      ensures canHover ==> hoverTimer.None?
      ensures activeHoverId == (if canHover && old(activeHoverId) == Some(id) then None else old(activeHoverId))
      ensures hoverId == (if canHover && old(hoverId) == Some(id) then None else old(hoverId))
      ensures !canHover ==> hoverTimer == old(hoverTimer)
      ensures openIdx == old(openIdx)
      ensures !ShowPreview(id)
      ensures Valid()
    {
      if !canHover {
        return;
      }
      hoverTimer := None;
      if activeHoverId == Some(id) {
        activeHoverId := None;
      }
      if hoverId == Some(id) {
        hoverId := None;
      }
    }

    /** `showPreview` for the row with this id. */
    predicate ShowPreview(id: string)
      reads this
    {
      canHover && activeHoverId == Some(id)
    }

    /**
     * `previewSrc` of a row: its embed address while its preview is shown, null
     * otherwise; a preview is shown for at most one row, and only for a clip.
     */
    function PreviewOf(r: Row, parse: Parser, window: Option<string>, encode: string -> string): (src: Option<string>)
      reads this
      ensures src.Some? ==> canHover && activeHoverId == Some(r.id) && !ParseClip(parse, r.url).Unknown?
      ensures ShowPreview(r.id) && !ParseClip(parse, r.url).Unknown? ==> src.Some?
      ensures ShowPreview(r.id) ==> src == BuildEmbedSrc(parse, r.url, window, encode)
    {
      if ShowPreview(r.id) then BuildEmbedSrc(parse, r.url, window, encode) else None
    }

    /** `currentUrl`: the URL of the open row, null when no row is open. */
    function CurrentUrl(): (u: Option<string>)
      reads this
      ensures Valid() ==> (u.Some? <==> openIdx.Some?)
      ensures u.Some? ==> openIdx.Some? && openIdx.value < |rows| && u.value == rows[openIdx.value].url
    {
      if openIdx.Some? && openIdx.value < |rows| then Some(rows[openIdx.value].url) else None
    }

    /** What the overlay shows for the open row. */
    function Overlay(parse: Parser, window: Option<string>, encode: string -> string): (v: PlayerModal.View)
      reads this
      ensures openIdx.None? ==> v.Hidden?
    {
      PlayerModal.Render(parse, CurrentUrl(), window, encode)
    }
  }

  /** Entering a row and letting its timeout fire shows that row's preview, on a hovering device. */
  method EnterThenWait(v: LeaderboardView, id: string)
    requires v.Valid()
    modifies v
    ensures v.ShowPreview(id) <==> v.canHover
    ensures v.Valid()
  {
    v.RowEnter(id);
    v.TimerFires();
  }

  /** Leaving a row before its timeout fires cancels the preview: nothing new becomes active. */
  method EnterThenLeave(v: LeaderboardView, id: string)
    requires v.Valid() && (v.activeHoverId.None? || v.activeHoverId == Some(id))
    modifies v
    ensures v.activeHoverId.None? && v.hoverTimer.None?
    ensures v.Valid()
  {
    v.RowEnter(id);
    v.RowLeave(id);
    v.TimerFires();
  }
}
