/**
 * The player overlay of src/components/PlayerModal.tsx: from the URL of the open
 * clip to what the overlay shows (nothing, an embedded player, or a link out).
 */
module PlayerModal {
  import opened Optional
  import opened Urls
  import opened ClipParser
  import opened Embeds

  /** What the component renders. */
  datatype View =
    | Hidden                    // `return null`
    | Player(src: string)       // an iframe with this `src`
    | OpenExternally(href: string)  // the "open at the source" fallback link

  /** `window.location.hostname`, or "localhost" when rendering without a window. */
  function ParentHost(window: Option<string>): string {
    window.GetOr("localhost")
  }

  /** The `let src` chain: the player address for a classified clip, "" for an unknown one. */
  function PlayerSrc(p: Parsed, window: Option<string>, encode: string -> string): (src: string)
    ensures src == "" <==> p.Unknown?
  {
    match p
    case YouTube(id) => YouTubeEmbedBase + id + "?autoplay=1" + "&rel=0" + "&modestbranding=1"
    case TwitchClip(id) =>
      TwitchEmbedBase + "?clip=" + id + "&parent=" + encode(ParentHost(window)) + "&autoplay=true"
    case Unknown => ""
  }

  /**
   * The component for `url`: nothing for a null or empty URL; a player when the
   * clip is embeddable (`src.length > 0`); otherwise a link to the URL unchanged.
   */
  function Render(parse: Parser, url: Option<string>, window: Option<string>, encode: string -> string): (v: View)
    ensures v.Hidden? <==> url.None? || url.value == ""
    ensures v.Player? <==> url.Some? && url.value != "" && !ParseClip(parse, url.value).Unknown?
    ensures v.OpenExternally? ==> url.Some? && v.href == url.value
  {
    if url.None? || url.value == "" then Hidden
    else
      var src := PlayerSrc(ParseClip(parse, url.value), window, encode);
      var embeddable := |src| > 0;
      if embeddable then Player(src) else OpenExternally(url.value)
  }

  /** An id that cannot end the path of a player address early ('?' and '#' would start its query or fragment). */
  predicate PathSafe(id: string) {
    '?' !in id && '#' !in id
  }

  /** An id or parameter value that cannot end its query value early. */
  predicate ValueSafe(s: string) {
    '&' !in s && '#' !in s
  }

  /** The YouTube player's address is its base and id followed by three query pairs. */
  lemma YouTubeSrcShape(id: string, window: Option<string>, encode: string -> string)
    ensures PlayerSrc(YouTube(id), window, encode)
      == YouTubeEmbedBase + id + "?" + QueryOf([("autoplay", "1"), ("rel", "0"), ("modestbranding", "1")])
  {
    YouTubePlayerPieces();
    QueryOfThree(("autoplay", "1"), ("rel", "0"), ("modestbranding", "1"));
    RegroupPairs(YouTubeEmbedBase + id, PairText(("autoplay", "1")), PairText(("rel", "0")), PairText(("modestbranding", "1")));
  }

  lemma YouTubePlayerPieces()
    ensures "?autoplay=1" == "?" + PairText(("autoplay", "1"))
    ensures "&rel=0" == "&" + PairText(("rel", "0"))
    ensures "&modestbranding=1" == "&" + PairText(("modestbranding", "1"))
  {
  }

  /** Re-associates the concatenation, so that the query pieces line up with `QueryOf` for the verifier. */
  lemma RegroupPairs(x: string, p0: string, p1: string, p2: string)
    ensures x + ("?" + p0) + ("&" + p1) + ("&" + p2) == x + "?" + (p0 + "&" + p1 + "&" + p2)
  {
  }

  /** Looking up three pairs with distinct names, and a fourth name that is none of them. */
  lemma ThreePairsLookup(n1: string, v1: string, n2: string, v2: string, n3: string, v3: string, other: string)
    requires n1 != n2 && n1 != n3 && n2 != n3 && other != n1 && other != n2 && other != n3
    ensures var q := [(n1, v1), (n2, v2), (n3, v3)];
      && GetParam(q, n1) == Some(v1) && GetParam(q, n2) == Some(v2) && GetParam(q, n3) == Some(v3)
      && GetParam(q, other) == None
  {
    var q := [(n1, v1), (n2, v2), (n3, v3)];
    GetParamFirst([], n1, v1, q[1..]);
    assert [] + [(n1, v1)] + q[1..] == q;
    GetParamFirst(q[..1], n2, v2, q[2..]);
    assert q[..1] + [(n2, v2)] + q[2..] == q;
    GetParamFirst(q[..2], n3, v3, []);
    assert q[..2] + [(n3, v3)] + [] == q;
  }

  /** Reading the YouTube player's query back gives exactly the three pairs written. */
  lemma YouTubePlayerPairs(id: string, window: Option<string>, encode: string -> string)
    requires PathSafe(id)
    ensures Params(PlayerSrc(YouTube(id), window, encode)) == [("autoplay", "1"), ("rel", "0"), ("modestbranding", "1")]
  {
    var pairs := [("autoplay", "1"), ("rel", "0"), ("modestbranding", "1")];
    assert forall i :: 0 <= i < |pairs| ==> SafePair(pairs[i]);
    BasesHaveNoDelimiters();
    YouTubeSrcShape(id, window, encode);
    ParamsRoundTrip(YouTubeEmbedBase + id, pairs);
  }

  /**
   * The YouTube player autoplays and asks for no muting: its query has
   * autoplay=1, rel=0 and modestbranding=1 and no `mute` parameter.
   */
  lemma YouTubePlayerQuery(id: string, window: Option<string>, encode: string -> string)
    requires PathSafe(id)
    ensures var src := PlayerSrc(YouTube(id), window, encode);
      && Param(src, "autoplay") == Some("1")
      && Param(src, "rel") == Some("0")
      && Param(src, "modestbranding") == Some("1")
      && Param(src, "mute") == None
  {
    var src := PlayerSrc(YouTube(id), window, encode);
    YouTubePlayerPairs(id, window, encode);
    ThreePairsLookup("autoplay", "1", "rel", "0", "modestbranding", "1", "mute");
    assert Params(src) == [("autoplay", "1"), ("rel", "0"), ("modestbranding", "1")];
  }

  /** The Twitch player's address is its base followed by three query pairs. */
  lemma TwitchSrcShape(id: string, window: Option<string>, encode: string -> string)
    ensures PlayerSrc(TwitchClip(id), window, encode)
      == TwitchEmbedBase + "?" + QueryOf([("clip", id), ("parent", encode(ParentHost(window))), ("autoplay", "true")])
  {
    var parent := encode(ParentHost(window));
    assert "?clip=" == "?" + "clip" + "=";
    assert "&parent=" == "&" + "parent" + "=";
    assert "&autoplay=true" == "&" + PairText(("autoplay", "true"));
    RegroupThree(TwitchEmbedBase, "clip", id, "parent", parent, PairText(("autoplay", "true")));
    QueryOfThree(("clip", id), ("parent", parent), ("autoplay", "true"));
  }

  /** Re-associates the concatenation, so that the query pieces line up with `QueryOf` for the verifier. */
  lemma RegroupThree(x: string, k0: string, v0: string, k1: string, v1: string, p2: string)
    ensures x + ("?" + k0 + "=") + v0 + ("&" + k1 + "=") + v1 + ("&" + p2)
         == x + "?" + ((k0 + "=" + v0) + "&" + (k1 + "=" + v1) + "&" + p2)
  {
  }

  /** Reading the Twitch player's query back gives exactly the three pairs written. */
  lemma TwitchPlayerPairs(id: string, window: Option<string>, encode: string -> string)
    requires ValueSafe(id) && ValueSafe(encode(ParentHost(window)))
    ensures Params(PlayerSrc(TwitchClip(id), window, encode))
      == [("clip", id), ("parent", encode(ParentHost(window))), ("autoplay", "true")]
  {
    var pairs := [("clip", id), ("parent", encode(ParentHost(window))), ("autoplay", "true")];
    assert forall i :: 0 <= i < |pairs| ==> SafePair(pairs[i]);
    BasesHaveNoDelimiters();
    TwitchSrcShape(id, window, encode);
    ParamsRoundTrip(TwitchEmbedBase, pairs);
  }

  /**
   * The Twitch player names the clip and the embedding page: `clip` is the slug,
   * `parent` the encoded host name, autoplay=true, and there is no `muted` parameter.
   */
  lemma TwitchPlayerQuery(id: string, window: Option<string>, encode: string -> string)
    requires ValueSafe(id) && ValueSafe(encode(ParentHost(window)))
    ensures var src := PlayerSrc(TwitchClip(id), window, encode);
      && Param(src, "clip") == Some(id)
      && Param(src, "parent") == Some(encode(ParentHost(window)))
      && Param(src, "autoplay") == Some("true")
      && Param(src, "muted") == None
  {
    var src := PlayerSrc(TwitchClip(id), window, encode);
    var parent := encode(ParentHost(window));
    TwitchPlayerPairs(id, window, encode);
    ThreePairsLookup("clip", id, "parent", parent, "autoplay", "true", "muted");
    assert Params(src) == [("clip", id), ("parent", parent), ("autoplay", "true")];
  }
}
