/**
 * The URL vocabulary shared by the whole model. The WHATWG URL parser (`new URL`)
 * is not modelled: it is a parameter of type `Parser` that yields the fields of
 * the parsed record, or None where the constructor throws.
 */
module Urls {
  import opened Optional
  import opened Strings

  /**
   * The parts of a WHATWG URL record the application reads. `host` is `hostname`
   * followed by `:port` when there is one; `query` is the list of decoded
   * name/value pairs behind `searchParams`, in order.
   */
  datatype Url = Url(
    protocol: string,
    host: string,
    hostname: string,
    pathname: string,
    query: seq<(string, string)>)

  /** `new URL(s)`: the parsed record, or None where the constructor throws. */
  type Parser = string -> Option<Url>

  /**
   * `url.origin`: for the special schemes with a host, the scheme, "//" and the
   * host; "null" (an opaque origin) for every other scheme.
   */
  function Origin(u: Url): (o: string)
    ensures o != ""
    ensures o == "null" || HasPrefix(o, u.protocol + "//")
    ensures u.protocol in {"http:", "https:", "ws:", "wss:", "ftp:"} ==> o == u.protocol + "//" + u.host
    ensures u.protocol !in {"http:", "https:", "ws:", "wss:", "ftp:"} ==> o == "null"
  {
    if u.protocol in {"http:", "https:", "ws:", "wss:", "ftp:"} then u.protocol + "//" + u.host else "null"
  }

  /** `h.replace(/^www\./, "")`: one leading "www." removed, nothing else. */
  function StripWww(h: string): (r: string)
    ensures HasPrefix(h, "www.") ==> "www." + r == h
    ensures !HasPrefix(h, "www.") ==> r == h
  {
    if HasPrefix(h, "www.") then h[4..] else h
  }

  /** Only the first "www." goes: "www.www.x" becomes "www.x", not "x". */
  lemma StripWwwOnce(x: string)
    ensures StripWww("www." + x) == x
    ensures HasPrefix(x, "www.") ==> StripWww("www." + x) != StripWww(x)
  {
    assert ("www." + x)[..4] == "www.";
    assert ("www." + x)[4..] == x;
  }

  // ---------------------------------------------------------------------------
  // searchParams.get

  /** Index of the first pair called `name`. */
  function FindParam(q: seq<(string, string)>, name: string): (r: Option<nat>)
    ensures r.None? <==> forall i :: 0 <= i < |q| ==> q[i].0 != name
    ensures r.Some? ==> r.value < |q| && q[r.value].0 == name
    ensures r.Some? ==> forall j :: 0 <= j < r.value ==> q[j].0 != name
    decreases |q|
  {
    if q == [] then None
    else if q[0].0 == name then Some(0)
    else
      match FindParam(q[1..], name)
      case None => None
      case Some(k) => Some(k + 1)
  }

  /** `searchParams.get(name)`: the value of the first pair called `name`, null when none. */
  function GetParam(q: seq<(string, string)>, name: string): (r: Option<string>)
    ensures r.None? <==> forall i :: 0 <= i < |q| ==> q[i].0 != name
    ensures r.Some? ==> (name, r.value) in q
  {
    match FindParam(q, name)
    case None => None
    case Some(k) => Some(q[k].1)
  }

  /** A later pair never shadows an earlier one of the same name. */
  lemma GetParamFirst(q: seq<(string, string)>, name: string, value: string, rest: seq<(string, string)>)
    requires forall i :: 0 <= i < |q| ==> q[i].0 != name
    ensures GetParam(q + [(name, value)] + rest, name) == Some(value)
  {
    var all := q + [(name, value)] + rest;
    assert all[|q|] == (name, value);
    assert forall j :: 0 <= j < |q| ==> all[j] == q[j];
  }

  // ---------------------------------------------------------------------------
  // Reading the query of a URL string, as a browser does with an iframe `src`

  /** The query text of a URL string: after the first '?' of the part before any '#'. */
  function QueryText(s: string): string {
    After(Before(s, '#'), '?').GetOr("")
  }

  /** One `name=value` piece split at its first '='. */
  function PairOf(piece: string): (string, string) {
    match After(piece, '=')
    case None => (piece, "")
    case Some(v) => (Before(piece, '='), v)
  }

  /**
   * The name/value pairs a URL string carries in its query, in order, as
   * URLSearchParams lists them (without percent-decoding).
   */
  function Params(s: string): seq<(string, string)> {
    var pieces := NonEmpty(Split(QueryText(s), '&'));
    seq(|pieces|, i requires 0 <= i < |pieces| => PairOf(pieces[i]))
  }

  /** `new URL(s).searchParams.get(name)` for a URL string built by the application. */
  function Param(s: string, name: string): Option<string> {
    GetParam(Params(s), name)
  }

  function PairText(p: (string, string)): string {
    p.0 + "=" + p.1
  }

  /** `name1=value1&name2=value2&...`. */
  function QueryOf(pairs: seq<(string, string)>): string
    requires |pairs| >= 1
  {
    Join(seq(|pairs|, i requires 0 <= i < |pairs| => PairText(pairs[i])), '&')
  }

  /** A pair that can be written into a query and read back unchanged. */
  predicate SafePair(p: (string, string)) {
    p.0 != "" && '=' !in p.0 && '&' !in p.0 && '#' !in p.0 && '&' !in p.1 && '#' !in p.1
  }

  lemma {:induction false} JoinAvoids(parts: seq<string>, sep: char, c: char)
    requires |parts| >= 1 && c != sep
    requires forall i :: 0 <= i < |parts| ==> c !in parts[i]
    ensures c !in Join(parts, sep)
    decreases |parts|
  {
    if |parts| > 1 {
      JoinAvoids(parts[1..], sep, c);
    }
  }

  lemma {:induction false} NonEmptyKeepsAll(parts: seq<string>)
    requires forall i :: 0 <= i < |parts| ==> parts[i] != ""
    ensures NonEmpty(parts) == parts
    decreases |parts|
  {
    if parts != [] {
      NonEmptyKeepsAll(parts[1..]);
    }
  }

  lemma PairOfText(p: (string, string))
    requires '=' !in p.0
    ensures PairOf(PairText(p)) == p
  {
    var t := PairText(p);
    assert t == p.0 + ['='] + p.1;
    IndexOfConcat(p.0, '=', p.1);
    assert t[..|p.0|] == p.0 && t[|p.0| + 1..] == p.1;
  }

  /**
   * Writing safe pairs after a '?' and reading the query back gives the same
   * pairs: the query of `base?n1=v1&...` is exactly what was written.
   */
  lemma ParamsRoundTrip(base: string, pairs: seq<(string, string)>)
    requires '?' !in base && '#' !in base
    requires |pairs| >= 1 && forall i :: 0 <= i < |pairs| ==> SafePair(pairs[i])
    ensures Params(base + "?" + QueryOf(pairs)) == pairs
  {
    var texts := seq(|pairs|, i requires 0 <= i < |pairs| => PairText(pairs[i]));
    var q := QueryOf(pairs);
    var s := base + "?" + q;
    JoinAvoids(texts, '&', '#');
    assert '#' !in s;
    assert Before(s, '#') == s;
    IndexOfConcat(base, '?', q);
    assert s == base + ['?'] + q;
    assert QueryText(s) == q;
    JoinSplit(texts, '&');
    NonEmptyKeepsAll(texts);
    forall i | 0 <= i < |pairs| ensures PairOf(texts[i]) == pairs[i] {
      PairOfText(pairs[i]);
    }
  }

  /**
   * Whatever follows them, safe pairs written first after the '?' are the first
   * pairs read back: a later duplicate name never reaches `Param`.
   */
  lemma ParamsStartWith(prefix: string, lead: seq<(string, string)>, tail: string)
    requires '?' !in prefix && '#' !in prefix
    requires |lead| >= 1 && forall i :: 0 <= i < |lead| ==> SafePair(lead[i])
    ensures |lead| <= |Params(prefix + "?" + QueryOf(lead) + "&" + tail)|
    ensures Params(prefix + "?" + QueryOf(lead) + "&" + tail)[..|lead|] == lead
  {
    var s := prefix + "?" + QueryOf(lead) + "&" + tail;
    QueryTextAfterLead(prefix, lead, tail);
    PairsOfLead(lead, Before(tail, '#'));
    assert Params(s) == seq(|NonEmpty(Split(QueryText(s), '&'))|,
      i requires 0 <= i < |NonEmpty(Split(QueryText(s), '&'))| => PairOf(NonEmpty(Split(QueryText(s), '&'))[i]));
  }

  lemma QueryTextAfterLead(prefix: string, lead: seq<(string, string)>, tail: string)
    requires '?' !in prefix && '#' !in prefix
    requires |lead| >= 1 && forall i :: 0 <= i < |lead| ==> SafePair(lead[i])
    ensures QueryText(prefix + "?" + QueryOf(lead) + "&" + tail) == QueryOf(lead) + "&" + Before(tail, '#')
  {
    var texts := seq(|lead|, i requires 0 <= i < |lead| => PairText(lead[i]));
    var q := QueryOf(lead);
    var s := prefix + "?" + q + "&" + tail;
    JoinAvoids(texts, '&', '#');
    BeforeAppend(prefix + "?" + q + "&", '#', tail);
    assert s == (prefix + "?" + q + "&") + tail;
    var r := Before(tail, '#');
    assert Before(s, '#') == prefix + ['?'] + (q + "&" + r);
    IndexOfConcat(prefix, '?', q + "&" + r);
  }

  lemma PairsOfLead(lead: seq<(string, string)>, r: string)
    requires |lead| >= 1 && forall i :: 0 <= i < |lead| ==> SafePair(lead[i])
    ensures var pieces := NonEmpty(Split(QueryOf(lead) + "&" + r, '&'));
      |lead| <= |pieces| && forall i :: 0 <= i < |lead| ==> PairOf(pieces[i]) == lead[i]
  {
    var texts := seq(|lead|, i requires 0 <= i < |lead| => PairText(lead[i]));
    assert QueryOf(lead) + "&" + r == Join(texts, '&') + ['&'] + r;
    SplitJoinPrefix(texts, '&', r);
    NonEmptyKeepsAll(texts);
    NonEmptyAppend(texts, Split(r, '&'));
    var pieces := NonEmpty(Split(QueryOf(lead) + "&" + r, '&'));
    assert pieces[..|lead|] == texts;
    forall i | 0 <= i < |lead| ensures PairOf(pieces[i]) == lead[i] {
      assert pieces[i] == texts[i];
      PairOfText(lead[i]);
    }
  }

  /** `searchParams.get` answers from a prefix that already holds the name. */
  lemma GetParamPrefix(q: seq<(string, string)>, lead: seq<(string, string)>, name: string)
    requires |lead| <= |q| && q[..|lead|] == lead
    requires GetParam(lead, name).Some?
    ensures GetParam(q, name) == GetParam(lead, name)
  {
    var k := FindParam(lead, name).value;
    assert q[k] == lead[k];
    forall j | 0 <= j < k ensures q[j].0 != name {
      assert q[j] == lead[j];
    }
  }

  lemma QueryOfOne(p: (string, string))
    ensures QueryOf([p]) == PairText(p)
  {
  }

  lemma QueryOfCons(p: (string, string), rest: seq<(string, string)>)
    requires |rest| >= 1
    ensures QueryOf([p] + rest) == PairText(p) + "&" + QueryOf(rest)
  {
    var texts := seq(|rest| + 1, i requires 0 <= i < |rest| + 1 => PairText(([p] + rest)[i]));
    var tail := seq(|rest|, i requires 0 <= i < |rest| => PairText(rest[i]));
    assert texts[1..] == tail;
  }

  lemma QueryOfThree(a: (string, string), b: (string, string), c: (string, string))
    ensures QueryOf([a, b, c]) == PairText(a) + "&" + PairText(b) + "&" + PairText(c)
  {
    QueryOfOne(c);
    QueryOfCons(b, [c]);
    assert [b] + [c] == [b, c];
    QueryOfCons(a, [b, c]);
    assert [a] + [b, c] == [a, b, c];
  }

  /** The query of two lists of pairs written one after the other. */
  lemma {:induction false} QueryOfAppend(a: seq<(string, string)>, b: seq<(string, string)>)
    requires |a| >= 1 && |b| >= 1
    ensures QueryOf(a + b) == QueryOf(a) + "&" + QueryOf(b)
    decreases |a|
  {
    if |a| == 1 {
      QueryOfOne(a[0]);
      QueryOfCons(a[0], b);
      assert [a[0]] == a;
    } else {
      QueryOfAppend(a[1..], b);
      QueryOfCons(a[0], a[1..]);
      QueryOfCons(a[0], a[1..] + b);
      assert [a[0]] + a[1..] == a;
      assert [a[0]] + (a[1..] + b) == a + b;
    }
  }
}
