/**
 * The JavaScript string operations the application relies on: `split` with a
 * one-character separator, `filter(Boolean)`, `[0]` of an array, `indexOf`
 * and `trim`, each with the facts the rest of the model needs.
 */
module Strings {
  import opened Optional

  /** Every character of `s` is `c`. */
  predicate AllChar(s: string, c: char) {
    forall i :: 0 <= i < |s| ==> s[i] == c
  }

  /** `s.startsWith(p)`. */
  predicate HasPrefix(s: string, p: string) {
    |p| <= |s| && s[..|p|] == p
  }

  // ---------------------------------------------------------------------------
  // split / join

  /** `s.split(sep)` for a one-character separator: the maximal pieces between separators. */
  function Split(s: string, sep: char): (parts: seq<string>)
    ensures |parts| >= 1
    ensures forall i :: 0 <= i < |parts| ==> sep !in parts[i]
    decreases |s|
  {
    if s == [] then [""]
    else
      var rest := Split(s[1..], sep);
      if s[0] == sep then [""] + rest
      else [[s[0]] + rest[0]] + rest[1..]
  }

  /** `parts.join(sep)`. */
  function Join(parts: seq<string>, sep: char): string
    requires |parts| >= 1
    decreases |parts|
  {
    if |parts| == 1 then parts[0] else parts[0] + [sep] + Join(parts[1..], sep)
  }

  lemma {:induction false} SplitNoSep(a: string, sep: char)
    requires sep !in a
    ensures Split(a, sep) == [a]
    decreases |a|
  {
    if a != [] {
      SplitNoSep(a[1..], sep);
      assert [a[0]] + a[1..] == a;
    }
  }

  lemma {:induction false} SplitConcat(a: string, sep: char, b: string)
    requires sep !in a
    ensures Split(a + [sep] + b, sep) == [a] + Split(b, sep)
    decreases |a|
  {
    var s := a + [sep] + b;
    if a == [] {
      assert s[1..] == b;
    } else {
      assert s[1..] == a[1..] + [sep] + b;
      SplitConcat(a[1..], sep, b);
      assert [a[0]] + a[1..] == a;
    }
  }

  /** Splitting and joining again gives back the original string. */
  lemma {:induction false} SplitJoin(s: string, sep: char)
    ensures Join(Split(s, sep), sep) == s
    decreases |s|
  {
    match IndexOf(s, sep)
    case None =>
      SplitNoSep(s, sep);
    case Some(k) =>
      var a, b := s[..k], s[k + 1..];
      assert s == a + [sep] + b;
      SplitConcat(a, sep, b);
      SplitJoin(b, sep);
      assert ([a] + Split(b, sep))[1..] == Split(b, sep);
  }

  /** Joining pieces that contain no separator and splitting again gives back the pieces. */
  lemma {:induction false} JoinSplit(parts: seq<string>, sep: char)
    requires |parts| >= 1
    requires forall i :: 0 <= i < |parts| ==> sep !in parts[i]
    ensures Split(Join(parts, sep), sep) == parts
    decreases |parts|
  {
    if |parts| == 1 {
      SplitNoSep(parts[0], sep);
    } else {
      JoinSplit(parts[1..], sep);
      SplitConcat(parts[0], sep, Join(parts[1..], sep));
      assert [parts[0]] + parts[1..] == parts;
    }
  }

  /** Splitting joined pieces followed by more text gives the pieces, then the pieces of that text. */
  lemma {:induction false} SplitJoinPrefix(parts: seq<string>, sep: char, r: string)
    requires |parts| >= 1
    requires forall i :: 0 <= i < |parts| ==> sep !in parts[i]
    ensures Split(Join(parts, sep) + [sep] + r, sep) == parts + Split(r, sep)
    decreases |parts|
  {
    if |parts| == 1 {
      SplitConcat(parts[0], sep, r);
    } else {
      var rest := Join(parts[1..], sep);
      JoinThenMore(parts, sep, r);
      SplitConcat(parts[0], sep, rest + [sep] + r);
      SplitJoinPrefix(parts[1..], sep, r);
      ConsThenAppend(parts, Split(r, sep));
    }
  }

  lemma JoinThenMore(parts: seq<string>, sep: char, r: string)
    requires |parts| >= 2
    ensures Join(parts, sep) + [sep] + r == parts[0] + [sep] + (Join(parts[1..], sep) + [sep] + r)
  {
  }

  lemma ConsThenAppend<T>(xs: seq<T>, ys: seq<T>)
    requires |xs| >= 1
    ensures [xs[0]] + (xs[1..] + ys) == xs + ys
  {
  }

  // ---------------------------------------------------------------------------
  // filter(Boolean) and [0]

  /** `parts.filter(Boolean)`: the non-empty strings, in order. */
  function NonEmpty(parts: seq<string>): (r: seq<string>)
    ensures forall i :: 0 <= i < |r| ==> r[i] != "" && r[i] in parts
    ensures |r| <= |parts|
    decreases |parts|
  {
    if parts == [] then []
    else if parts[0] == "" then NonEmpty(parts[1..])
    else [parts[0]] + NonEmpty(parts[1..])
  }

  /** A single piece is kept exactly when it is non-empty. */
  lemma NonEmptyOne(x: string)
    ensures NonEmpty([x]) == if x == "" then [] else [x]
  {
    assert [x][1..] == [];
  }

  /** `filter(Boolean)` works piece by piece: with `NonEmptyOne` this fixes it on every list, order included. */
  lemma {:induction false} NonEmptyAppend(a: seq<string>, b: seq<string>)
    ensures NonEmpty(a + b) == NonEmpty(a) + NonEmpty(b)
    decreases |a|
  {
    if a == [] {
      assert a + b == b;
    } else {
      assert (a + b)[1..] == a[1..] + b;
      NonEmptyAppend(a[1..], b);
    }
  }

  /** `xs[0]` of a JavaScript array, `undefined` (None) when empty. */
  function Head<T>(xs: seq<T>): Option<T> {
    if xs == [] then None else Some(xs[0])
  }

  // ---------------------------------------------------------------------------
  // indexOf and the pieces around the first occurrence

  /** `s.indexOf(c)`, None for -1. */
  function IndexOf(s: string, c: char): (r: Option<nat>)
    ensures r.None? <==> c !in s
    ensures r.Some? ==> r.value < |s| && s[r.value] == c && c !in s[..r.value]
    decreases |s|
  {
    if s == [] then None
    else if s[0] == c then Some(0)
    else
      match IndexOf(s[1..], c)
      case None => None
      case Some(k) =>
        assert s[..k + 1] == [s[0]] + s[1..][..k];
        Some(k + 1)
  }

  lemma IndexOfConcat(a: string, c: char, b: string)
    requires c !in a
    ensures IndexOf(a + [c] + b, c) == Some(|a|)
  {
    var s := a + [c] + b;
    assert s[|a|] == c && s[..|a|] == a;
  }

  /** The text before the first `c`, or all of `s` when there is none. */
  function Before(s: string, c: char): (r: string)
    ensures c !in r && HasPrefix(s, r)
  {
    match IndexOf(s, c)
    case None => s
    case Some(k) => s[..k]
  }

  /** A prefix free of `c` is kept whole by `Before`. */
  lemma BeforeAppend(a: string, c: char, b: string)
    requires c !in a
    ensures Before(a + b, c) == a + Before(b, c)
  {
    match IndexOf(b, c)
    case None =>
      assert c !in a + b;
    case Some(k) =>
      assert a + b == (a + b[..k]) + [c] + b[k + 1..];
      IndexOfConcat(a + b[..k], c, b[k + 1..]);
      assert (a + b)[..|a| + k] == a + b[..k];
  }

  /** The text after the first `c`, None when there is none. */
  function After(s: string, c: char): (r: Option<string>)
    ensures r.None? <==> c !in s
    ensures r.Some? ==> s == Before(s, c) + [c] + r.value
  {
    match IndexOf(s, c)
    case None => None
    case Some(k) => Some(s[k + 1..])
  }

  /** The prefix of `s` made of the character `c`, dropped. */
  function DropLeading(s: string, c: char): (r: string)
    ensures |r| <= |s| && s == s[..|s| - |r|] + r
    ensures AllChar(s[..|s| - |r|], c)
    ensures r == [] || r[0] != c
    decreases |s|
  {
    if s != [] && s[0] == c then
      var r := DropLeading(s[1..], c);
      DropLeadingStep(s, c, r);
      r
    else s
  }

  lemma DropLeadingStep(s: string, c: char, r: string)
    requires s != [] && s[0] == c
    requires |r| <= |s| - 1 && s[1..] == s[1..][..|s| - 1 - |r|] + r && AllChar(s[1..][..|s| - 1 - |r|], c)
    ensures s == s[..|s| - |r|] + r && AllChar(s[..|s| - |r|], c)
  {
    var head := s[..|s| - |r|];
    var tail := s[1..][..|s| - 1 - |r|];
    assert head == [c] + tail;
    forall i | 0 <= i < |head| ensures head[i] == c {
      if i > 0 {
        assert head[i] == tail[i - 1];
      }
    }
  }

  // ---------------------------------------------------------------------------
  // trim

  /**
   * The characters JavaScript's `trim` removes: the WhiteSpace and LineTerminator
   * code points of section 12.2 and 12.3 of ECMA-262.
   */
  predicate IsJsWhitespace(c: char) {
    c == '\t' || c == '\n' || c == '\U{000B}' || c == '\U{000C}' || c == '\r' || c == ' '
    || c == '\U{00A0}' || c == '\U{1680}' || ('\U{2000}' <= c <= '\U{200A}')
    || c == '\U{2028}' || c == '\U{2029}' || c == '\U{202F}' || c == '\U{205F}'
    || c == '\U{3000}' || c == '\U{FEFF}'
  }

  predicate AllWhitespace(s: string) {
    forall i :: 0 <= i < |s| ==> IsJsWhitespace(s[i])
  }

  /** `s` neither starts nor ends with whitespace. */
  predicate Trimmed(s: string) {
    s == [] || (!IsJsWhitespace(s[0]) && !IsJsWhitespace(s[|s| - 1]))
  }

  /** `s` without its leading whitespace. */
  function TrimStart(s: string): (r: string)
    decreases |s|
  {
    if s != [] && IsJsWhitespace(s[0]) then TrimStart(s[1..]) else s
  }

  /** `s` without its trailing whitespace. */
  function TrimEnd(s: string): (r: string)
    decreases |s|
  {
    if s != [] && IsJsWhitespace(s[|s| - 1]) then TrimEnd(s[..|s| - 1]) else s
  }

  /** `TrimStart` removes a whitespace prefix, and exactly the longest one. */
  lemma {:induction false} TrimStartSpec(s: string)
    ensures var r := TrimStart(s);
      && |r| <= |s| && r == s[|s| - |r|..]
      && AllWhitespace(s[..|s| - |r|])
      && (r == [] || !IsJsWhitespace(r[0]))
    decreases |s|
  {
    if s != [] && IsJsWhitespace(s[0]) {
      TrimStartSpec(s[1..]);
      TrimStartStep(s, TrimStart(s[1..]));
    }
  }

  /** `TrimEnd` removes a whitespace suffix, and exactly the longest one. */
  lemma {:induction false} TrimEndSpec(s: string)
    ensures var r := TrimEnd(s);
      && |r| <= |s| && r == s[..|r|]
      && AllWhitespace(s[|r|..])
      && (r == [] || !IsJsWhitespace(r[|r| - 1]))
    decreases |s|
  {
    if s != [] && IsJsWhitespace(s[|s| - 1]) {
      TrimEndSpec(s[..|s| - 1]);
      TrimEndStep(s, TrimEnd(s[..|s| - 1]));
    }
  }

  lemma TrimStartStep(s: string, r: string)
    requires s != [] && IsJsWhitespace(s[0])
    requires |r| <= |s| - 1 && r == s[1..][|s| - 1 - |r|..] && AllWhitespace(s[1..][..|s| - 1 - |r|])
    ensures r == s[|s| - |r|..] && AllWhitespace(s[..|s| - |r|])
  {
    assert s[1..][|s| - 1 - |r|..] == s[|s| - |r|..];
    var head := s[..|s| - |r|];
    var tail := s[1..][..|s| - 1 - |r|];
    forall i | 0 <= i < |head| ensures IsJsWhitespace(head[i]) {
      if i > 0 {
        assert head[i] == tail[i - 1];
      }
    }
  }

  lemma TrimEndStep(s: string, r: string)
    requires s != [] && IsJsWhitespace(s[|s| - 1])
    requires |r| <= |s| - 1 && r == s[..|s| - 1][..|r|] && AllWhitespace(s[..|s| - 1][|r|..])
    ensures r == s[..|r|] && AllWhitespace(s[|r|..])
  {
    assert s[..|s| - 1][..|r|] == s[..|r|];
    var gone := s[|r|..];
    var prev := s[..|s| - 1][|r|..];
    forall i | 0 <= i < |gone| ensures IsJsWhitespace(gone[i]) {
      if i < |prev| {
        assert gone[i] == prev[i];
      }
    }
  }

  /** `s.trim()`: `s` with its leading and trailing whitespace removed. */
  function Trim(s: string): (r: string)
    ensures Trimmed(r)
    ensures r == [] <==> AllWhitespace(s)
  {
    TrimFacts(s);
    TrimEnd(TrimStart(s))
  }

  lemma TrimFacts(s: string)
    ensures Trimmed(TrimEnd(TrimStart(s)))
    ensures TrimEnd(TrimStart(s)) == [] <==> AllWhitespace(s)
  {
    var t := TrimStart(s);
    var r := TrimEnd(t);
    TrimStartSpec(s);
    TrimEndSpec(t);
    var i := |s| - |t|;
    assert t == s[i..];
    if r != [] {
      assert r[0] == t[0];
      assert s[i] == t[0];
    } else {
      assert t[|r|..] == t;
      WhitespaceJoin(s, i);
    }
  }

  lemma WhitespaceJoin(s: string, i: nat)
    requires i <= |s| && AllWhitespace(s[..i]) && AllWhitespace(s[i..])
    ensures AllWhitespace(s)
  {
    var front, back := s[..i], s[i..];
    forall k | 0 <= k < |s| ensures IsJsWhitespace(s[k]) {
      if k < i {
        assert s[k] == front[k];
      } else {
        assert s[k] == back[k - i];
      }
    }
  }

  /** Trimming a trimmed string changes nothing; in particular `trim` is idempotent. */
  lemma TrimOfTrimmed(s: string)
    requires Trimmed(s)
    ensures Trim(s) == s
  {
  }

  lemma TrimIdempotent(s: string)
    ensures Trim(Trim(s)) == Trim(s)
  {
    TrimOfTrimmed(Trim(s));
  }
}
