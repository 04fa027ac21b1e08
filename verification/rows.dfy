/**
 * The clip row the pages read from the database and the display helpers they
 * share. `domainFrom` and `timeAgo` are written out three times in the source
 * (LeaderboardClient.tsx, FeedListClient.tsx and app/page.tsx) with identical
 * bodies; they are defined once here.
 */
module Rows {
  import opened Optional
  import opened Strings
  import opened Decimal
  import opened Urls
  import opened ClipParser

  /** A row of the `clips` table as the pages select it (`created_at` enters as elapsed milliseconds). */
  datatype Row = Row(
    id: string,
    title: Option<string>,
    url: string,
    authorName: Option<string>,
    votes: Option<int>)

  /** What an insert into the hosted database reports: success, or an error with its code and message. */
  datatype InsertResult = InsertOk | InsertErr(code: string, message: string)

  // ---------------------------------------------------------------------------
  // domainFrom

  /** `domainFrom(url)`: the host name without one leading "www.", "" when the URL does not parse. */
  function DomainFrom(parse: Parser, url: string): (d: string)
    ensures parse(url).None? ==> d == ""
    ensures parse(url).Some? ==> d == StripWww(parse(url).value.hostname)
  {
    match parse(url)
    case None => ""
    case Some(u) => StripWww(u.hostname)
  }

  /** The domain shown for an embeddable clip is one of the three hosts the classifier accepts. */
  lemma DomainOfClassifiedClip(parse: Parser, url: string)
    requires !ParseClip(parse, url).Unknown?
    ensures DomainFrom(parse, url) in {"youtube.com", "youtu.be", "clips.twitch.tv"}
  {
  }

  // ---------------------------------------------------------------------------
  // timeAgo

  /** The three buckets of `timeAgo`, with the count it prints. */
  datatype Age = Minutes(m: int) | Hours(h: int) | Days(d: int)

  /**
   * The bucket for `elapsed` milliseconds: m = floor(elapsed / 60000) minutes
   * below 60 (negative for a future date), otherwise h = floor(m / 60) hours below
   * 48, otherwise floor(h / 24) days.
   */
  function AgeOf(elapsed: int): (a: Age)
    ensures a.Minutes? <==> elapsed < 3600000
    ensures a.Minutes? ==> a.m == elapsed / 60000 && a.m < 60
    ensures a.Hours? <==> 3600000 <= elapsed < 172800000
    ensures a.Hours? ==> 1 <= a.h < 48 && a.h == elapsed / 3600000
    ensures a.Days? ==> a.d >= 2 && a.d == elapsed / 86400000
  {
    var m := elapsed / 60000;
    if m < 60 then Minutes(m)
    else
      var h := m / 60;
      if h < 48 then Hours(h) else Days(h / 24)
  }

  /** The text `timeAgo` shows for a bucket: the count, then "m", "h" or "d". */
  function AgeText(a: Age): string {
    match a
    case Minutes(m) => IntToString(m) + "m"
    case Hours(h) => IntToString(h) + "h"
    case Days(d) => IntToString(d) + "d"
  }

  /** Reading a `timeAgo` text back into its bucket. */
  function ReadAge(s: string): Option<Age> {
    if s == [] || !IsIntText(s[..|s| - 1]) then None
    else
      var n := ParseInt(s[..|s| - 1]);
      match s[|s| - 1]
      case 'm' => Some(Minutes(n))
      case 'h' => Some(Hours(n))
      case 'd' => Some(Days(n))
      case _ => None
  }

  /** `timeAgo` for `elapsed` = now − created milliseconds: its text reads back as the bucket AgeOf picks. */
  function TimeAgo(elapsed: int): (s: string)
    ensures ReadAge(s) == Some(AgeOf(elapsed))
  {
    var a := AgeOf(elapsed);
    var n := match a case Minutes(m) => m case Hours(h) => h case Days(d) => d;
    IntToStringRoundTrip(n);
    assert (IntToString(n) + "m")[..|IntToString(n)|] == IntToString(n);
    assert (IntToString(n) + "h")[..|IntToString(n)|] == IntToString(n);
    assert (IntToString(n) + "d")[..|IntToString(n)|] == IntToString(n);
    AgeText(a)
  }

  /** Two elapsed times show the same text exactly when they fall in the same bucket with the same count. */
  lemma TimeAgoInjective(e1: int, e2: int)
    ensures TimeAgo(e1) == TimeAgo(e2) <==> AgeOf(e1) == AgeOf(e2)
  {
    if AgeOf(e1) == AgeOf(e2) {
      assert TimeAgo(e1) == AgeText(AgeOf(e1));
    }
  }

  // ---------------------------------------------------------------------------
  // Row fields with their display defaults

  /** `r.title || "Untitled"`: a missing or empty title shows "Untitled"; any other title is shown as is. */
  function TitleShown(title: Option<string>): (t: string)
    ensures t != ""
    ensures title.Some? && title.value != "" ==> t == title.value
    ensures title.None? || title.value == "" ==> t == "Untitled"
  {
    if title.None? || title.value == "" then "Untitled" else title.value
  }

  /** `r.votes ?? 0`. */
  function VotesShown(votes: Option<int>): (n: int)
    ensures votes.None? ==> n == 0
    ensures votes.Some? ==> n == votes.value
  {
    votes.GetOr(0)
  }
}
