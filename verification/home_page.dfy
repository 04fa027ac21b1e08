/**
 * The time arithmetic of the home page, src/app/page.tsx: the cut-off instants
 * of its "last 24 hours" and "last 7 days" sections and its `timeAgo` labels.
 */
module HomePage {
  import opened Decimal
  import opened Rows

  const Day: int := 24 * 60 * 60 * 1000

  /** The two cut-offs for `now`, in milliseconds: 24 hours and 7 days earlier. */
  function Cutoffs(now: int): (c: (int, int))
    ensures now - c.0 == 86400000
    ensures now - c.1 == 7 * (now - c.0)
    ensures c.1 < c.0 < now
  {
    (now - Day, now - 7 * Day)
  }

  /** From two days on, the label counts whole days: floor(floor(m / 60) / 24) is floor(elapsed / 86400000). */
  lemma DaysLabel(elapsed: int)
    requires elapsed >= 2 * Day
    ensures TimeAgo(elapsed) == IntToString(elapsed / Day) + "d"
  {
    var m := elapsed / 60000;
    var h := m / 60;
    assert h == elapsed / 3600000;
    assert h / 24 == elapsed / Day;
  }

  /** Below one hour, and for a creation date in the future, the label counts minutes, negative ones included. */
  lemma MinutesLabel(elapsed: int)
    requires elapsed < 60 * 60 * 1000
    ensures TimeAgo(elapsed) == IntToString(elapsed / 60000) + "m"
    ensures elapsed < 0 ==> TimeAgo(elapsed)[0] == '-'
  {
    assert TimeAgo(elapsed) == AgeText(AgeOf(elapsed));
    if elapsed < 0 {
      assert elapsed / 60000 < 0;
    }
  }
}
