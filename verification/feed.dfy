/**
 * The clip list of src/components/FeedListClient.tsx: badges, thumbnails, the
 * optimistic upvote with its rollback, and the open row.
 */
module Feed {
  import opened Optional
  import opened Urls
  import opened ClipParser
  import opened Rows
  import opened Navigation
  import Leaderboard
  import PlayerModal

  // ---------------------------------------------------------------------------
  // Badges

  const NewWindow: int := 2 * 60 * 60 * 1000
  const HotThreshold: int := 25

  /** `isNew`: the clip was created less than two hours before now. */
  predicate IsNew(elapsed: int) {
    elapsed < NewWindow
  }

  /** A clip is new exactly when `timeAgo` shows it in minutes, or as "1h". */
  lemma IsNewByAge(elapsed: int)
    ensures IsNew(elapsed) <==> AgeOf(elapsed).Minutes? || (AgeOf(elapsed).Hours? && AgeOf(elapsed).h < 2)
  {
    if 3600000 <= elapsed < 172800000 {
      assert AgeOf(elapsed).h == elapsed / 3600000;
      assert elapsed < 7200000 <==> elapsed / 3600000 < 2;
    }
  }

  /** The HOT badge: `(votes ?? 0) >= 25`. */
  predicate IsHot(votes: Option<int>) {
    VotesShown(votes) >= HotThreshold
  }

  /** A vote never takes the HOT badge away, and the 25th vote earns it. */
  lemma HotAfterIncrement(r: Row)
    ensures IsHot(r.votes) ==> IsHot(Increment(r).votes)
    ensures VotesShown(r.votes) == HotThreshold - 1 ==> IsHot(Increment(r).votes)
  {
  }

  // ---------------------------------------------------------------------------
  // thumbFrom

  /**
   * `thumbFrom(url)`: the YouTube still when the clip is YouTube with a non-empty
   * id, otherwise the origin's favicon, "/favicon.ico" when the URL does not parse.
   */
  function ThumbFrom(parse: Parser, url: string): (t: string)
    ensures t == Leaderboard.GetThumb(parse, url)
  {
    var p := ParseClip(parse, url);
    if p.YouTube? && p.id != "" then Leaderboard.YouTubeThumb(p.id)
    else
      match parse(url)
      case Some(u) => Origin(u) + Leaderboard.FaviconPath
      case None => Leaderboard.FaviconPath
  }

  // ---------------------------------------------------------------------------
  // The optimistic vote

  /** `{...r, votes: (r.votes ?? 0) + 1}`. */
  function Increment(r: Row): (s: Row)
    ensures s.votes == Some(VotesShown(r.votes) + 1)
    ensures s.(votes := r.votes) == r
  {
    r.(votes := Some(VotesShown(r.votes) + 1))
  }

  /** `{...r, votes: Math.max(0, (r.votes ?? 1) - 1)}`. */
  function Decrement(r: Row): (s: Row)
    ensures s.votes.Some? && s.votes.value >= 0
    ensures r.votes.Some? && r.votes.value >= 1 ==> s.votes == Some(r.votes.value - 1)
    ensures r.votes.None? || r.votes.value <= 1 ==> s.votes == Some(0)
    ensures s.(votes := r.votes) == r
  {
    var n := r.votes.GetOr(1) - 1;
    r.(votes := Some(if n > 0 then n else 0))
  }

  /** The optimistic update: every row with id `clipId` gets one more vote. */
  function IncrementVotes(rows: seq<Row>, clipId: string): (out: seq<Row>)
    ensures |out| == |rows|
    ensures forall i :: 0 <= i < |rows| ==> out[i] == if rows[i].id == clipId then Increment(rows[i]) else rows[i]
  {
    seq(|rows|, i requires 0 <= i < |rows| => if rows[i].id == clipId then Increment(rows[i]) else rows[i])
  }

  /** The rollback after a failed insert: every row with id `clipId` loses one vote, never going below 0. */
  function RollbackVotes(rows: seq<Row>, clipId: string): (out: seq<Row>)
    ensures |out| == |rows|
    ensures forall i :: 0 <= i < |rows| ==> out[i] == if rows[i].id == clipId then Decrement(rows[i]) else rows[i]
  {
    seq(|rows|, i requires 0 <= i < |rows| => if rows[i].id == clipId then Decrement(rows[i]) else rows[i])
  }

  /** A missing vote count written as 0, the form a row takes after a vote and its rollback. */
  function Normalized(r: Row): Row {
    r.(votes := Some(VotesShown(r.votes)))
  }

  /**
   * A vote followed by its rollback restores every row: counts of 0 or more come
   * back unchanged, a missing count comes back as 0, and other rows never change.
   */
  lemma RollbackUndoesIncrement(rows: seq<Row>, clipId: string)
    requires forall i :: 0 <= i < |rows| && rows[i].id == clipId ==> VotesShown(rows[i].votes) >= 0
    ensures var out := RollbackVotes(IncrementVotes(rows, clipId), clipId);
      forall i :: 0 <= i < |rows| ==> out[i] == if rows[i].id == clipId then Normalized(rows[i]) else rows[i]
  {
    var mid := IncrementVotes(rows, clipId);
    var out := RollbackVotes(mid, clipId);
    forall i | 0 <= i < |rows|
      ensures out[i] == if rows[i].id == clipId then Normalized(rows[i]) else rows[i]
    {
      if rows[i].id == clipId {
        assert mid[i] == Increment(rows[i]);
        assert out[i] == Decrement(mid[i]);
      }
    }
  }

  /** With non-null, non-negative counts the rollback gives back exactly the list before the vote. */
  lemma RollbackRestoresList(rows: seq<Row>, clipId: string)
    requires forall i :: 0 <= i < |rows| ==> rows[i].votes.Some? && rows[i].votes.value >= 0
    ensures RollbackVotes(IncrementVotes(rows, clipId), clipId) == rows
  {
    RollbackUndoesIncrement(rows, clipId);
    var out := RollbackVotes(IncrementVotes(rows, clipId), clipId);
    assert forall i :: 0 <= i < |rows| ==> out[i] == rows[i];
  }

  /** A negative count is not restored: the rollback floors it at 0. */
  lemma RollbackFloorsNegative(r: Row)
    requires r.votes.Some? && r.votes.value < 0
    ensures Decrement(Increment(r)).votes == Some(0)
    ensures Decrement(Increment(r)) != r
  {
  }

  /**
   * Votes on two clips do not interfere: the rollback of one clip's vote
   * commutes with the optimistic update for a different clip.
   */
  lemma RollbackCommutes(rows: seq<Row>, a: string, b: string)
    requires a != b
    ensures RollbackVotes(IncrementVotes(rows, b), a) == IncrementVotes(RollbackVotes(rows, a), b)
  {
    var left := RollbackVotes(IncrementVotes(rows, b), a);
    var right := IncrementVotes(RollbackVotes(rows, a), b);
    forall i | 0 <= i < |rows| ensures left[i] == right[i] {
      assert Increment(rows[i]).id == rows[i].id;
      assert Decrement(rows[i]).id == rows[i].id;
    }
  }

  /** The message shown when the vote insert fails. */
  datatype Alert = AlreadyUpvoted | VoteFailed

  function AlertText(a: Alert): string {
    match a
    case AlreadyUpvoted => "You already upvoted this clip on this device."
    case VoteFailed => "Vote failed. Please try again."
  }

  /** Code "23505" (a unique-constraint violation) means the device already voted; every other code is a failure. */
  function AlertFor(code: string): (a: Alert)
    ensures a == AlreadyUpvoted <==> code == "23505"
  {
    if code == "23505" then AlreadyUpvoted else VoteFailed
  }

  // ---------------------------------------------------------------------------
  // Component state

  /** The state of one FeedListClient: its copy of the rows and the open row. */
  class FeedList {
    var data: seq<Row>
    var openIdx: Option<nat>

    ghost predicate Valid()
      reads this
    {
      openIdx.Some? ==> openIdx.value < |data|
    }

    constructor(rows: seq<Row>)
      ensures data == rows && openIdx.None?
      ensures Valid()
    {
      data := rows;
      openIdx := None;
    }

    method Open(i: nat)
      requires Valid() && i < |data|
      modifies this
      ensures openIdx == Some(i) && data == old(data)
      ensures Valid()
    {
      openIdx := Some(i);
    }

    method KeyDown(key: Key)
      requires Valid()
      modifies this
      ensures openIdx == OpenAfterKey(old(openIdx), key, |data|)
      ensures data == old(data)
      ensures Valid()
    {
      openIdx := OpenAfterKey(openIdx, key, |data|);
    }

    /** The first half of `upvote`: the clip's rows get their vote before the insert is sent. */
    method BeginUpvote(clipId: string)
      requires Valid()
      modifies this
      ensures data == IncrementVotes(old(data), clipId)
      ensures openIdx == old(openIdx)
      ensures Valid()
    {
      data := IncrementVotes(data, clipId);
    }

    /**
     * The second half of `upvote`, once the insert has answered: on an error the
     * vote is rolled back and an alert chosen by the error code; on success nothing changes.
     */
    method FinishUpvote(clipId: string, result: InsertResult) returns (alert: Option<Alert>)
      requires Valid()
      modifies this
      ensures result.InsertOk? ==> data == old(data) && alert.None?
      ensures result.InsertErr? ==> data == RollbackVotes(old(data), clipId) && alert == Some(AlertFor(result.code))
      ensures openIdx == old(openIdx)
      ensures Valid()
    {
      alert := None;
      if result.InsertErr? {
        data := RollbackVotes(data, clipId);
        alert := Some(AlertFor(result.code));
      }
    }

    /** `upvote(clipId)` with no other update in between its two halves. */
    method Upvote(clipId: string, result: InsertResult) returns (alert: Option<Alert>)
      requires Valid()
      modifies this
      ensures result.InsertOk? ==> data == IncrementVotes(old(data), clipId) && alert.None?
      ensures result.InsertErr? ==> data == RollbackVotes(IncrementVotes(old(data), clipId), clipId)
      ensures result.InsertErr? ==> alert == Some(if result.code == "23505" then AlreadyUpvoted else VoteFailed)
      ensures openIdx == old(openIdx)
      ensures Valid()
    {
      BeginUpvote(clipId);
      alert := FinishUpvote(clipId, result);
    }

    /** `currentUrl`: the URL of the open row, null when no row is open. */
    function CurrentUrl(): (u: Option<string>)
      reads this
      ensures Valid() ==> (u.Some? <==> openIdx.Some?)
      ensures u.Some? ==> openIdx.Some? && openIdx.value < |data| && u.value == data[openIdx.value].url
    {
      if openIdx.Some? && openIdx.value < |data| then Some(data[openIdx.value].url) else None
    }
  }
}
