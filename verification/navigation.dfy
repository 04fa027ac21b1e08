/**
 * Keyboard navigation between rows while the player is open. LeaderboardClient.tsx
 * and FeedListClient.tsx install the same `keydown` handler; its index updater is
 * defined once here.
 */
module Navigation {
  import opened Optional

  /** The keys the handlers look at; every other key is `OtherKey`. */
  datatype Key = ArrowUp | ArrowLeft | ArrowDown | ArrowRight | Escape | OtherKey(name: string) {

    /** ArrowUp and ArrowLeft step to the previous row. */
    predicate IsBack() {
      this == ArrowUp || this == ArrowLeft
    }

    /** ArrowDown and ArrowRight step to the next row. */
    predicate IsForward() {
      this == ArrowDown || this == ArrowRight
    }
  }

  /**
   * The `setOpenIdx` updater for a key press with `count` rows:
   * `i > 0 ? i - 1 : i` going back, `i < count - 1 ? i + 1 : i` going forward.
   */
  function NextIndex(i: nat, key: Key, count: nat): (j: nat)
    ensures i < count ==> j < count
    ensures key.IsBack() ==> j <= i && (j == i <==> i == 0)
    ensures key.IsForward() ==> j >= i && (j == i <==> i + 1 >= count)
    ensures j + 1 >= i && j <= i + 1
    ensures !key.IsBack() && !key.IsForward() ==> j == i
  {
    if key.IsBack() then (if i > 0 then i - 1 else i)
    else if key.IsForward() then (if i < count - 1 then i + 1 else i)
    else i
  }

  /** Going back and then forward returns to the same row, except from the first row. */
  lemma BackThenForward(i: nat, count: nat)
    requires 0 < i < count
    ensures NextIndex(NextIndex(i, ArrowUp, count), ArrowDown, count) == i
  {
  }

  /** Going forward and then back returns to the same row, except from the last row. */
  lemma ForwardThenBack(i: nat, count: nat)
    requires i + 1 < count
    ensures NextIndex(NextIndex(i, ArrowDown, count), ArrowUp, count) == i
  {
  }

  /** The index after pressing `key` `k` times. */
  function Presses(i: nat, key: Key, count: nat, k: nat): nat
    decreases k
  {
    if k == 0 then i else Presses(NextIndex(i, key, count), key, count, k - 1)
  }

  /** Holding a back key walks down to the first row and stays there. */
  lemma {:induction false} PressesBack(i: nat, key: Key, count: nat, k: nat)
    requires key.IsBack()
    ensures Presses(i, key, count, k) == if k <= i then i - k else 0
    decreases k
  {
    if k > 0 {
      PressesBack(NextIndex(i, key, count), key, count, k - 1);
    }
  }

  /** Holding a forward key walks up to the last row and stays there. */
  lemma {:induction false} PressesForward(i: nat, key: Key, count: nat, k: nat)
    requires key.IsForward() && i < count
    ensures Presses(i, key, count, k) == if i + k < count then i + k else count - 1
    decreases k
  {
    if k > 0 {
      PressesForward(NextIndex(i, key, count), key, count, k - 1);
    }
  }

  /**
   * The open index after a key press, as the page sees it: Escape closes the
   * overlay (the overlay's listener calls the page's `onClose`), the arrows move
   * the index while the overlay is open, and every other key changes nothing.
   */
  function OpenAfterKey(open: Option<nat>, key: Key, count: nat): (r: Option<nat>)
    ensures key == Escape ==> r.None?
    ensures open.None? ==> r.None?
    ensures key != Escape && open.Some? ==> r.Some? && r.value == NextIndex(open.value, key, count)
    ensures key != Escape && open.Some? && open.value < count ==> r.value < count
  {
    if key == Escape then None
    else
      match open
      case None => None
      case Some(i) => Some(NextIndex(i, key, count))
  }
}
