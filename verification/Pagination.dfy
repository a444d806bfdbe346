/**
 * The pager under the catalogue grid (src/components/Pagination.js): which
 * page numbers are shown, where the "..." gaps go, and which buttons are
 * disabled.
 */
module Pagination {
  import opened Wrappers
  import opened Text
  import opened Sequences

  /** The five candidates `[1, page - 1, page, page + 1, totalPages]`. */
  function Candidates(page: int, totalPages: int): seq<int>
  {
    [1, page - 1, page, page + 1, totalPages]
  }

  /** `[...new Set(s)]`: the first occurrence of each value, in order. */
  function Dedupe(s: seq<int>): (r: seq<int>)
    ensures |r| <= |s|
    ensures Distinct(r)
    ensures forall x :: x in r <==> x in s
  {
    if s == [] then []
    else
      var d := Dedupe(s[..|s| - 1]);
      assert s == s[..|s| - 1] + [s[|s| - 1]];
      if s[|s| - 1] in d then d else d + [s[|s| - 1]]
  }

  function InRange(totalPages: int): int -> bool
  {
    (v: int) => 1 <= v <= totalPages
  }

  /** The comparator `(a, b) => a - b`: `a` may come first when `a - b <= 0`. */
  predicate Ascending(a: int, b: int) { a - b <= 0 }

  lemma AscendingTotalPreorder()
    ensures TotalPreorder(Ascending)
  {
  }

  /** Lines 5-7 over any list of candidates: deduplicated, kept within `[1, totalPages]` and sorted. */
  function Shown(candidates: seq<int>, totalPages: int): seq<int>
  {
    SortBy(Filter(Dedupe(candidates), InRange(totalPages)), Ascending)
  }

  /** The page numbers the pager shows. */
  function VisiblePages(page: int, totalPages: int): seq<int>
  {
    Shown(Candidates(page, totalPages), totalPages)
  }

  lemma ShownIncreasing(candidates: seq<int>, totalPages: int)
    ensures var pages := Shown(candidates, totalPages);
      forall i, j :: 0 <= i < j < |pages| ==> pages[i] < pages[j]
  {
    var unique := Dedupe(candidates);
    var inRange := Filter(unique, InRange(totalPages));
    AscendingTotalPreorder();
    SortBySorted(inRange, Ascending);
    FilterDistinct(unique, InRange(totalPages));
    SortByDistinct(inRange, Ascending);
  }

  lemma ShownMembers(candidates: seq<int>, totalPages: int)
    ensures var pages := Shown(candidates, totalPages);
      forall x :: x in pages <==> x in candidates && 1 <= x <= totalPages
  {
    var unique := Dedupe(candidates);
    var inRange := Filter(unique, InRange(totalPages));
    var pages := SortBy(inRange, Ascending);
    forall x ensures x in pages <==> x in candidates && 1 <= x <= totalPages {
      assert x in pages <==> x in multiset(inRange);
      if x in candidates && 1 <= x <= totalPages {
        var k :| 0 <= k < |unique| && unique[k] == x;
      }
    }
  }

  /**
   * The page numbers shown are strictly increasing, at most five, all within
   * `[1, totalPages]`, and are exactly the in-range candidates; with no page
   * there are none.
   */
  lemma VisiblePagesSpec(page: int, totalPages: int)
    ensures var pages := VisiblePages(page, totalPages);
      && (forall i, j :: 0 <= i < j < |pages| ==> pages[i] < pages[j])
      && |pages| <= 5
      && (forall x :: x in pages <==> x in Candidates(page, totalPages) && 1 <= x <= totalPages)
      && (totalPages < 1 ==> pages == [])
  {
    var candidates := Candidates(page, totalPages);
    var pages := VisiblePages(page, totalPages);
    ShownIncreasing(candidates, totalPages);
    ShownMembers(candidates, totalPages);
  }

  /** When the current page is a real page, the first, the current and the last page are always shown. */
  lemma AnchorsVisible(page: int, totalPages: int)
    requires 1 <= page <= totalPages
    ensures var pages := VisiblePages(page, totalPages);
      1 in pages && page in pages && totalPages in pages
  {
    VisiblePagesSpec(page, totalPages);
  }

  /** One entry of the pager: a page button or a gap marker with its React key. */
  datatype PageSlot = Number(value: int) | Gap(key: string)

  /** The slots with the gap markers removed. */
  function Numbers(slots: seq<PageSlot>): seq<int>
  {
    if slots == [] then []
    else
      var last := slots[|slots| - 1];
      Numbers(slots[..|slots| - 1]) + (if last.Number? then [last.value] else [])
  }

  /**
   * Every gap sits strictly inside the slots between two page numbers that are
   * more than one apart, and its key is `gap-` and the number after it.
   */
  predicate GapsAtJumps(slots: seq<PageSlot>)
  {
    forall i :: 0 <= i < |slots| && slots[i].Gap? ==>
      && 0 < i < |slots| - 1
      && slots[i - 1].Number? && slots[i + 1].Number?
      && slots[i + 1].value - slots[i - 1].value > 1
      && slots[i].key == "gap-" + IntToString(slots[i + 1].value)
  }

  /** Two page numbers side by side are at most one apart. */
  predicate AdjacentNumbersClose(slots: seq<PageSlot>)
  {
    forall i :: 0 <= i < |slots| - 1 && slots[i].Number? && slots[i + 1].Number? ==>
      slots[i + 1].value - slots[i].value <= 1
  }

  /** A gap marker stands exactly where two consecutive page numbers are more than one apart. */
  predicate GapsExactlyAtJumps(slots: seq<PageSlot>)
  {
    GapsAtJumps(slots) && AdjacentNumbersClose(slots)
  }

  lemma NumbersPushNumber(slots: seq<PageSlot>, value: int)
    ensures Numbers(slots + [Number(value)]) == Numbers(slots) + [value]
  {
    assert (slots + [Number(value)])[..|slots|] == slots;
  }

  lemma NumbersPushGap(slots: seq<PageSlot>, key: string)
    ensures Numbers(slots + [Gap(key)]) == Numbers(slots)
  {
    assert (slots + [Gap(key)])[..|slots|] == slots;
  }

  lemma GapsPushNumber(slots: seq<PageSlot>, value: int)
    requires GapsAtJumps(slots)
    requires slots != [] ==> slots[|slots| - 1].Number?
    ensures GapsAtJumps(slots + [Number(value)])
  {
  }

  lemma ClosePushNumber(slots: seq<PageSlot>, value: int)
    requires AdjacentNumbersClose(slots)
    requires slots != [] && slots[|slots| - 1].Number? ==> value - slots[|slots| - 1].value <= 1
    ensures AdjacentNumbersClose(slots + [Number(value)])
  {
  }

  lemma GapsPushJump(slots: seq<PageSlot>, value: int)
    requires GapsAtJumps(slots)
    requires slots != [] && slots[|slots| - 1].Number? && value - slots[|slots| - 1].value > 1
    ensures GapsAtJumps(slots + [Gap("gap-" + IntToString(value))] + [Number(value)])
  {
    var next := slots + [Gap("gap-" + IntToString(value))] + [Number(value)];
    assert next[|slots|] == Gap("gap-" + IntToString(value));
    assert next[|slots| + 1] == Number(value);
  }

  lemma ClosePushJump(slots: seq<PageSlot>, value: int)
    requires AdjacentNumbersClose(slots)
    ensures AdjacentNumbersClose(slots + [Gap("gap-" + IntToString(value))] + [Number(value)])
  {
    var next := slots + [Gap("gap-" + IntToString(value))] + [Number(value)];
    assert next[|slots|].Gap?;
  }

  /**
   * `slots` lays out the numbers `done`: they are its numbers, the gaps are
   * where they belong, and it ends with the last of them.
   */
  predicate LaidOut(slots: seq<PageSlot>, done: seq<int>)
  {
    && Numbers(slots) == done
    && GapsExactlyAtJumps(slots)
    && (done == [] ==> slots == [])
    && (done != [] ==> slots != [] && slots[|slots| - 1] == Number(done[|done| - 1]))
  }

  /** Pushing the next number right after the previous one, with no gap, keeps the layout right. */
  lemma PushAdjacent(slots: seq<PageSlot>, pages: seq<int>, k: int)
    requires 0 <= k < |pages| && LaidOut(slots, pages[..k])
    requires k > 0 ==> pages[k] - pages[k - 1] <= 1
    ensures LaidOut(slots + [Number(pages[k])], pages[..k + 1])
  {
    assert pages[..k + 1] == pages[..k] + [pages[k]];
    NumbersPushNumber(slots, pages[k]);
    GapsPushNumber(slots, pages[k]);
    ClosePushNumber(slots, pages[k]);
  }

  /** Pushing a gap and then the next number after a jump keeps the layout right. */
  lemma PushAfterJump(slots: seq<PageSlot>, pages: seq<int>, k: int)
    requires 0 < k < |pages| && LaidOut(slots, pages[..k])
    requires pages[k] - pages[k - 1] > 1
    ensures LaidOut(slots + [Gap("gap-" + IntToString(pages[k]))] + [Number(pages[k])], pages[..k + 1])
  {
    var value := pages[k];
    var key := "gap-" + IntToString(value);
    assert pages[..k + 1] == pages[..k] + [value];
    NumbersPushGap(slots, key);
    NumbersPushNumber(slots + [Gap(key)], value);
    GapsPushJump(slots, value);
    ClosePushJump(slots, value);
  }

  /**
   * `getVisiblePages`: the visible page numbers with a gap marker pushed
   * before every number that is more than one past the previous one.
   */
  method GetVisiblePages(page: int, totalPages: int) returns (slots: seq<PageSlot>)
    ensures Numbers(slots) == VisiblePages(page, totalPages)
    ensures GapsExactlyAtJumps(slots)
  {
    slots := LayOut(VisiblePages(page, totalPages));
  }

  /** Lines 9-21: the `forEach` pass that pushes each number, preceded by a gap after a jump. */
  method LayOut(pages: seq<int>) returns (slots: seq<PageSlot>)
    ensures Numbers(slots) == pages
    ensures GapsExactlyAtJumps(slots)
  {
    slots := [];
    var previous: Option<int> := None;
    var k := 0;
    while k < |pages|
      invariant 0 <= k <= |pages|
      invariant LaidOut(slots, pages[..k])
      invariant previous == if k == 0 then None else Some(pages[k - 1])
    {
      var value := pages[k];
      if previous.Some? && value - previous.value > 1 {
        PushAfterJump(slots, pages, k);
        slots := slots + [Gap("gap-" + IntToString(value))] + [Number(value)];
      } else {
        PushAdjacent(slots, pages, k);
        slots := slots + [Number(value)];
      }
      previous := Some(value);
      k := k + 1;
    }
    assert pages[..k] == pages;
  }

  /** Lines 33 and 68: Prev and Next are disabled while the pager is disabled or at either end. */
  predicate PrevDisabled(page: int, disabled: bool) { disabled || page <= 1 }

  predicate NextDisabled(page: int, totalPages: int, disabled: bool) { disabled || page >= totalPages }

  /** Line 55: a page button is disabled while the pager is, and for the current page. */
  predicate PageButtonDisabled(value: int, page: int, disabled: bool) { disabled || value == page }

  /**
   * On a real page of an enabled pager, Prev is usable exactly when there is an
   * earlier page and Next exactly when there is a later one, and each leads to
   * a real page; a disabled pager allows nothing.
   */
  lemma {:induction false} NavigationStaysInRange(page: int, totalPages: int, disabled: bool)
    requires 1 <= page <= totalPages
    ensures !PrevDisabled(page, disabled) <==> !disabled && 1 <= page - 1
    ensures !NextDisabled(page, totalPages, disabled) <==> !disabled && page + 1 <= totalPages
    ensures !PrevDisabled(page, disabled) ==> 1 <= page - 1 <= totalPages
    ensures !NextDisabled(page, totalPages, disabled) ==> 1 <= page + 1 <= totalPages
  {
  }

  /**
   * Every usable page button leads to a real page other than the current one;
   * the current page's button, when shown, is never usable.
   */
  lemma PageButtonsStayInRange(page: int, totalPages: int, disabled: bool)
    ensures forall v :: v in VisiblePages(page, totalPages) && !PageButtonDisabled(v, page, disabled) ==>
      1 <= v <= totalPages && v != page
    ensures page in VisiblePages(page, totalPages) ==> PageButtonDisabled(page, page, disabled)
  {
    VisiblePagesSpec(page, totalPages);
  }
}
