/** Pagination shared by the list screens: the page slice, the page count,
    the prev/next targets and the three page-number windows the screens draw. */
module Paging {
  import opened Js
  import Lists

  /** `Math.ceil(len / n)` for a positive page size. */
  function TotalPages(len: nat, n: nat): (t: nat)
    requires n > 0
    ensures t * n >= len
    ensures t == 0 || (t - 1) * n < len
    ensures t == 0 <==> len == 0
  {
    var t := (len + n - 1) / n;
    assert t * n + (len + n - 1) % n == len + n - 1;
    t
  }

  /** `s.slice(page * n - n, page * n)`: the items page `page` shows. */
  function PageSlice<T>(s: seq<T>, page: int, n: nat): seq<T> {
    Slice(s, page * n - n, page * n)
  }

  /** Page `p` (from 1) holds the items at indices [(p-1)·n, p·n), so at most `n`. */
  lemma PageSliceContents<T>(s: seq<T>, page: int, n: nat)
    requires page >= 1
    ensures var r := PageSlice(s, page, n);
      && |r| <= n
      && |r| == Max(0, Min(|s|, page * n) - (page - 1) * n)
      && forall k :: 0 <= k < |r| ==> r[k] == s[(page - 1) * n + k]
  {
    var lo := (page - 1) * n;
    PageBounds(page, n);
    var a, b := ClampIndex(lo, |s|), ClampIndex(lo + n, |s|);
    assert PageSlice(s, page, n) == if a < b then s[a..b] else [];
  }

  /** The two ends of page `page`: (page-1)·n >= 0 and page·n = (page-1)·n + n. */
  lemma PageBounds(page: int, n: nat)
    requires page >= 1
    ensures (page - 1) * n >= 0
    ensures page * n == (page - 1) * n + n
  {
  }

  /** Every item is shown on exactly one page: index i is on page i / n + 1 at offset i % n. */
  lemma PageOfIndex<T>(s: seq<T>, i: nat, n: nat)
    requires i < |s| && n > 0
    ensures var p := i / n + 1;
      1 <= p <= TotalPages(|s|, n)
      && i % n < |PageSlice(s, p, n)|
      && PageSlice(s, p, n)[i % n] == s[i]
  {
    var p := i / n + 1;
    assert i == (i / n) * n + i % n;
    assert (p - 1) * n == (i / n) * n;
    assert p * n == (i / n) * n + n;
    PageSliceContents(s, p, n);
    MultiplyCancel(p - 1, TotalPages(|s|, n), n);
  }

  lemma MultiplyCancel(a: nat, b: nat, n: nat)
    requires a * n < b * n
    ensures a < b
  {
    if b <= a {
      MultiplyMonotone(b, a, n);
    }
  }

  lemma MultiplyMonotone(a: nat, b: nat, n: nat)
    requires a <= b
    ensures a * n <= b * n
  {
  }

  /** Every page from 1 to the page count shows at least one item. */
  lemma PagesInRangeAreNonEmpty<T>(s: seq<T>, page: int, n: nat)
    requires n > 0 && 1 <= page <= TotalPages(|s|, n)
    ensures |PageSlice(s, page, n)| >= 1
  {
    var t := TotalPages(|s|, n);
    MultiplyMonotone(page - 1, t - 1, n);
    PageSliceContents(s, page, n);
  }

  /** Page 0 shows nothing, whatever the list. */
  lemma PageZeroIsEmpty<T>(s: seq<T>, n: nat)
    ensures PageSlice(s, 0, n) == []
  {
  }

  // ---------------------------------------------------------------------------
  // Previous / next

  /** `Math.max(1, cur - 1)`. */
  function PrevTarget(cur: int): (p: int)
    ensures p >= 1
    ensures cur > 1 ==> p == cur - 1
    ensures cur <= 1 ==> p == 1
  {
    Max(1, cur - 1)
  }

  /** `Math.min(total, cur + 1)`, as the Equipment and Details screens write it. */
  function NextTarget(cur: int, total: nat): (p: int)
    ensures p <= total
    ensures cur < total ==> p == cur + 1
    ensures cur >= total ==> p == total
  {
    Min(total, cur + 1)
  }

  /** With an empty list (no pages) the next button, which is only disabled when
      `cur === total`, is live on page 1 and moves to page 0, which shows nothing
      even after items match again. */
  lemma NextFromEmptyListLeavesPageRange<T>(s: seq<T>, n: nat)
    ensures NextTarget(1, TotalPages(0, n + 1)) == 0
    ensures 1 != TotalPages(0, n + 1)
    ensures PageSlice(s, NextTarget(1, TotalPages(0, n + 1)), n + 1) == []
  {
  }

  /** The next target kept on a real page: never below 1. */
  function ClampedNextTarget(cur: int, total: nat): (p: int)
    ensures p >= 1
    ensures total >= 1 ==> p <= total
    ensures 1 <= cur < total ==> p == cur + 1
  {
    Max(1, Min(total, cur + 1))
  }

  /** From any page in range, both targets stay in range and move by at most one;
      with the clamped next target this also holds for an empty list. */
  lemma TargetsStayInRange(cur: int, total: nat)
    requires 1 <= cur <= Max(1, total)
    ensures 1 <= PrevTarget(cur) <= Max(1, total) && Abs(PrevTarget(cur) - cur) <= 1
    ensures 1 <= ClampedNextTarget(cur, total) <= Max(1, total)
    ensures Abs(ClampedNextTarget(cur, total) - cur) <= 1
    ensures total >= 1 ==> ClampedNextTarget(cur, total) == NextTarget(cur, total)
  {
  }

  // ---------------------------------------------------------------------------
  // Page-number windows

  /** The entry at position i of the five-button window (Equipment and Details). */
  function FiveWindowEntry(i: int, cur: int, total: nat): int {
    if total <= 5 then i + 1
    else if cur <= 3 then i + 1
    else if cur >= total - 2 then total - 4 + i
    else cur - 2 + i
  }

  /** `Array(Math.min(5, total))` mapped through the window rule. */
  function FiveWindow(cur: int, total: nat): (w: seq<int>)
    ensures |w| == Min(5, total)
    ensures forall i :: 0 <= i < |w| ==> w[i] == FiveWindowEntry(i, cur, total)
  {
    seq(Min(5, total), i requires 0 <= i < Min(5, total) => FiveWindowEntry(i, cur, total))
  }

  predicate Consecutive(w: seq<int>) {
    forall i :: 0 < i < |w| ==> w[i] == w[i - 1] + 1
  }

  /** The shape of the five-button window: all pages when there are at most five,
      otherwise five consecutive pages starting at 1, at total - 4, or at cur - 2. */
  lemma FiveWindowShape(cur: int, total: nat)
    ensures var w := FiveWindow(cur, total);
      && Consecutive(w)
      && (total <= 5 ==> w == OneTo(total))
      && (total > 5 ==> |w| == 5 && w[0] == (if cur <= 3 then 1 else if cur >= total - 2 then total - 4 else cur - 2))
  {
  }

  /** For a current page in range every button is a real page and the current page has one. */
  lemma FiveWindowCoversCurrent(cur: int, total: nat)
    requires 1 <= cur <= total
    ensures forall i :: 0 <= i < |FiveWindow(cur, total)| ==> 1 <= FiveWindow(cur, total)[i] <= total
    ensures cur in FiveWindow(cur, total)
  {
    var w := FiveWindow(cur, total);
    var k := if total <= 5 || cur <= 3 then cur - 1
             else if cur >= total - 2 then cur - (total - 4)
             else 2;
    assert w[k] == cur;
  }

  /** `Array.from({length: total}, i => i + 1).slice(max(0, cur - 2), min(total, cur + 1))`
      (the Reports screen). */
  function ThreeWindow(cur: int, total: nat): seq<int> {
    Slice(OneTo(total), Max(0, cur - 2), Min(total, cur + 1))
  }

  /** The pages from a to b inclusive (empty when b < a). */
  function Range(a: int, b: int): (r: seq<int>)
    ensures |r| == Max(0, b - a + 1)
    ensures forall i :: 0 <= i < |r| ==> r[i] == a + i
  {
    seq(Max(0, b - a + 1), i requires 0 <= i < Max(0, b - a + 1) => a + i)
  }

  /** The Reports window shows pages max(1, cur-1) .. min(total, cur+1): at most three,
      all real pages, the current one included when it is in range. */
  lemma ThreeWindowRange(cur: int, total: nat)
    requires cur >= 1
    ensures ThreeWindow(cur, total) == Range(Max(1, cur - 1), Min(total, cur + 1))
    ensures |ThreeWindow(cur, total)| <= 3
    ensures cur <= total ==> cur in ThreeWindow(cur, total)
  {
    var r := ThreeWindow(cur, total);
    var e := Range(Max(1, cur - 1), Min(total, cur + 1));
    assert |r| == |e|;
    if cur <= total {
      assert e[cur - Max(1, cur - 1)] == cur;
    }
  }

  /** The page filter of the Inventory screen. */
  predicate EdgeRule(p: int, cur: int, total: nat) {
    p == 1 || p == total || Abs(p - cur) <= 1
  }

  /** `Array.from({length: total}, i => i + 1).filter(EdgeRule)`. */
  function EdgeWindow(cur: int, total: nat): seq<int> {
    Lists.Filter(OneTo(total), p => EdgeRule(p, cur, total))
  }

  /** The Inventory page list is ascending, without repeats, and holds exactly the
      real pages that are first, last or next to the current one. */
  lemma EdgeWindowProperties(cur: int, total: nat)
    ensures var w := EdgeWindow(cur, total);
      && (forall i, j :: 0 <= i < j < |w| ==> w[i] < w[j])
      && (forall p :: p in w <==> 1 <= p <= total && EdgeRule(p, cur, total))
  {
    var all := OneTo(total);
    var w := EdgeWindow(cur, total);
    Lists.FilterIsSubsequence(all, p => EdgeRule(p, cur, total));
    SubsequenceOfIncreasing(w, all);
    forall p | 1 <= p <= total && EdgeRule(p, cur, total)
      ensures p in w
    {
      assert all[p - 1] == p;
    }
  }

  predicate Increasing(s: seq<int>) {
    forall i, j :: 0 <= i < j < |s| ==> s[i] < s[j]
  }

  /** A subsequence of an increasing list is increasing. */
  lemma {:induction false} SubsequenceOfIncreasing(sub: seq<int>, s: seq<int>)
    requires Lists.Subsequence(sub, s) && Increasing(s)
    ensures Increasing(sub)
    ensures forall x :: x in sub ==> x in s
    decreases |s|
  {
    Lists.SubsequenceElements(sub, s);
    if sub != [] && s != [] {
      if sub[0] == s[0] {
        SubsequenceOfIncreasing(sub[1..], s[1..]);
        forall j | 0 < j < |sub|
          ensures sub[0] < sub[j]
        {
          assert sub[j] == sub[1..][j - 1];
          assert sub[j] in s[1..];
        }
      } else {
        SubsequenceOfIncreasing(sub, s[1..]);
      }
    }
  }

  /** One rendered entry of the Inventory page list: the '...' separator flag that
      precedes the button, and the page of the button. */
  datatype PageButton = PageButton(ellipsisBefore: bool, page: int)

  /** The entries the Inventory screen renders; the separator's condition is the
      negation of the filter, so no separator is ever drawn. */
  function EdgeButtons(cur: int, total: nat): (r: seq<PageButton>)
    ensures |r| == |EdgeWindow(cur, total)|
    ensures forall i :: 0 <= i < |r| ==> r[i].page == EdgeWindow(cur, total)[i]
    ensures forall i :: 0 <= i < |r| ==> !r[i].ellipsisBefore
  {
    var w := EdgeWindow(cur, total);
    seq(|w|, i requires 0 <= i < |w| =>
      PageButton(w[i] != 1 && w[i] != total && Abs(w[i] - cur) > 1, w[i]))
  }

  // ---------------------------------------------------------------------------
  // "Showing x to y of z"

  /** `Math.min(1 + (cur - 1) * n, len)` (the Inventory screen). */
  function ShowingFrom(cur: int, n: nat, len: nat): int {
    Min(1 + (cur - 1) * n, len)
  }

  /** `Math.min(cur * n, len)` (the Inventory screen). */
  function ShowingTo(cur: int, n: nat, len: nat): int {
    Min(cur * n, len)
  }

  /** Both bounds stay within the list, are 0 for an empty list, and on a page
      that shows items they span exactly the items shown. */
  lemma ShowingBounds<T>(s: seq<T>, cur: int, n: nat)
    requires cur >= 1
    ensures ShowingFrom(cur, n, |s|) <= |s| && ShowingTo(cur, n, |s|) <= |s|
    ensures |s| == 0 ==> ShowingFrom(cur, n, |s|) == 0 && ShowingTo(cur, n, |s|) == 0
    ensures |PageSlice(s, cur, n)| > 0 ==>
      ShowingTo(cur, n, |s|) - ShowingFrom(cur, n, |s|) + 1 == |PageSlice(s, cur, n)|
  {
    PageSliceContents(s, cur, n);
    assert (cur - 1) * n >= 0;
    assert cur * n == (cur - 1) * n + n;
  }
}
