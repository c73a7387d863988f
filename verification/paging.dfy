/** Page arithmetic shared by the list screens: ten entries per page, a row of
    at most five page buttons, and the page itself cut out of the filtered list
    with ECMAScript's `Array.prototype.slice`. */
module Paging {

  const ItemsPerPage: nat := 10
  const VisibleCount: nat := 5

  /** `Math.ceil(n / ItemsPerPage)`: the least number of pages that holds `n`
      entries, which is 0 for an empty list. */
  function TotalPages(n: nat): (t: nat)
    ensures n <= t * ItemsPerPage < n + ItemsPerPage
    ensures t == 0 <==> n == 0
  {
    (n + ItemsPerPage - 1) / ItemsPerPage
  }

  /** How `slice` turns one of its arguments into a position: a negative
      argument counts back from the end, and both are clamped to the list. */
  function SliceIndex(i: int, len: nat): (k: nat)
    ensures k <= len
  {
    if i < 0 then (if len + i < 0 then 0 else len + i)
    else if i > len then len
    else i
  }

  /** `s.slice(start, end)`: the entries between the two resolved positions,
      none when the end comes first. */
  function Slice<T>(s: seq<T>, start: int, end: int): seq<T>
  {
    var a, b := SliceIndex(start, |s|), SliceIndex(end, |s|);
    if a <= b then s[a..b] else []
  }

  /** The entries shown on page `page` (1-based) of `xs`. Nothing clamps
      `page`, so slice's handling of negative positions applies below page 1. */
  function PageSlice<T>(xs: seq<T>, page: int): (r: seq<T>)
    ensures |r| <= ItemsPerPage
    ensures 1 <= page ==>
      var lo := (page - 1) * ItemsPerPage;
      lo <= |xs| ==> r == xs[lo..if page * ItemsPerPage <= |xs| then page * ItemsPerPage else |xs|]
    ensures 1 <= page ==> ((page - 1) * ItemsPerPage >= |xs| <==> r == [])
  {
    var start := (page - 1) * ItemsPerPage;
    Slice(xs, start, start + ItemsPerPage)
  }

  /** A page is non-empty exactly when its number is between 1 and the page
      count; page 0 is always empty. */
  lemma PageNonEmptyIff<T>(xs: seq<T>, page: int)
    requires 0 <= page
    ensures PageSlice(xs, page) != [] <==> 1 <= page <= TotalPages(|xs|)
  {
  }

  /** Every entry of the list is shown: entry `i` sits on page `i / 10 + 1`, at
      position `i % 10`, and that page lies within the page count. */
  lemma ItemOnItsPage<T>(xs: seq<T>, i: nat)
    requires i < |xs|
    ensures 1 <= i / ItemsPerPage + 1 <= TotalPages(|xs|)
    ensures i % ItemsPerPage < |PageSlice(xs, i / ItemsPerPage + 1)|
    ensures PageSlice(xs, i / ItemsPerPage + 1)[i % ItemsPerPage] == xs[i]
  {
  }

  /** `Math.floor((page - 1) / VisibleCount) * VisibleCount + 1`: the first page
      of the block of five that holds `page`. */
  function WindowStart(page: int): (s: int)
    ensures (s - 1) % VisibleCount == 0
    ensures s <= page < s + VisibleCount
  {
    ((page - 1) / VisibleCount) * VisibleCount + 1
  }

  /** `getVisiblePages`: the consecutive page numbers from the start of the
      current block of five up to the block's end or the last page, whichever
      comes first; no numbers when the block starts past the last page. */
  function VisiblePages(page: int, totalPages: int): (r: seq<int>)
    ensures |r| <= VisibleCount
    ensures forall i :: 0 <= i < |r| ==> r[i] == WindowStart(page) + i && r[i] <= totalPages
    ensures r == [] <==> WindowStart(page) > totalPages
    ensures r != [] ==> |r| == VisibleCount || r[|r| - 1] == totalPages
    ensures page in r <==> page <= totalPages
  {
    var start := WindowStart(page);
    var end := if start + VisibleCount - 1 < totalPages then start + VisibleCount - 1 else totalPages;
    var r := if end - start + 1 > 0 then seq(end - start + 1, i => start + i) else [];
    assert page <= totalPages ==> r[page - start] == page;
    r
  }

  /** The customer list of 23 entries: three pages, the third holding 3. */
  lemma TwentyThreeEntries<T>(xs: seq<T>)
    requires |xs| == 23
    ensures TotalPages(|xs|) == 3
    ensures |PageSlice(xs, 3)| == 3 && PageSlice(xs, 3) == xs[20..]
    ensures VisiblePages(3, TotalPages(|xs|)) == [1, 2, 3]
  {
    assert VisiblePages(3, 3) == seq(3, i => 1 + i);
  }
}
