/** The page selector (src/components/common/Pagination.tsx): the list of page numbers
    and "..." markers shown around the current page, and the rules that enable the
    previous and next buttons. */
module Pagination {
  import opened Seqs

  /** One entry of the selector: a page number, or the "..." marker. */
  datatype Entry = Num(n: int) | Dots

  /** How many pages are shown on each side of the current one. */
  const Delta: int := 2

  /** The first page of the window of neighbours, `Math.max(2, currentPage - delta)`. */
  function WindowStart(c: int): int {
    Max(2, c - Delta)
  }

  /** The last page of the window, `Math.min(totalPages - 1, currentPage + delta)`. */
  function WindowEnd(c: int, t: int): int {
    Min(t - 1, c + Delta)
  }

  /** The pages `first..last` as entries, in order. */
  function Run(first: int, last: int): (r: seq<Entry>)
    ensures |r| == if first <= last then last - first + 1 else 0
    ensures forall k :: 0 <= k < |r| ==> r[k] == Num(first + k)
  {
    if first <= last then seq(last - first + 1, k => Num(first + k)) else []
  }

  /** Page 1, then "..." when the window starts after page 3. */
  function Lead(c: int): seq<Entry> {
    if c - Delta > 2 then [Num(1), Dots] else [Num(1)]
  }

  /** "..." and the last page when the window ends before the page before last; only the
      last page when it ends later and there is more than one page; nothing otherwise. */
  function Tail(c: int, t: int): seq<Entry> {
    if c + Delta < t - 1 then [Dots, Num(t)] else if t > 1 then [Num(t)] else []
  }

  /** The entries `getVisiblePages` returns. */
  function Layout(c: int, t: int): seq<Entry> {
    Lead(c) + Run(WindowStart(c), WindowEnd(c, t)) + Tail(c, t)
  }

  /** `getVisiblePages()`: collects the window in `range` with a loop, then puts page 1,
      the markers and the last page around it. */
  method VisiblePages(currentPage: int, totalPages: int) returns (rangeWithDots: seq<Entry>)
    ensures rangeWithDots == Layout(currentPage, totalPages)
  {
    var range: seq<int> := [];
    var start := Max(2, currentPage - Delta);
    var i := start;
    while i <= Min(totalPages - 1, currentPage + Delta)
      invariant start <= i && (i <= WindowEnd(currentPage, totalPages) + 1 || i == start)
      invariant |range| == i - start
      invariant forall k :: 0 <= k < |range| ==> range[k] == start + k
      decreases WindowEnd(currentPage, totalPages) - i
    {
      range := range + [i];
      i := i + 1;
    }
    if currentPage - Delta > 2 {
      rangeWithDots := [Num(1), Dots];
    } else {
      rangeWithDots := [Num(1)];
    }
    rangeWithDots := rangeWithDots + seq(|range|, k requires 0 <= k < |range| => Num(range[k]));
    if currentPage + Delta < totalPages - 1 {
      rangeWithDots := rangeWithDots + [Dots, Num(totalPages)];
    } else if totalPages > 1 {
      rangeWithDots := rangeWithDots + [Num(totalPages)];
    }
  }

  /** The number of page entries in `r`. */
  function CountNums(r: seq<Entry>): nat {
    if r == [] then 0 else (if r[0].Num? then 1 else 0) + CountNums(r[1..])
  }

  /** The number of "..." entries in `r`. */
  function CountDots(r: seq<Entry>): nat {
    if r == [] then 0 else (if r[0].Dots? then 1 else 0) + CountDots(r[1..])
  }

  lemma {:induction false} CountsAppend(a: seq<Entry>, b: seq<Entry>)
    ensures CountNums(a + b) == CountNums(a) + CountNums(b)
    ensures CountDots(a + b) == CountDots(a) + CountDots(b)
  {
    if a != [] {
      CountsAppend(a[1..], b);
      assert (a + b)[0] == a[0] && (a + b)[1..] == a[1..] + b;
    } else {
      assert a + b == b;
    }
  }

  lemma {:induction false} CountsRun(first: int, last: int)
    ensures CountNums(Run(first, last)) == |Run(first, last)|
    ensures CountDots(Run(first, last)) == 0
    decreases last - first + 1
  {
    if first <= last {
      CountsRun(first + 1, last);
      assert Run(first, last) == [Num(first)] + Run(first + 1, last);
    }
  }

  /** Where each entry of the layout comes from: the lead, the window, or the tail. */
  lemma LayoutAt(c: int, t: int, i: int)
    requires 1 <= c <= t && 0 <= i < |Layout(c, t)|
    ensures var lead, w := |Lead(c)|, |Run(WindowStart(c), WindowEnd(c, t))|;
      Layout(c, t)[i] == if i < lead then Lead(c)[i]
                         else if i < lead + w then Num(WindowStart(c) + i - lead)
                         else Tail(c, t)[i - lead - w]
  {
  }

  /** For a current page within `1..totalPages`, the entries start with page 1, end with
      the last page and show the current page. */
  lemma LayoutEnds(c: int, t: int)
    requires 1 <= c <= t
    ensures var r := Layout(c, t);
      r != [] && r[0] == Num(1) && r[|r| - 1] == Num(t)
      && exists i :: 0 <= i < |r| && r[i] == Num(c)
  {
    var r := Layout(c, t);
    LayoutAt(c, t, 0);
    LayoutAt(c, t, |r| - 1);
    if 1 < c < t {
      var i := |Lead(c)| + c - WindowStart(c);
      LayoutAt(c, t, i);
      assert r[i] == Num(c);
    }
  }

  /** The page numbers appear in increasing order. */
  lemma LayoutIncreasing(c: int, t: int)
    requires 1 <= c <= t
    ensures var r := Layout(c, t);
      forall i, j :: 0 <= i < j < |r| && r[i].Num? && r[j].Num? ==> r[i].n < r[j].n
  {
    var r := Layout(c, t);
    forall i, j | 0 <= i < j < |r| && r[i].Num? && r[j].Num? ensures r[i].n < r[j].n {
      LayoutAt(c, t, i);
      LayoutAt(c, t, j);
    }
  }

  /** Two page numbers side by side are consecutive pages. */
  lemma LayoutConsecutive(c: int, t: int)
    requires 1 <= c <= t
    ensures var r := Layout(c, t);
      forall i :: 0 <= i < |r| - 1 && r[i].Num? && r[i + 1].Num? ==> r[i + 1].n == r[i].n + 1
  {
    var r := Layout(c, t);
    forall i | 0 <= i < |r| - 1 && r[i].Num? && r[i + 1].Num? ensures r[i + 1].n == r[i].n + 1 {
      LayoutAt(c, t, i);
      LayoutAt(c, t, i + 1);
    }
  }

  /** A "..." marker sits between two page numbers at least 2 apart: it hides at least one
      page, and only pages that are not shown. */
  lemma LayoutDots(c: int, t: int)
    requires 1 <= c <= t
    ensures var r := Layout(c, t);
      forall i :: 0 <= i < |r| && r[i].Dots? ==>
        0 < i < |r| - 1 && r[i - 1].Num? && r[i + 1].Num? && r[i + 1].n - r[i - 1].n >= 2
  {
    var r := Layout(c, t);
    forall i | 0 <= i < |r| && r[i].Dots?
      ensures 0 < i < |r| - 1 && r[i - 1].Num? && r[i + 1].Num? && r[i + 1].n - r[i - 1].n >= 2
    {
      LayoutAt(c, t, i);
      LayoutAt(c, t, i - 1);
      LayoutAt(c, t, i + 1);
    }
  }

  /** At most 7 page numbers and 2 markers are shown. */
  lemma LayoutCounts(c: int, t: int)
    requires 1 <= c <= t
    ensures CountNums(Layout(c, t)) <= 7 && CountDots(Layout(c, t)) <= 2
  {
    var lo, hi := WindowStart(c), WindowEnd(c, t);
    CountsAppend(Lead(c), Run(lo, hi));
    CountsAppend(Lead(c) + Run(lo, hi), Tail(c, t));
    CountsRun(lo, hi);
  }

  /** The selector is rendered only when there is more than one page. */
  predicate Rendered(totalPages: int) {
    !(totalPages <= 1)
  }

  /** The previous button is disabled exactly on page 1. */
  predicate PreviousEnabled(currentPage: int) {
    !(currentPage == 1)
  }

  /** The next button is disabled exactly on the last page. */
  predicate NextEnabled(currentPage: int, totalPages: int) {
    !(currentPage == totalPages)
  }

  /** From a page within `1..totalPages`, an enabled previous or next button asks for a
      page that is again within `1..totalPages`. */
  lemma ButtonsStayInRange(c: int, t: int)
    requires 1 <= c <= t
    ensures PreviousEnabled(c) ==> 1 <= c - 1 <= t
    ensures NextEnabled(c, t) ==> 1 <= c + 1 <= t
    ensures PreviousEnabled(c) || NextEnabled(c, t) <==> Rendered(t)
  {
  }
}
