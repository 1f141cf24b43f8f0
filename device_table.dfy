/** The paginated device table (frontend/src/components/DeviceTable.tsx):
    the status filter, `Math.ceil`, `Array.prototype.slice` with its
    treatment of negative and out-of-range indices, and the two page
    buttons. */
module DeviceTable {
  import opened Seqs
  import opened Demo

  const ItemsPerPage := 10

  function StatusMatcher(statusFilter: string): DemoNode -> bool {
    (n: DemoNode) => statusFilter == All || n.status == statusFilter
  }

  function FilteredNodes(nodes: seq<DemoNode>, statusFilter: string): seq<DemoNode> {
    Filter(nodes, StatusMatcher(statusFilter))
  }

  /** `Math.ceil(count / itemsPerPage)`. */
  function TotalPages(count: nat): (t: nat)
    ensures t * ItemsPerPage >= count
    ensures t > 0 ==> (t - 1) * ItemsPerPage < count
    ensures t == 0 <==> count == 0
  {
    (count + ItemsPerPage - 1) / ItemsPerPage
  }

  /** How `slice` resolves one index: a negative index counts from the end,
      and the result is clamped to [0, length]. */
  function SliceIndex(i: int, length: nat): (k: nat)
    ensures k <= length
    ensures 0 <= i <= length ==> k == i
    ensures i > length ==> k == length
    ensures i < 0 ==> k == if length + i < 0 then 0 else length + i
  {
    if i < 0 then (if length + i < 0 then 0 else length + i)
    else if i > length then length
    else i
  }

  /** `s.slice(start, end)`: empty when the resolved start is not before the resolved end. */
  function Slice<T>(s: seq<T>, start: int, end: int): seq<T> {
    var a, b := SliceIndex(start, |s|), SliceIndex(end, |s|);
    if a < b then s[a..b] else []
  }

  function StartIndex(currentPage: int): int {
    (currentPage - 1) * ItemsPerPage
  }

  /** `paginatedNodes` for a page number. */
  function Page<T>(s: seq<T>, currentPage: int): seq<T> {
    Slice(s, StartIndex(currentPage), StartIndex(currentPage) + ItemsPerPage)
  }

  /** A page from 1 on is the window of at most ten items starting at
      `startIndex`, empty past the end; page 0 is always empty. */
  lemma PageWindow<T>(s: seq<T>, currentPage: int)
    ensures |Page(s, currentPage)| <= ItemsPerPage
    ensures currentPage >= 1 && StartIndex(currentPage) <= |s| ==>
              var start := StartIndex(currentPage);
              Page(s, currentPage) == s[start..if start + ItemsPerPage <= |s| then start + ItemsPerPage else |s|]
    ensures currentPage >= 1 && StartIndex(currentPage) > |s| ==> Page(s, currentPage) == []
    ensures currentPage == 0 ==> Page(s, currentPage) == []
  {
  }

  /** Pages 1 to `k` laid end to end. */
  function Pages<T>(s: seq<T>, k: nat): seq<T> {
    if k == 0 then [] else Pages(s, k - 1) + Page(s, k)
  }

  lemma {:induction false} PagesPrefix<T>(s: seq<T>, k: nat)
    ensures Pages(s, k) == s[..if k * ItemsPerPage <= |s| then k * ItemsPerPage else |s|]
  {
    if k > 0 {
      PagesPrefix(s, k - 1);
      var start := (k - 1) * ItemsPerPage;
      if start <= |s| {
        PageWindow(s, k);
        var end := if start + ItemsPerPage <= |s| then start + ItemsPerPage else |s|;
        assert s[..start] + s[start..end] == s[..end];
      } else {
        PageWindow(s, k);
      }
    }
  }

  /** Pages 1 to `totalPages` together are exactly the filtered list. */
  lemma PagesCoverList<T>(s: seq<T>)
    ensures Pages(s, TotalPages(|s|)) == s
  {
    PagesPrefix(s, TotalPages(|s|));
  }

  /** "Showing {startIndex + 1} - {min(startIndex + 10, count)} of {count}". */
  datatype RangeLabel = RangeLabel(first: int, last: int, total: nat)

  function Label(currentPage: int, count: nat): (l: RangeLabel)
    ensures l.last <= count && l.last <= StartIndex(currentPage) + ItemsPerPage
    ensures l.last == count || l.last == StartIndex(currentPage) + ItemsPerPage
    ensures l.first == StartIndex(currentPage) + 1 && l.total == count
  {
    var start := StartIndex(currentPage);
    RangeLabel(start + 1, if start + ItemsPerPage < count then start + ItemsPerPage else count, count)
  }

  /** On a page whose window lies inside the list, the label's last number
      counts the rows through the end of the page. */
  lemma LabelMatchesPage<T>(s: seq<T>, currentPage: int)
    requires currentPage >= 1 && StartIndex(currentPage) <= |s|
    ensures Label(currentPage, |s|).last == StartIndex(currentPage) + |Page(s, currentPage)|
  {
    PageWindow(s, currentPage);
  }

  predicate PrevDisabled(currentPage: int) {
    currentPage == 1
  }

  predicate NextDisabled(currentPage: int, totalPages: nat) {
    currentPage == totalPages
  }

  /** `p => Math.max(1, p - 1)`: never below 1. */
  function PrevPage(currentPage: int): (p: int)
    ensures p >= 1
    ensures currentPage >= 2 ==> p == currentPage - 1
  {
    if currentPage - 1 > 1 then currentPage - 1 else 1
  }

  /** `p => Math.min(totalPages, p + 1)`: never above the page count. */
  function NextPage(currentPage: int, totalPages: nat): (p: int)
    ensures p <= totalPages
    ensures currentPage < totalPages ==> p == currentPage + 1
  {
    if currentPage + 1 < totalPages then currentPage + 1 else totalPages
  }

  /** The table's state cells. The page number is never negative. */
  class Table {
    var currentPage: int
    var statusFilter: string

    ghost predicate Valid()
      reads this
    {
      currentPage >= 0
    }

    function TotalPagesFor(nodes: seq<DemoNode>): nat
      reads this
    {
      TotalPages(|FilteredNodes(nodes, statusFilter)|)
    }

    function Rows(nodes: seq<DemoNode>): seq<DemoNode>
      reads this
    {
      Page(FilteredNodes(nodes, statusFilter), currentPage)
    }

    constructor()
      ensures Valid()
      ensures currentPage == 1 && statusFilter == All
    {
      currentPage := 1;
      statusFilter := All;
    }

    /** Picking a status keeps the current page number. */
    method SetStatusFilter(value: string)
      requires Valid()
      modifies this
      ensures Valid()
      ensures statusFilter == value && currentPage == old(currentPage)
    {
      statusFilter := value;
    }

    /** The previous-page button, clickable unless on page 1. */
    method Prev()
      requires Valid() && !PrevDisabled(currentPage)
      modifies this
      ensures Valid()
      ensures currentPage == PrevPage(old(currentPage)) && statusFilter == old(statusFilter)
    {
      currentPage := PrevPage(currentPage);
    }

    /** The next-page button, clickable unless on the last page. */
    method Next(nodes: seq<DemoNode>)
      requires Valid() && !NextDisabled(currentPage, TotalPagesFor(nodes))
      modifies this
      ensures Valid()
      ensures currentPage == NextPage(old(currentPage), old(TotalPagesFor(nodes))) && statusFilter == old(statusFilter)
    {
      currentPage := NextPage(currentPage, TotalPagesFor(nodes));
    }
  }

  /** With nothing to show there are no pages, but the next button is live
      on page 1: clicking it moves to page 0, which shows no rows, labels
      the range "-9 - 0 of 0" and disables the button. */
  method EmptyListNextScenario() returns (page: int, rows: seq<DemoNode>, shown: RangeLabel, nextDisabled: bool)
    ensures page == 0 && rows == [] && shown == RangeLabel(-9, 0, 0) && nextDisabled
  {
    var t := new Table();
    t.Next([]);
    page := t.currentPage;
    rows := t.Rows([]);
    shown := Label(page, 0);
    nextDisabled := NextDisabled(page, t.TotalPagesFor([]));
  }
}
