/** The pagination of the admin order list: ten orders a page, the requested
    page clamped to at least 1, the page count rounded up, and a window of at
    most five page links around the current page. */
module Pagination {
  import opened Db

  const PerPage: int := 10

  /** The page number: the requested page when there is one and it is at
      least 1, otherwise the first page. The request's value has already
      passed through intval. */
  function CurrentPage(requested: Option<int>): (page: int)
    ensures page >= 1
    ensures requested.Some? && requested.value >= 1 ==> page == requested.value
    ensures requested.None? || requested.value < 1 ==> page == 1
  {
    match requested
    case None => 1
    case Some(p) => if p > 1 then p else 1
  }

  /** The LIMIT offset of a page. */
  function Offset(page: int): (offset: int)
    requires page >= 1
    ensures offset >= 0 && offset % PerPage == 0
    ensures offset / PerPage == page - 1
  {
    (page - 1) * PerPage
  }

  /** The number of pages: the order count divided by the page size, rounded up. */
  function TotalPages(count: nat): (pages: nat)
    ensures pages == 0 <==> count == 0
    ensures count <= pages * PerPage
    ensures pages >= 1 ==> (pages - 1) * PerPage < count
  {
    (count + PerPage - 1) / PerPage
  }

  /** Every row of the list is shown on exactly one page, and that page is one
      the count accounts for. */
  lemma RowOnOnePage(count: nat, row: int)
    requires 0 <= row < count
    ensures var page := row / PerPage + 1;
            1 <= page <= TotalPages(count) && Offset(page) <= row < Offset(page) + PerPage
    ensures forall page :: page >= 1 && Offset(page) <= row < Offset(page) + PerPage ==> page == row / PerPage + 1
  {
    var page := row / PerPage + 1;
    assert Offset(page) == row - row % PerPage;
    forall p | p >= 1 && Offset(p) <= row < Offset(p) + PerPage
      ensures p == page
    {
      assert (p - 1) * PerPage <= row < p * PerPage;
    }
  }

  /** The page-link loop: from two pages before the current one, but not
      below the first page, up to two pages after it, but not past the last. */
  method PageLinks(page: int, totalPages: int) returns (links: seq<int>)
    requires page >= 1
    ensures |links| <= 5
    ensures forall k :: 0 <= k < |links| ==> 1 <= links[k] <= totalPages
    ensures forall k :: 0 <= k < |links| ==> page - 2 <= links[k] <= page + 2
    ensures forall k :: 0 < k < |links| ==> links[k] == links[k - 1] + 1
    ensures page <= totalPages <==> page in links
    // every page in the window is listed
    ensures forall i :: 1 <= i <= totalPages && page - 2 <= i <= page + 2 ==> i in links
  {
    var lo := if page - 2 > 1 then page - 2 else 1;
    var hi := if totalPages < page + 2 then totalPages else page + 2;
    links := [];
    var i := lo;
    while i <= hi
      invariant lo <= i <= if hi >= lo then hi + 1 else lo
      invariant |links| == i - lo
      invariant forall k :: 0 <= k < |links| ==> links[k] == lo + k
      decreases hi - i
    {
      links := links + [i];
      i := i + 1;
    }
    forall j | lo <= j <= hi
      ensures j in links
    {
      assert links[j - lo] == j;
    }
  }

  /** What the pagination block shows. */
  datatype Nav = Nav(shown: bool, previous: bool, next: bool)

  /** The block appears when there is more than one page; inside it, Previous
      when the page is past the first, Next when it is before the last. On a
      page that exists a shown block always offers a way to move, and every
      link it shows leads to a page that exists. */
  function NavFor(page: int, totalPages: int): (nav: Nav)
    requires page >= 1
    ensures nav.shown <==> totalPages > 1
    ensures nav.previous <==> nav.shown && page > 1
    ensures nav.next <==> nav.shown && page < totalPages
    ensures nav.shown && page <= totalPages ==> nav.previous || nav.next
    ensures nav.previous && page <= totalPages ==> 1 <= page - 1 <= totalPages
    ensures nav.next ==> 1 <= page + 1 <= totalPages
  {
    var shown := totalPages > 1;
    Nav(shown, shown && page > 1, shown && page < totalPages)
  }
}
