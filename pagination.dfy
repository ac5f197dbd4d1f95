/** Pagination in the base view `ReswebView` (views.py): the view table
    (`_keys`, `_paginated`), the parse of the `start` query parameter in
    `dispatch`, and `page_range`, which lists the page links. */
module Pagination {
  import opened Results
  import opened Http
  import opened PyInt

  /** `ReswebView._items_per_page`. */
  const ItemsPerPage: nat := 20

  /** One page link (a `WebContainer(current=, start=, index=)`). */
  datatype Page = Page(current: bool, start: int, index: int)

  /** The number of pages `page_range` lists for `size` items: the integer
      quotient by the page size, plus one for a remainder. It is the ceiling
      of `size / ItemsPerPage`. */
  function NumPages(size: int): (n: nat)
    requires size >= ItemsPerPage
    ensures n >= 1
    ensures (n - 1) * ItemsPerPage < size <= n * ItemsPerPage
  {
    size / ItemsPerPage + (if size % ItemsPerPage > 0 then 1 else 0)
  }

  /** The pages as `page_range` writes them: in order, numbered from 1, and
      page `i` (from 0) starting at `i * num_pages` (the number of pages,
      not the page size), marked current exactly when that equals `start`. */
  ghost predicate PagesAsWritten(pages: seq<Page>, start: int)
  {
    forall i :: 0 <= i < |pages| ==>
      pages[i] == Page(i * |pages| == start, i * |pages|, i + 1)
  }

  /** The views of views.py, each a subclass of `ReswebView`. */
  datatype ViewKind =
    | Overview | Working | Queues | QueueDetail | Failed | Workers
    | WorkerDetail | Stats | Stat | Delayed | DelayedTimestamp

  /** Each view's `_keys`: the context entries it renders, each once, none
      of them the two every view renders anyway. */
  function ViewKeys(v: ViewKind): (keys: seq<string>)
    ensures |keys| >= 1
    ensures forall i, j :: 0 <= i < j < |keys| ==> keys[i] != keys[j]
    ensures "version" !in keys && "address" !in keys
  {
    match v
    case Overview => ["queues", "fail_count", "workers", "total_workers"]
    case Working => ["workers", "total_workers"]
    case Queues => ["queues", "fail_count"]
    case QueueDetail => ["queue", "size", "jobs", "start", "end", "queues", "page_range"]
    case Failed => ["start", "end", "failed_jobs", "size", "page_range"]
    case Workers => ["workers"]
    case WorkerDetail => ["worker"]
    case Stats => ["key", "stats", "key_title"]
    case Stat => ["key", "key_type", "size", "stat_items"]
    case Delayed => ["size", "jobs", "start", "end", "page_range"]
    case DelayedTimestamp => ["start", "end", "jobs", "size", "timestamp", "page_range"]
  }

  /** Each view's `_paginated` (absent means false). A paginated view
      renders its `size`, from which `page_range` counts the pages. */
  predicate Paginated(v: ViewKind)
    ensures Paginated(v) ==> "size" in ViewKeys(v)
  {
    v.QueueDetail? || v.Failed? || v.Delayed? || v.DelayedTimestamp?
  }

  /** `_get_keys`: every view renders its version and address, then its own keys. */
  function ContextKeys(v: ViewKind): (keys: seq<string>)
    ensures |keys| == |ViewKeys(v)| + 2
    ensures keys[..2] == ["version", "address"] && keys[2..] == ViewKeys(v)
  {
    ["version", "address"] + ViewKeys(v)
  }

  /** One key that reads the offset `dispatch` sets is in a view's keys
      exactly when the view is paginated. */
  lemma PagingKeyInViewKeys(k: string, v: ViewKind)
    requires k == "page_range" || k == "start" || k == "end"
    ensures k in ViewKeys(v) <==> Paginated(v)
  {
    if Paginated(v) {
      match v {
        case QueueDetail =>
        case Failed =>
        case Delayed =>
        case DelayedTimestamp =>
      }
    } else {
      match v {
        case Overview =>
        case Working =>
        case Queues =>
        case Workers =>
        case WorkerDetail =>
        case Stats =>
        case Stat =>
      }
    }
  }

  /** A view renders `page_range`, `start` and `end`, which read the offset
      `dispatch` sets only for paginated views, exactly when it is paginated. */
  lemma PagingKeysOnlyOnPaginatedViews(v: ViewKind)
    ensures "page_range" in ContextKeys(v) <==> Paginated(v)
    ensures "start" in ContextKeys(v) <==> Paginated(v)
    ensures "end" in ContextKeys(v) <==> Paginated(v)
  {
    var keys := ContextKeys(v);
    assert keys == ["version", "address"] + ViewKeys(v);
    PagingKeyInViewKeys("page_range", v);
    PagingKeyInViewKeys("start", v);
    PagingKeyInViewKeys("end", v);
  }

  /** The offset `dispatch` takes from the query: `int()` of the `start`
      parameter; 0 if it is missing or not an integer. */
  function ParseStart(query: map<string, string>): (start: int)
    ensures "start" !in query ==> start == 0
    ensures "start" in query && ParseInt(query["start"]).None? ==> start == 0
    ensures "start" in query && ParseInt(query["start"]).Some? ==> start == ParseInt(query["start"]).value
  {
    if "start" !in query then 0
    else match ParseInt(query["start"])
      case Some(n) => n
      case None => 0
  }

  /** The link to the page at offset `n` carries `start=n`; reading it back gives `n`. */
  lemma ParseStartOfLink(n: int, query: map<string, string>)
    ensures ParseStart(query["start" := IntToString(n)]) == n
  {
    IntRoundTrip(n);
  }

  /** A query whose `start` holds no digit at all starts at offset 0. */
  lemma ParseStartWithoutDigits(query: map<string, string>)
    requires "start" in query
    requires forall i :: 0 <= i < |query["start"]| ==> !IsDigit(query["start"][i])
    ensures ParseStart(query) == 0
  {
    NoDigitsNoInt(query["start"]);
  }

  /** Multiplying by a positive `n` keeps distinct integers at least `n` apart. */
  lemma {:induction false} MulStrictlyMonotone(i: int, j: int, n: int)
    requires i < j && n > 0
    ensures i * n + n <= j * n
    decreases j - i
  {
    assert j * n == (j - 1) * n + n;
    if j > i + 1 {
      MulStrictlyMonotone(i, j - 1, n);
    }
  }

  /** At most one page is current. */
  lemma {:induction false} AtMostOneCurrentPage(pages: seq<Page>, start: int)
    requires PagesAsWritten(pages, start)
    ensures forall i, j :: 0 <= i < |pages| && 0 <= j < |pages| && pages[i].current && pages[j].current ==> i == j
  {
    forall i, j | 0 <= i < |pages| && 0 <= j < |pages| && pages[i].current && pages[j].current
      ensures i == j
    {
      if i < j { MulStrictlyMonotone(i, j, |pages|); }
      if j < i { MulStrictlyMonotone(j, i, |pages|); }
    }
  }

  /** Dividing a multiple of `n` by `n` leaves no remainder. */
  lemma DivOfMultiple(i: int, n: int)
    requires n > 0
    ensures (i * n) / n == i && (i * n) % n == 0
  {
    var q, r := (i * n) / n, (i * n) % n;
    assert i * n == q * n + r && 0 <= r < n;
    if i > q { MulStrictlyMonotone(q, i, n); }
    if i < q { MulStrictlyMonotone(i, q, n); }
  }

  /** A multiple `q * n` of `n > 0` lies in `[0, n * n)` exactly when `0 <= q < n`. */
  lemma MultipleInSquare(q: int, n: int)
    requires n > 0
    ensures 0 <= q * n < n * n <==> 0 <= q < n
  {
    if q >= n { if q > n { MulStrictlyMonotone(n, q, n); } }
    if q < 0 { MulStrictlyMonotone(q, 0, n); }
    if 0 <= q < n { MulStrictlyMonotone(q, n, n); if q > 0 { MulStrictlyMonotone(0, q, n); } }
  }

  /** Some page is current exactly when `start` is a multiple of the number
      of pages `n` below `n * n`; the current page is then number `start / n + 1`. */
  lemma {:induction false} CurrentPageExists(pages: seq<Page>, start: int)
    requires PagesAsWritten(pages, start) && |pages| > 0
    ensures (exists i :: 0 <= i < |pages| && pages[i].current) <==>
      (0 <= start < |pages| * |pages| && start % |pages| == 0)
    ensures 0 <= start < |pages| * |pages| && start % |pages| == 0 ==>
      var q := start / |pages|; 0 <= q < |pages| && pages[q].current && pages[q].index == q + 1
  {
    var n := |pages|;
    if exists i :: 0 <= i < n && pages[i].current {
      var i :| 0 <= i < n && pages[i].current;
      assert start == i * n;
      DivOfMultiple(i, n);
      MultipleInSquare(i, n);
    }
    if 0 <= start < n * n && start % n == 0 {
      var q := start / n;
      assert start == q * n;
      MultipleInSquare(q, n);
      assert pages[q].current;
    }
  }

  /** A view of views.py, with the offsets `dispatch` sets on paginated views. */
  class ReswebView {
    const kind: ViewKind
    /** `_start`: the first item shown; meaningful once a paginated view is dispatched. */
    var start: int
    /** `_end`: one past the last item shown. */
    var end: int

    constructor (kind: ViewKind)
      ensures this.kind == kind && start == 0 && end == 0
    {
      this.kind := kind;
      start, end := 0, 0;
    }

    /** The pagination part of `dispatch`: a paginated view takes its offset
        from the request and shows one page of items from there. */
    method Dispatch(request: Request)
      modifies this
      ensures Paginated(kind) ==> start == ParseStart(request.query) && end == start + ItemsPerPage
      ensures !Paginated(kind) ==> start == old(start) && end == old(end)
    {
      if Paginated(kind) {
        var s := 0;
        if "start" in request.query {
          match ParseInt(request.query["start"]) {
            case Some(n) => s := n;
            case None => s := 0;
          }
        }
        start := s;
        end := start + ItemsPerPage;
      }
    }

    /** `page_range`: no links when everything fits on one page; otherwise
        one link per page, laid out as `PagesAsWritten` says. */
    method PageRange(size: int) returns (pages: seq<Page>)
      ensures size < ItemsPerPage ==> pages == []
      ensures size >= ItemsPerPage ==> |pages| == NumPages(size)
      ensures PagesAsWritten(pages, start)
    {
      pages := [];
      if size < ItemsPerPage {
        return;
      }
      var numPages := size / ItemsPerPage;
      if size % ItemsPerPage > 0 {
        numPages := numPages + 1;
      }
      for i := 0 to numPages
        invariant |pages| == i
        invariant forall k :: 0 <= k < i ==> pages[k] == Page(k * numPages == start, k * numPages, k + 1)
      {
        var inum := i * numPages;
        var current := inum == start;
        pages := pages + [Page(current, inum, i + 1)];
      }
    }
  }

  /** The page links as they were evidently meant: page `i` starts at
      `i * ItemsPerPage`, where the view's `start` parameter lands. */
  function IntendedPages(size: int, start: int): (pages: seq<Page>)
    ensures size < ItemsPerPage ==> pages == []
    ensures size >= ItemsPerPage ==> |pages| == NumPages(size)
    ensures forall i :: 0 <= i < |pages| ==>
      pages[i].start == i * ItemsPerPage && pages[i].index == i + 1 && pages[i].current == (pages[i].start == start)
  {
    if size < ItemsPerPage then []
    else seq(NumPages(size), i => Page(i * ItemsPerPage == start, i * ItemsPerPage, i + 1))
  }

  /** With the intended offsets every item lies on exactly one page, the one
      numbered `k / ItemsPerPage + 1`. */
  lemma {:induction false} IntendedPagesTile(size: int, start: int, k: int)
    requires size >= ItemsPerPage && 0 <= k < size
    ensures var pages := IntendedPages(size, start);
      var p := k / ItemsPerPage;
      0 <= p < |pages| && pages[p].start <= k < pages[p].start + ItemsPerPage &&
      forall i :: 0 <= i < |pages| && pages[i].start <= k < pages[i].start + ItemsPerPage ==> i == p
  {
    var pages := IntendedPages(size, start);
    var p := k / ItemsPerPage;
    assert p * ItemsPerPage <= k < p * ItemsPerPage + ItemsPerPage;
    assert p < |pages|;
    forall i | 0 <= i < |pages| && pages[i].start <= k < pages[i].start + ItemsPerPage
      ensures i == p
    {
      if i < p { MulStrictlyMonotone(i + 1, p + 1, ItemsPerPage); }
      if p < i { MulStrictlyMonotone(p + 1, i + 1, ItemsPerPage); }
    }
  }

  /** As written, 60 items give three links at offsets 0, 3 and 6. If a
      page shows the 20 items `[start, start + 20)`, as `_end = _start + 20`
      suggests, the second page overlaps the first and item 59 is on no
      page. */
  lemma AsWrittenPagesOverlap(pages: seq<Page>)
    requires |pages| == NumPages(60) && PagesAsWritten(pages, 0)
    ensures |pages| == 3
    ensures pages[1].start == 3 && pages[2].start == 6
    ensures pages[1].start < pages[0].start + ItemsPerPage
    ensures forall i :: 0 <= i < |pages| ==> !(pages[i].start <= 59 < pages[i].start + ItemsPerPage)
  {
    assert pages[0] == Page(true, 0, 1);
    assert pages[1] == Page(false, 3, 2);
    assert pages[2] == Page(false, 6, 3);
  }
}
