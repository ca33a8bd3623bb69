/** The paginated list container built by `useList`. */
module ListHook {
  import opened Common

  /** A page size the list divides by; `setPageSize` is only modelled for positive sizes. */
  type PageSize = n: nat | 0 < n witness 1

  /** A numeric slot of `pagination`: a count, or the `undefined` / `NaN` that a later page
      without `totalItems` leaves in `totalItems` / `totalPage`. */
  datatype Count = Known(n: nat) | NotANumber

  datatype Pagination = Pagination(currentPage: int, pageSize: PageSize, totalItems: Count, totalPage: Count)

  /** The container's observable state, the `data` object of `useList`. */
  datatype ListData<I> = ListData(loading: bool, isFinish: bool, items: seq<I>, pagination: Pagination)

  /** What `onGetListData` resolves with: `items` may be null and `totalItems` may be absent. */
  datatype ListResponse<I> = ListResponse(items: Option<seq<I>>, totalItems: Option<nat>)

  /** A started fetch: the query passed to `onGetListData`, and whether it asked for page 1,
      which is decided when the fetch starts. */
  datatype Query = Query(currentPage: int, pageSize: PageSize, isFirstPage: bool)

  const DefaultPageSize: PageSize := 10
  const BusyMessage := "getListData:Cannot be called while loading"

  // ---------------------------------------------------------------------------------------
  // Specification: the container's transitions on values

  function Initial<I>(pageSizeOption: Option<nat>): (d: ListData<I>)
  {
    var size: PageSize := if pageSizeOption.Some? && pageSizeOption.value != 0 then pageSizeOption.value else DefaultPageSize;
    ListData(false, false, [], Pagination(1, size, Known(0), Known(0)))
  }

  /** Integer ceiling of `n / d`: the least `q` with `n <= q * d`. */
  function CeilDiv(n: nat, d: PageSize): (q: nat)
    ensures n <= q * d
    ensures q == 0 || (q - 1) * d < n
  {
    var q := (n + d - 1) / d;
    assert n + d - 1 == q * d + (n + d - 1) % d;
    q
  }

  function ResponseItems<I>(res: ListResponse<I>): (items: seq<I>)
  {
    match res.items
    case Some(s) => s
    case None => []
  }

  /** `totalItems` after a fetch: on page 1 the response's count, or the number of items when
      that is absent or 0; on a later page the response's count as given. */
  function ReportedTotal<I>(isFirstPage: bool, res: ListResponse<I>): (total: Count)
  {
    if isFirstPage then
      if res.totalItems.Some? && res.totalItems.value != 0 then Known(res.totalItems.value)
      else Known(|ResponseItems(res)|)
    else if res.totalItems.Some? then Known(res.totalItems.value)
    else NotANumber
  }

  function PageCount(total: Count, size: PageSize): (pages: Count)
  {
    match total
    case Known(n) => Known(CeilDiv(n, size))
    case NotANumber => NotANumber
  }

  /** The list after a fetch: replaced on page 1 or without `listDataAppend`, else appended to. */
  function MergeItems<I>(current: seq<I>, fetched: seq<I>, isFirstPage: bool, append: bool): (merged: seq<I>)
  {
    if isFirstPage || !append then fetched else current + fetched
  }

  /** `items.map(callback)`: the callback sees each item, its index and the whole list. */
  function MapItems<I>(items: seq<I>, f: (I, nat, seq<I>) -> I): (mapped: seq<I>)
    ensures |mapped| == |items|
    ensures forall i :: 0 <= i < |items| ==> mapped[i] == f(items[i], i, items)
  {
    seq(|items|, i requires 0 <= i < |items| => f(items[i], i, items))
  }

  /** `getListData` up to its `await`. */
  function Begin<I>(d: ListData<I>): (r: (ListData<I>, Launch<Query>))
  {
    if d.loading then (d, Rejected(BusyMessage))
    else
      var p := d.pagination;
      (d.(isFinish := false, loading := true), Launched(Query(p.currentPage, p.pageSize, p.currentPage == 1)))
  }

  /** The success branch of `getListData`; it divides by the page size current at completion. */
  function Succeed<I>(d: ListData<I>, q: Query, res: ListResponse<I>, append: bool): (r: ListData<I>)
  {
    var total := ReportedTotal(q.isFirstPage, res);
    d.(items := MergeItems(d.items, ResponseItems(res), q.isFirstPage, append),
       pagination := d.pagination.(totalItems := total, totalPage := PageCount(total, d.pagination.pageSize)),
       isFinish := true,
       loading := false)
  }

  /** The catch branch of `getListData`. */
  function Fail<I>(d: ListData<I>): (r: ListData<I>)
  {
    d.(loading := false)
  }

  function WithCurrentPage<I>(d: ListData<I>, page: int): (r: ListData<I>)
  {
    d.(pagination := d.pagination.(currentPage := page))
  }

  function WithPageSize<I>(d: ListData<I>, size: PageSize): (r: ListData<I>)
  {
    d.(pagination := d.pagination.(pageSize := size, currentPage := 1))
  }

  // ---------------------------------------------------------------------------------------
  // Properties of the transitions

  /** `totalPage` is determined by its two defining inequalities. */
  lemma CeilDivUnique(n: nat, d: PageSize, k: nat)
    requires n <= k * d
    requires k == 0 || (k - 1) * d < n
    ensures k == CeilDiv(n, d)
  {
    var q: int, m: int := CeilDiv(n, d), k;
    MulMonotone(m, q - 1, d);
    MulMonotone(q, m - 1, d);
  }

  lemma MulMonotone(a: int, b: int, d: nat)
    ensures a <= b ==> a * d <= b * d
  {
    assert b * d == a * d + (b - a) * d;
  }

  /** A fetch is refused exactly while one is loading, and a refused fetch changes nothing. */
  lemma BeginGuard<I>(d: ListData<I>)
    ensures Begin(d).1.Rejected? <==> d.loading
    ensures d.loading ==> Begin(d) == (d, Rejected(BusyMessage))
    ensures !d.loading ==> var s := Begin(d).0;
      s.loading && !s.isFinish && s.items == d.items && s.pagination == d.pagination
    ensures !d.loading ==>
      Begin(d).1.request == Query(d.pagination.currentPage, d.pagination.pageSize, d.pagination.currentPage == 1)
  {
  }

  /** After a successful fetch the list is finished, no longer loading, on the same page, and
      `totalPage` is the least page count that holds `totalItems` items at the current size. */
  lemma SucceedPagination<I>(d: ListData<I>, q: Query, res: ListResponse<I>, append: bool)
    ensures var s := Succeed(d, q, res, append);
      !s.loading && s.isFinish &&
      s.pagination.currentPage == d.pagination.currentPage &&
      s.pagination.pageSize == d.pagination.pageSize &&
      (s.pagination.totalItems.Known? <==> s.pagination.totalPage.Known?)
    ensures var s := Succeed(d, q, res, append);
      s.pagination.totalItems.Known? ==>
        var n, pages, size := s.pagination.totalItems.n, s.pagination.totalPage.n, s.pagination.pageSize;
        n <= pages * size && (pages == 0 || (pages - 1) * size < n)
  {
  }

  /** On page 1, `totalItems` is the response's non-zero count, otherwise the number of items
      received; on a later page it is the response's count, or undefined when it has none. */
  lemma SucceedTotalItems<I>(d: ListData<I>, q: Query, res: ListResponse<I>, append: bool)
    ensures var t := Succeed(d, q, res, append).pagination.totalItems;
      q.isFirstPage ==>
        t == if res.totalItems.Some? && res.totalItems.value > 0 then Known(res.totalItems.value)
             else Known(|ResponseItems(res)|)
    ensures var t := Succeed(d, q, res, append).pagination.totalItems;
      !q.isFirstPage ==> (t.Known? <==> res.totalItems.Some?) && (t.Known? ==> t.n == res.totalItems.value)
  {
  }

  /** The received items replace the list on page 1 or without appending; otherwise they follow
      the items already shown, in order. A null list counts as empty. */
  lemma SucceedItems<I>(d: ListData<I>, q: Query, res: ListResponse<I>, append: bool)
    ensures var s, fetched := Succeed(d, q, res, append).items, ResponseItems(res);
      (q.isFirstPage || !append ==> s == fetched) &&
      (!q.isFirstPage && append ==>
        |s| == |d.items| + |fetched| && s[..|d.items|] == d.items && s[|d.items|..] == fetched)
    ensures res.items.None? ==> ResponseItems(res) == []
  {
  }

  /** A fetch that starts and then fails leaves the list unfinished, not loading, and with the
      items and pagination it had before it started. */
  lemma FailedFetch<I>(d: ListData<I>)
    requires !d.loading
    ensures var s := Fail(Begin(d).0);
      !s.loading && !s.isFinish && s.items == d.items && s.pagination == d.pagination
  {
  }

  /** `setPageSize` returns to page 1 and leaves the totals to the next completed fetch. */
  lemma PageSizeKeepsTotals<I>(d: ListData<I>, size: PageSize)
    ensures var s := WithPageSize(d, size);
      s.pagination == Pagination(1, size, d.pagination.totalItems, d.pagination.totalPage) &&
      s.items == d.items && s.loading == d.loading && s.isFinish == d.isFinish
  {
  }

  // ---------------------------------------------------------------------------------------
  // Overlapping calls: the loading guard keeps at most one fetch in flight

  /** What can happen to a list: a call of `getListData` (directly or after `setCurrentPage` /
      `setPageSize` update the pagination), a call of `setItems`, or the settlement of the
      oldest pending fetch. */
  datatype ListEvent<!I> = Fetch | SetPage(page: int) | SetSize(size: PageSize)
                        | MapWith(f: (I, nat, seq<I>) -> I)
                        | Resolve(res: ListResponse<I>) | Throw

  /** The list together with the fetches started and not yet settled. */
  datatype Session<I> = Session(data: ListData<I>, pending: seq<Query>)

  function Call<I>(s: Session<I>, d: ListData<I>): (r: Session<I>)
  {
    var (next, launch) := Begin(d);
    if launch.Launched? then Session(next, s.pending + [launch.request]) else Session(next, s.pending)
  }

  function Step<I>(s: Session<I>, e: ListEvent<I>, append: bool): (r: Session<I>)
  {
    match e
    case Fetch => Call(s, s.data)
    case SetPage(page) => Call(s, WithCurrentPage(s.data, page))
    case SetSize(size) => Call(s, WithPageSize(s.data, size))
    case MapWith(f) => s.(data := s.data.(items := MapItems(s.data.items, f)))
    case Resolve(res) =>
      if s.pending == [] then s else Session(Succeed(s.data, s.pending[0], res, append), s.pending[1..])
    case Throw =>
      if s.pending == [] then s else Session(Fail(s.data), s.pending[1..])
  }

  function Run<I>(s: Session<I>, events: seq<ListEvent<I>>, append: bool): (r: Session<I>)
    decreases |events|
  {
    if events == [] then s else Run(Step(s, events[0], append), events[1..], append)
  }

  /** `loading` is set exactly while one fetch is pending, and never more than one is; and a
      finished list's `totalPage` fits its `totalItems` at the page size now in force. */
  ghost predicate SingleFlight<I>(s: Session<I>)
  {
    |s.pending| <= 1 && (s.data.loading <==> |s.pending| == 1) &&
    (s.data.isFinish ==>
       !s.data.loading &&
       s.data.pagination.totalPage == PageCount(s.data.pagination.totalItems, s.data.pagination.pageSize))
  }

  lemma StepKeepsSingleFlight<I>(s: Session<I>, e: ListEvent<I>, append: bool)
    requires SingleFlight(s)
    ensures SingleFlight(Step(s, e, append))
  {
  }

  lemma {:induction false} RunKeepsSingleFlight<I>(s: Session<I>, events: seq<ListEvent<I>>, append: bool)
    requires SingleFlight(s)
    ensures SingleFlight(Run(s, events, append))
    decreases |events|
  {
    if events != [] {
      StepKeepsSingleFlight(s, events[0], append);
      RunKeepsSingleFlight(Step(s, events[0], append), events[1..], append);
    }
  }

  /** From a fresh container, whatever is called and settled in whatever order, at most one
      fetch is in flight, `loading` says whether one is, and whenever `isFinish` is set the
      page count is the ceiling of `totalItems` over the current page size (so a page size
      changed during a fetch is the one the count uses). */
  lemma SingleFlightFromStart<I>(pageSizeOption: Option<nat>, events: seq<ListEvent<I>>, append: bool)
    ensures var s := Run(Session(Initial(pageSizeOption), []), events, append);
      |s.pending| <= 1 && (s.data.loading <==> |s.pending| == 1)
    ensures var p := Run(Session(Initial(pageSizeOption), []), events, append).data.pagination;
      Run(Session(Initial(pageSizeOption), []), events, append).data.isFinish ==>
        (p.totalItems.Known? <==> p.totalPage.Known?) &&
        (p.totalItems.Known? ==>
           p.totalItems.n <= p.totalPage.n * p.pageSize &&
           (p.totalPage.n == 0 || (p.totalPage.n - 1) * p.pageSize < p.totalItems.n))
  {
    RunKeepsSingleFlight(Session(Initial(pageSizeOption), []), events, append);
  }

  // ---------------------------------------------------------------------------------------
  // The container

  class ListContainer<I> {
    var loading: bool
    var isFinish: bool
    var items: seq<I>
    var pagination: Pagination
    /** The `listDataAppend` configuration flag. */
    const listDataAppend: bool

    ghost function Data(): ListData<I>
      reads this
    {
      ListData(loading, isFinish, items, pagination)
    }

    constructor (pageSizeOption: Option<nat>, listDataAppend: bool)
      ensures Data() == Initial(pageSizeOption)
      ensures this.listDataAppend == listDataAppend
    {
      loading, isFinish, items := false, false, [];
      var size: PageSize := DefaultPageSize;
      if pageSizeOption.Some? && pageSizeOption.value != 0 {
        size := pageSizeOption.value;
      }
      pagination := Pagination(1, size, Known(0), Known(0));
      this.listDataAppend := listDataAppend;
    }

    /** `getListData` up to its `await`: refused while loading, else starts the query. */
    method GetListData() returns (launch: Launch<Query>)
      modifies this
      ensures (Data(), launch) == Begin(old(Data()))
      ensures old(loading) ==> launch == Rejected(BusyMessage) && unchanged(this)
    {
      if loading {
        return Rejected(BusyMessage);
      }
      isFinish := false;
      loading := true;
      launch := Launched(Query(pagination.currentPage, pagination.pageSize, pagination.currentPage == 1));
    }

    /** The rest of `getListData` once `onGetListData` resolves with `res`. */
    method ResolveListData(query: Query, res: ListResponse<I>)
      modifies this
      ensures Data() == Succeed(old(Data()), query, res, listDataAppend)
    {
      var fetched := if res.items.Some? then res.items.value else [];
      var totalItems: Count;
      if query.isFirstPage {
        totalItems := if res.totalItems.Some? && res.totalItems.value != 0 then Known(res.totalItems.value) else Known(|fetched|);
      } else {
        totalItems := if res.totalItems.Some? then Known(res.totalItems.value) else NotANumber;
      }
      if query.isFirstPage || !listDataAppend {
        items := fetched;
      } else {
        items := items + fetched;
      }
      var totalPage := if totalItems.Known? then Known(CeilDiv(totalItems.n, pagination.pageSize)) else NotANumber;
      pagination := pagination.(totalItems := totalItems, totalPage := totalPage);
      isFinish := true;
      loading := false;
    }

    /** The rest of `getListData` once `onGetListData` rejects with `err`, which it re-raises. */
    method RejectListData<E>(err: E) returns (raised: E)
      modifies this
      ensures raised == err
      ensures Data() == Fail(old(Data()))
    {
      loading := false;
      raised := err;
    }

    method SetCurrentPage(page: int) returns (launch: Launch<Query>)
      modifies this
      ensures (Data(), launch) == Begin(WithCurrentPage(old(Data()), page))
    {
      pagination := pagination.(currentPage := page);
      launch := GetListData();
    }

    method SetPageSize(size: PageSize) returns (launch: Launch<Query>)
      modifies this
      ensures (Data(), launch) == Begin(WithPageSize(old(Data()), size))
    {
      pagination := pagination.(pageSize := size, currentPage := 1);
      launch := GetListData();
    }

    method SetItems(f: (I, nat, seq<I>) -> I)
      modifies this
      ensures Data() == old(Data()).(items := MapItems(old(items), f))
    {
      items := MapItems(items, f);
    }
  }
}
