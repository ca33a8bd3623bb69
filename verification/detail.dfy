/** The detail container built by `useDetail`. */
module DetailHook {
  import opened Common

  /** The container's observable state: the fetched item, `{}` until a fetch succeeds. */
  datatype DetailData<V> = DetailData(loading: bool, item: Record<V>)

  const BusyMessage := "getDetailData:Cannot be called while loading"

  function Initial<V>(): (d: DetailData<V>)
  {
    DetailData(false, map[])
  }

  /** `getDetailData` up to its `await`; the fetch carries no request data. */
  function Begin<V>(d: DetailData<V>): (r: (DetailData<V>, Launch<()>))
  {
    if d.loading then (d, Rejected(BusyMessage)) else (d.(loading := true), Launched(()))
  }

  /** The success branch of `getDetailData`. */
  function Succeed<V>(d: DetailData<V>, item: Record<V>): (r: DetailData<V>)
  {
    DetailData(false, item)
  }

  /** The catch branch of `getDetailData`. */
  function Fail<V>(d: DetailData<V>): (r: DetailData<V>)
  {
    d.(loading := false)
  }

  /** A fetch is refused exactly while one is loading, and a refused fetch changes nothing;
      a started one keeps the item shown until it settles. */
  lemma BeginGuard<V>(d: DetailData<V>)
    ensures Begin(d).1.Rejected? <==> d.loading
    ensures d.loading ==> Begin(d) == (d, Rejected(BusyMessage))
    ensures !d.loading ==> Begin(d).0 == DetailData(true, d.item)
  {
  }

  /** A fetch that starts and succeeds shows the received item; one that starts and fails
      shows the item it started with; both end not loading. */
  lemma FetchSettles<V>(d: DetailData<V>, item: Record<V>)
    requires !d.loading
    ensures Succeed(Begin(d).0, item) == DetailData(false, item)
    ensures Fail(Begin(d).0) == d
  {
  }

  class DetailContainer<V> {
    var loading: bool
    var item: Record<V>

    ghost function Data(): DetailData<V>
      reads this
    {
      DetailData(loading, item)
    }

    constructor ()
      ensures Data() == Initial()
    {
      loading := false;
      item := map[];
    }

    /** `getDetailData` up to its `await`: refused while loading, else marks it loading. */
    method GetDetailData() returns (launch: Launch<()>)
      modifies this
      ensures (Data(), launch) == Begin(old(Data()))
      ensures old(loading) ==> launch == Rejected(BusyMessage) && unchanged(this)
    {
      if loading {
        return Rejected(BusyMessage);
      }
      loading := true;
      launch := Launched(());
    }

    /** The rest of `getDetailData` once `onGetDetailData` resolves with `fetched`. */
    method ResolveDetailData(fetched: Record<V>)
      modifies this
      ensures Data() == Succeed(old(Data()), fetched)
    {
      item := fetched;
      loading := false;
    }

    /** The rest of `getDetailData` once `onGetDetailData` rejects with `err`, which it re-raises. */
    method RejectDetailData<E>(err: E) returns (raised: E)
      modifies this
      ensures raised == err
      ensures Data() == Fail(old(Data()))
    {
      loading := false;
      raised := err;
    }
  }
}
