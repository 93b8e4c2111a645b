/** The in-memory order cache (internal/cache/cache.go), modelled single-threaded. */
module Cache {
  import opened Wrappers
  import opened Orders

  /** The map obtained by writing each order of `os`, in list order, over `m`. */
  function Restored(m: map<string, Order>, os: seq<Order>): map<string, Order>
    decreases |os|
  {
    if os == [] then m
    else
      var last := os[|os| - 1];
      Restored(m, os[..|os| - 1])[last.orderUid := last]
  }

  /** The position of the last order in `os` whose UID is `uid`, if there is one. */
  function LastIndexOf(os: seq<Order>, uid: string): (r: Option<nat>)
    ensures r.Some? ==> r.value < |os| && os[r.value].orderUid == uid
    ensures r.Some? ==> forall j :: r.value < j < |os| ==> os[j].orderUid != uid
    ensures r.None? <==> forall j :: 0 <= j < |os| ==> os[j].orderUid != uid
    decreases |os|
  {
    if os == [] then None
    else if os[|os| - 1].orderUid == uid then Some(|os| - 1)
    else LastIndexOf(os[..|os| - 1], uid)
  }

  /**
   * After restoring `os` over `m`, a UID that occurs in `os` maps to the last
   * order carrying it; any other key keeps exactly what `m` had.
   */
  lemma {:induction false} RestoredAt(m: map<string, Order>, os: seq<Order>, uid: string)
    ensures match LastIndexOf(os, uid)
            case Some(i) => uid in Restored(m, os) && Restored(m, os)[uid] == os[i]
            case None =>
              && (uid in Restored(m, os) <==> uid in m)
              && (uid in m ==> Restored(m, os)[uid] == m[uid])
    decreases |os|
  {
    if os != [] {
      RestoredAt(m, os[..|os| - 1], uid);
    }
  }

  /** The restored map's keys are the old keys plus every UID in the list. */
  lemma {:induction false} RestoredKeys(m: map<string, Order>, os: seq<Order>)
    ensures Restored(m, os).Keys == m.Keys + set o | o in os :: o.orderUid
    decreases |os|
  {
    if os != [] {
      var init, last := os[..|os| - 1], os[|os| - 1];
      RestoredKeys(m, init);
      assert os == init + [last];
      assert (set o | o in os :: o.orderUid) == (set o | o in init :: o.orderUid) + {last.orderUid};
    }
  }

  /** Every entry is keyed by its own order's UID. */
  ghost predicate KeyedByUid(m: map<string, Order>)
  {
    forall k :: k in m ==> m[k].orderUid == k
  }

  /** Restoring a list keeps the cache keyed by each order's own UID. */
  lemma {:induction false} RestoredKeyedByUid(m: map<string, Order>, os: seq<Order>)
    requires KeyedByUid(m)
    ensures KeyedByUid(Restored(m, os))
    decreases |os|
  {
    if os != [] {
      RestoredKeyedByUid(m, os[..|os| - 1]);
    }
  }

  class OrderCache {
    var orders: map<string, Order>

    /** The cache only ever stores an order under that order's own UID. */
    ghost predicate Valid()
      reads this
    {
      KeyedByUid(orders)
    }

    /** NewOrderCache: an empty cache. */
    constructor ()
      ensures Valid()
      ensures orders == map[]
    {
      orders := map[];
    }

    /** Inserts `o`, or overwrites the entry already held under `o.orderUid`. */
    method Set(o: Order)
      requires Valid()
      modifies this
      ensures Valid()
      ensures o.orderUid in orders && orders[o.orderUid] == o
      ensures orders.Keys == old(orders).Keys + {o.orderUid}
      ensures forall k :: k in old(orders) && k != o.orderUid ==> orders[k] == old(orders)[k]
    {
      orders := orders[o.orderUid := o];
    }

    /** Looks `uid` up; on a miss returns Go's zero order with `ok` false. */
    method Get(uid: string) returns (o: Order, ok: bool)
      ensures ok <==> uid in orders
      ensures ok ==> o == orders[uid]
      ensures !ok ==> o == EmptyOrder
      ensures Valid() && ok ==> o.orderUid == uid
    {
      if uid in orders {
        o, ok := orders[uid], true;
      } else {
        o, ok := EmptyOrder, false;
      }
    }

    /**
     * A snapshot of all entries in map iteration order, which Go leaves
     * unspecified: `keys` is the order in which the keys were visited, each
     * key exactly once.
     */
    method GetAll() returns (all: seq<Order>, ghost keys: seq<string>)
      ensures |all| == |orders|
      ensures forall k :: k in orders ==> orders[k] in all
      ensures forall o :: o in all ==> o in orders.Values
      ensures |keys| == |all|
      ensures forall i :: 0 <= i < |keys| ==> keys[i] in orders && all[i] == orders[keys[i]]
      ensures forall i, j :: 0 <= i < j < |keys| ==> keys[i] != keys[j]
      ensures forall k :: k in orders ==> k in keys
    {
      all, keys := [], [];
      var rest := orders.Keys;
      while rest != {}
        invariant rest <= orders.Keys
        invariant |all| == |keys|
        invariant |keys| + |rest| == |orders|
        invariant forall i :: 0 <= i < |keys| ==> keys[i] in orders && keys[i] !in rest && all[i] == orders[keys[i]]
        invariant forall i, j :: 0 <= i < j < |keys| ==> keys[i] != keys[j]
        invariant forall k :: k in orders ==> k in rest || k in keys
        decreases rest
      {
        var k :| k in rest;
        all, keys := all + [orders[k]], keys + [k];
        rest := rest - {k};
      }
    }

    /**
     * RestoreFromDB: `loaded` is what the loader returned. On a loader error
     * that error is returned and the cache is untouched; otherwise every
     * loaded order is written in list order.
     */
    method RestoreFromDB(loaded: Result<seq<Order>, Error>) returns (err: Option<Error>)
      requires Valid()
      modifies this
      ensures Valid()
      ensures loaded.Err? ==> err == Some(loaded.error) && orders == old(orders)
      ensures loaded.Ok? ==> err == None && orders == Restored(old(orders), loaded.value)
    {
      if loaded.Err? {
        return Some(loaded.error);
      }
      var os := loaded.value;
      var i := 0;
      while i < |os|
        invariant 0 <= i <= |os|
        invariant orders == Restored(old(orders), os[..i])
        invariant Valid()
      {
        assert os[..i + 1][..i] == os[..i];
        orders := orders[os[i].orderUid := os[i]];
        i := i + 1;
      }
      assert os[..i] == os;
      return None;
    }
  }
}
