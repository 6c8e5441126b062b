/**
 * `GET /orders` (backend/index.js): every stored order, newest `orderDate`
 * first. The database's order among equal dates is unspecified, so the model
 * promises only the ordering and the contents.
 */
module OrderListing {
  import opened OrderModel

  predicate NewestFirst(s: seq<Order>) {
    forall i, j :: 0 <= i < j < |s| ==> s[i].orderDate >= s[j].orderDate
  }

  /** Places `o` into a list that is already newest first. */
  function InsertByDate(o: Order, s: seq<Order>): (r: seq<Order>)
    requires NewestFirst(s)
    ensures NewestFirst(r)
    ensures multiset(r) == multiset(s) + multiset{o}
    ensures |r| > 0 && (r[0] == o || (|s| > 0 && r[0] == s[0]))
  {
    if |s| == 0 then [o]
    else if o.orderDate >= s[0].orderDate then [o] + s
    else
      var rest := InsertByDate(o, s[1..]);
      HeadBound(s[0], rest, o, s[1..]);
      assert s == [s[0]] + s[1..];
      [s[0]] + rest
  }

  /** Prepending an order at least as new as the head keeps a list newest first. */
  lemma HeadBound(h: Order, rest: seq<Order>, o: Order, tail: seq<Order>)
    requires NewestFirst(rest) && NewestFirst([h] + tail)
    requires |rest| > 0 && (rest[0] == o || (|tail| > 0 && rest[0] == tail[0]))
    requires o.orderDate < h.orderDate
    ensures NewestFirst([h] + rest)
  {
    if rest[0] != o {
      assert ([h] + tail)[0] == h && ([h] + tail)[1] == tail[0];
    }
    assert h.orderDate >= rest[0].orderDate;
    forall i, j | 0 <= i < j < |[h] + rest|
      ensures ([h] + rest)[i].orderDate >= ([h] + rest)[j].orderDate
    {
      if i == 0 {
        assert ([h] + rest)[j] == rest[j - 1];
        assert rest[0].orderDate >= rest[j - 1].orderDate;
      } else {
        assert ([h] + rest)[i] == rest[i - 1] && ([h] + rest)[j] == rest[j - 1];
      }
    }
  }

  /** Sorts by `orderDate`, newest first, keeping every order. */
  function SortNewestFirst(s: seq<Order>): (r: seq<Order>)
    ensures NewestFirst(r)
    ensures multiset(r) == multiset(s)
  {
    if |s| == 0 then []
    else
      assert s == [s[0]] + s[1..];
      InsertByDate(s[0], SortNewestFirst(s[1..]))
  }

  /** The keys under which the store holds a given order. */
  ghost function KeysHolding(store: OrderStore, o: Order): set<OrderId> {
    set k | k in store && store[k] == o
  }

  /** Taking one key out of the store takes it out of the holders of its own order only. */
  lemma KeysHoldingSplit(store: OrderStore, k: OrderId, o: Order)
    requires k in store
    ensures |KeysHolding(store, o)| == (if store[k] == o then 1 else 0) + |KeysHolding(store - {k}, o)|
  {
    var rest := store - {k};
    if store[k] == o {
      assert KeysHolding(store, o) == KeysHolding(rest, o) + {k};
      assert k !in KeysHolding(rest, o);
    } else {
      assert KeysHolding(store, o) == KeysHolding(rest, o);
    }
  }

  /** The orders of the store in some order (the collection's natural order), one per stored key. */
  ghost function StoreOrders(store: OrderStore): (s: seq<Order>)
    ensures |s| == |store|
    ensures forall o :: o in s <==> o in store.Values
    ensures forall o :: multiset(s)[o] == |KeysHolding(store, o)|
    decreases |store|
  {
    if |store| == 0 then []
    else
      var k :| k in store;
      var rest := store - {k};
      assert |rest| == |store| - 1 by {
        assert rest.Keys == store.Keys - {k};
      }
      var s := [store[k]] + StoreOrders(rest);
      assert forall o :: o in store.Values ==> o in s by {
        forall o | o in store.Values
          ensures o in s
        {
          var k' :| k' in store && store[k'] == o;
          if k' != k {
            assert k' in rest;
            assert o in rest.Values;
          }
        }
      }
      var tail := StoreOrders(rest);
      assert multiset(s) == multiset{store[k]} + multiset(tail);
      forall o
        ensures multiset(s)[o] == |KeysHolding(store, o)|
      {
        KeysHoldingSplit(store, k, o);
      }
      s
  }

  /** `GET /orders`: every stored order once per key holding it and nothing else, newest first. */
  ghost function ListOrders(store: OrderStore): (r: seq<Order>)
    ensures NewestFirst(r)
    ensures |r| == |store|
    ensures forall o :: o in r <==> o in store.Values
    ensures forall o :: multiset(r)[o] == |KeysHolding(store, o)|
  {
    var s := StoreOrders(store);
    var r := SortNewestFirst(s);
    assert forall o :: o in r <==> o in s by {
      forall o
        ensures o in r <==> o in s
      {
        assert o in r <==> o in multiset(r);
        assert o in s <==> o in multiset(s);
      }
    }
    assert |r| == |multiset(r)| == |multiset(s)| == |s|;
    r
  }
}
