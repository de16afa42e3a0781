/** Laws of the reference queues: sorted insertion, removal, and the per-price FIFOs inside them. */
module Queues {
  import opened Types
  import opened BookSpec

  /** No order stands behind one it beats on price. */
  ghost predicate Sorted(side: Side, q: Queue) {
    forall i, j :: 0 <= i < j < |q| ==> !Better(side, q[j].price, q[i].price)
  }

  ghost predicate UniqueIds(q: Queue) {
    forall i, j :: 0 <= i < j < |q| ==> q[i].orderId != q[j].orderId
  }

  ghost predicate UniqueClients(q: Queue) {
    forall i, j :: 0 <= i < j < |q| ==> q[i].clientOrderId != q[j].clientOrderId
  }

  lemma {:induction false} LotsAppend(a: Queue, b: Queue)
    ensures Lots(a + b) == Lots(a) + Lots(b)
  {
    if a == [] {
      assert a + b == b;
    } else {
      assert (a + b)[1..] == a[1..] + b;
      LotsAppend(a[1..], b);
    }
  }

  lemma {:induction false} LevelLotsBound(q: Queue, p: int)
    ensures LevelLots(q, p) <= Lots(q)
  {
    if q != [] { LevelLotsBound(q[1..], p); }
  }

  lemma {:induction false} AtPriceAppend(a: Queue, b: Queue, p: int)
    ensures AtPrice(a + b, p) == AtPrice(a, p) + AtPrice(b, p)
  {
    if a == [] {
      assert a + b == b;
    } else {
      assert (a + b)[1..] == a[1..] + b;
      AtPriceAppend(a[1..], b, p);
    }
  }

  lemma {:induction false} RemoveIdAppend(a: Queue, b: Queue, id: nat)
    ensures RemoveId(a + b, id) == RemoveId(a, id) + RemoveId(b, id)
  {
    if a == [] {
      assert a + b == b;
    } else {
      assert (a + b)[1..] == a[1..] + b;
      RemoveIdAppend(a[1..], b, id);
    }
  }

  /** What a per-price FIFO holds. */
  lemma {:induction false} AtPriceMember(q: Queue, p: int, o: OrderSnapshot)
    ensures o in AtPrice(q, p) <==> o in q && o.price == p
  {
    if q != [] {
      AtPriceMember(q[1..], p, o);
      assert q == [q[0]] + q[1..];
    }
  }

  lemma AtPriceEmpty(q: Queue, p: int)
    ensures AtPrice(q, p) == [] <==> forall i :: 0 <= i < |q| ==> q[i].price != p
  {
    if AtPrice(q, p) == [] {
      forall i | 0 <= i < |q| ensures q[i].price != p { AtPriceMember(q, p, q[i]); }
    } else {
      AtPriceMember(q, p, AtPrice(q, p)[0]);
    }
  }

  /** Removing an absent id changes nothing. */
  lemma {:induction false} RemoveAbsent(q: Queue, id: nat)
    requires !HasId(q, id)
    ensures RemoveId(q, id) == q
  {
    if q != [] {
      assert q[0].orderId != id;
      assert forall i :: 0 <= i < |q[1..]| ==> q[1..][i] == q[i + 1];
      RemoveAbsent(q[1..], id);
    }
  }

  /** Removing a present, unique id cuts out its one position. */
  lemma {:induction false} RemoveAt(q: Queue, k: nat)
    requires k < |q| && UniqueIds(q)
    ensures RemoveId(q, q[k].orderId) == q[..k] + q[k + 1..]
  {
    if k == 0 {
      RemoveAbsent(q[1..], q[0].orderId);
    } else {
      RemoveAt(q[1..], k - 1);
      assert q[..k] + q[k + 1..] == [q[0]] + (q[1..][..k - 1] + q[1..][k..]);
    }
  }

  lemma {:induction false} AtPriceRemove(q: Queue, id: nat, p: int)
    ensures AtPrice(RemoveId(q, id), p) == RemoveId(AtPrice(q, p), id)
  {
    if q != [] { AtPriceRemove(q[1..], id, p); }
  }

  lemma {:induction false} RemoveMember(q: Queue, id: nat, o: OrderSnapshot)
    ensures o in RemoveId(q, id) <==> o in q && o.orderId != id
  {
    if q != [] {
      RemoveMember(q[1..], id, o);
      assert q == [q[0]] + q[1..];
    }
  }

  lemma {:induction false} AtPriceUnique(q: Queue, p: int)
    requires UniqueIds(q)
    ensures UniqueIds(AtPrice(q, p))
  {
    if q != [] {
      AtPriceUnique(q[1..], p);
      if q[0].price == p {
        forall j | 0 <= j < |AtPrice(q[1..], p)|
          ensures AtPrice(q[1..], p)[j].orderId != q[0].orderId
        {
          AtPriceMember(q[1..], p, AtPrice(q[1..], p)[j]);
        }
      }
    }
  }

  lemma {:induction false} InsertMember(side: Side, q: Queue, o: OrderSnapshot, x: OrderSnapshot)
    ensures x in Insert(side, q, o) <==> x in q || x == o
  {
    if q != [] {
      InsertMember(side, q[1..], o, x);
      assert q == [q[0]] + q[1..];
    }
  }

  lemma {:induction false} InsertSorted(side: Side, q: Queue, o: OrderSnapshot)
    requires Sorted(side, q)
    ensures Sorted(side, Insert(side, q, o))
  {
    if q != [] && !Better(side, o.price, q[0].price) {
      InsertSorted(side, q[1..], o);
      var r := Insert(side, q[1..], o);
      forall j | 0 <= j < |r| ensures !Better(side, r[j].price, q[0].price) {
        InsertMember(side, q[1..], o, r[j]);
      }
    }
  }

  lemma {:induction false} InsertUnique(side: Side, q: Queue, o: OrderSnapshot)
    requires UniqueIds(q) && !HasId(q, o.orderId)
    ensures UniqueIds(Insert(side, q, o))
  {
    if q != [] && !Better(side, o.price, q[0].price) {
      assert forall i :: 0 <= i < |q[1..]| ==> q[1..][i] == q[i + 1];
      InsertUnique(side, q[1..], o);
      var r := Insert(side, q[1..], o);
      assert q[0].orderId != o.orderId;
      forall j | 0 <= j < |r| ensures r[j].orderId != q[0].orderId {
        InsertMember(side, q[1..], o, r[j]);
      }
    }
  }

  /** A newcomer joins the back of its own level and leaves every other level alone. */
  lemma {:induction false} AtPriceInsert(side: Side, q: Queue, o: OrderSnapshot, p: int)
    requires Sorted(side, q)
    ensures AtPrice(Insert(side, q, o), p) == AtPrice(q, p) + if p == o.price then [o] else []
  {
    if q == [] {
    } else if Better(side, o.price, q[0].price) {
      AtPriceEmpty(q, o.price);
    } else {
      AtPriceInsert(side, q[1..], o, p);
    }
  }

  /** The front of a sorted queue is the front of its best level. */
  lemma FrontOfLevel(q: Queue)
    requires q != []
    ensures AtPrice(q, q[0].price) != [] && AtPrice(q, q[0].price)[0] == q[0]
  {
  }

  lemma RemoveSorted(side: Side, q: Queue, id: nat)
    requires Sorted(side, q)
    ensures Sorted(side, RemoveId(q, id))
  {
    if q != [] {
      RemoveSorted(side, q[1..], id);
      var r := RemoveId(q[1..], id);
      forall j | 0 <= j < |r| ensures r[j] in q[1..] { RemoveMember(q[1..], id, r[j]); }
    }
  }

  lemma {:induction false} RemoveUnique(q: Queue, id: nat)
    requires UniqueIds(q)
    ensures UniqueIds(RemoveId(q, id))
  {
    if q != [] {
      RemoveUnique(q[1..], id);
      var r := RemoveId(q[1..], id);
      forall j | 0 <= j < |r| ensures r[j].orderId != q[0].orderId { RemoveMember(q[1..], id, r[j]); }
    }
  }

  /** An order's id occurs at its own price only. */
  lemma AtPriceLacks(q: Queue, o: OrderSnapshot, p: int)
    requires UniqueIds(q) && o in q && p != o.price
    ensures !HasId(AtPrice(q, p), o.orderId)
  {
    forall i | 0 <= i < |AtPrice(q, p)| ensures AtPrice(q, p)[i].orderId != o.orderId {
      AtPriceMember(q, p, AtPrice(q, p)[i]);
    }
  }

  /** Replacing the front order by one at the same price touches that order's level only. */
  lemma AtPriceFront(q: Queue, o: OrderSnapshot, p: int)
    requires q != [] && o.price == q[0].price
    ensures AtPrice([o] + q[1..], p) == if p == o.price then [o] + AtPrice(q, p)[1..] else AtPrice(q, p)
  {
    assert ([o] + q[1..])[1..] == q[1..];
  }

  /** Removing an order takes exactly its lots off its level. */
  lemma {:induction false} RemoveLots(q: Queue, o: OrderSnapshot)
    requires UniqueIds(q) && o in q
    ensures LevelLots(q, o.price) == o.remaining + LevelLots(RemoveId(q, o.orderId), o.price)
  {
    if q[0] == o {
      RemoveAbsent(q[1..], o.orderId);
    } else {
      assert q == [q[0]] + q[1..];
      var k :| 0 <= k < |q| && q[k] == o;
      assert q[0].orderId != o.orderId;
      RemoveLots(q[1..], o);
    }
  }

  lemma NoId(a: Queue, b: Queue, id: nat)
    requires !HasId(a + b, id)
    ensures !HasId(a, id) && !HasId(b, id)
  {
    forall i | 0 <= i < |a| ensures a[i].orderId != id { assert (a + b)[i] == a[i]; }
    forall i | 0 <= i < |b| ensures b[i].orderId != id { assert (a + b)[|a| + i] == b[i]; }
  }

  lemma NoIdBoth(a: Queue, b: Queue, id: nat)
    requires !HasId(a, id) && !HasId(b, id)
    ensures !HasId(a + b, id)
  {
  }

  lemma NoClient(a: Queue, b: Queue, client: nat)
    requires !HasClient(a + b, client)
    ensures !HasClient(a, client) && !HasClient(b, client)
  {
    forall i | 0 <= i < |a| ensures a[i].clientOrderId != client { assert (a + b)[i] == a[i]; }
    forall i | 0 <= i < |b| ensures b[i].clientOrderId != client { assert (a + b)[|a| + i] == b[i]; }
  }

  lemma NoClientBoth(a: Queue, b: Queue, client: nat)
    requires !HasClient(a, client) && !HasClient(b, client)
    ensures !HasClient(a + b, client)
  {
  }

  lemma PassedChecks(book: Book, c: PlaceOrderCommand)
    requires PlaceRejection(book, c).None?
    ensures !HasId(book.bids + book.asks, c.orderId) && !HasClient(book.bids + book.asks, c.clientOrderId)
    ensures c.orderType == Limit ==> ValidSymbolPrice(c.price, book.config)
  {
  }

  lemma SaneRemove(q: Queue, id: nat)
    requires SaneQuantities(q)
    ensures SaneQuantities(RemoveId(q, id))
  {
    forall x <- RemoveId(q, id) ensures 0 < x.remaining <= x.original { RemoveMember(q, id, x); }
  }

  lemma SaneInsert(side: Side, q: Queue, o: OrderSnapshot)
    requires SaneQuantities(q) && 0 < o.remaining <= o.original
    ensures SaneQuantities(Insert(side, q, o))
  {
    forall x <- Insert(side, q, o) ensures 0 < x.remaining <= x.original { InsertMember(side, q, o, x); }
  }
}
