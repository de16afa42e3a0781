/**
  What a snapshot and a restore preserve.  The snapshot lists a book's orders by id and the restore re-inserts them in
  that order, so time priority within a price survives exactly when it agreed with the order of ids.
 */
module RestoreLaws {
  import opened Types
  import opened BookSpec
  import opened Queues
  import opened MatchLaws
  import opened BookLaws
  import opened CoreSpec
  import opened CoreLaws
  import opened CoreRuns

  // ---------- Sorting by id ----------

  ghost predicate ById(q: Queue) {
    forall i, j :: 0 <= i < j < |q| ==> q[i].orderId < q[j].orderId
  }

  lemma {:induction false} InsertByIdMember(q: Queue, o: OrderSnapshot, x: OrderSnapshot)
    ensures x in InsertById(q, o) <==> x in q || x == o
  {
    if q != [] && o.orderId > q[0].orderId {
      InsertByIdMember(q[1..], o, x);
      assert q == [q[0]] + q[1..];
    }
  }

  lemma {:induction false} InsertByIdSorted(q: Queue, o: OrderSnapshot)
    requires ById(q) && !HasId(q, o.orderId)
    ensures ById(InsertById(q, o))
  {
    if q != [] && o.orderId > q[0].orderId {
      assert forall i :: 0 <= i < |q[1..]| ==> q[1..][i] == q[i + 1];
      InsertByIdSorted(q[1..], o);
      var r := InsertById(q[1..], o);
      forall j | 0 <= j < |r| ensures q[0].orderId < r[j].orderId { InsertByIdMember(q[1..], o, r[j]); }
    } else if q != [] {
      assert q[0].orderId != o.orderId;
    }
  }

  /** Sorting distinctly numbered orders lists the same orders by strictly ascending id. */
  lemma {:induction false} SortedById(q: Queue)
    requires UniqueIds(q)
    ensures ById(SortById(q)) && forall x :: x in SortById(q) <==> x in q
  {
    if q != [] {
      var r := SortById(q[1..]);
      SortedById(q[1..]);
      forall i | 0 <= i < |r| ensures r[i].orderId != q[0].orderId {
        assert r[i] in q[1..];
      }
      InsertByIdSorted(r, q[0]);
      assert q == [q[0]] + q[1..];
      forall x ensures x in SortById(q) <==> x in q { InsertByIdMember(r, q[0], x); }
    }
  }

  lemma SomeMember(q: Queue)
    requires q != []
    ensures exists x :: x in q
  {
    assert q[0] in q;
  }

  /** Two listings of the same orders by ascending id are one. */
  lemma {:induction false} OneListing(a: Queue, b: Queue)
    requires ById(a) && ById(b) && forall x :: x in a <==> x in b
    ensures a == b
  {
    if a == [] {
      if b != [] { SomeMember(b); assert false; }
    } else {
      assert a[0] in b && b[0] in a;
      var i :| 0 <= i < |a| && a[i] == b[0];
      var j :| 0 <= j < |b| && b[j] == a[0];
      assert a[0] == b[0];
      forall x ensures x in a[1..] <==> x in b[1..] {
        ListingTail(a, x);
        ListingTail(b, x);
      }
      OneListing(a[1..], b[1..]);
      assert a == [a[0]] + a[1..] && b == [b[0]] + b[1..];
    }
  }

  lemma ListingTail(q: Queue, x: OrderSnapshot)
    requires q != [] && ById(q)
    ensures x in q[1..] <==> x in q && x != q[0]
  {
    assert q == [q[0]] + q[1..];
    if x in q[1..] {
      var i :| 0 <= i < |q[1..]| && q[1..][i] == x;
      assert q[i + 1] == x;
    }
  }

  // ---------- The client-id index ----------

  lemma {:induction false} ClientIdsOf(q: Queue)
    requires UniqueClients(q)
    ensures forall c :: c in ClientIds(q) <==> HasClient(q, c)
    ensures forall x <- q :: x.clientOrderId in ClientIds(q) && ClientIds(q)[x.clientOrderId] == x.orderId
  {
    if q != [] {
      ClientIdsOf(q[1..]);
      forall c ensures c in ClientIds(q) <==> HasClient(q, c) {
        if HasClient(q[1..], c) {
          var i :| 0 <= i < |q[1..]| && q[1..][i].clientOrderId == c;
          assert q[i + 1].clientOrderId == c;
        }
        if HasClient(q, c) && c != q[0].clientOrderId {
          var i :| 0 <= i < |q| && q[i].clientOrderId == c;
          assert q[1..][i - 1].clientOrderId == c;
        }
      }
      forall x <- q ensures x.clientOrderId in ClientIds(q) && ClientIds(q)[x.clientOrderId] == x.orderId {
        var i :| 0 <= i < |q| && q[i] == x;
        if i > 0 { assert q[1..][i - 1] == x; }
      }
    }
  }

  /** A snapshot of a book: its orders once each by ascending id, and where each client id leads. */
  ghost predicate SnapshotOf(s: BookSnapshot, book: Book) {
    && s.config == book.config
    && (forall i, j :: 0 <= i < j < |s.activeOrders| ==> s.activeOrders[i].orderId < s.activeOrders[j].orderId)
    && (forall o :: o in s.activeOrders <==> o in book.bids || o in book.asks)
    && (forall c :: c in s.clientIds <==> exists o <- s.activeOrders :: o.clientOrderId == c)
    && (forall o <- s.activeOrders :: o.clientOrderId in s.clientIds && s.clientIds[o.clientOrderId] == o.orderId)
  }

  /** Every book's snapshot lists exactly what rests in it. */
  lemma SnapshotLists(core: Core, id: nat)
    requires CoreInv(core) && id in core.books
    ensures id in Snapshot(core).books && SnapshotOf(Snapshot(core).books[id], core.books[id])
    ensures Snapshot(core).sequences == core.sequences && Snapshot(core).idempotency == core.idempotency
  {
    hide SideInv, Uncrossed, SortById, ClientIds;
    var book := core.books[id];
    var all := book.bids + book.asks;
    assert BookOk(book, id, core.idempotency);
    BothUnique(book.bids, book.asks);
    SortedById(all);
    ClientIdsOf(all);
    var orders := SortById(all);
    forall c ensures HasClient(all, c) <==> exists o <- orders :: o.clientOrderId == c { ClientIn(all, c); }
  }

  lemma ClientIn(q: Queue, c: nat)
    ensures HasClient(q, c) <==> exists o <- q :: o.clientOrderId == c
  {
    if o :| o in q && o.clientOrderId == c { var i :| 0 <= i < |q| && q[i] == o; }
  }

  /** A map that sends exactly the resting client ids to their orders is the client-id index. */
  lemma IsClientIds(q: Queue, m: map<nat, nat>)
    requires UniqueClients(q)
    requires forall c :: c in m <==> HasClient(q, c)
    requires forall x <- q :: x.clientOrderId in m && m[x.clientOrderId] == x.orderId
    ensures m == ClientIds(q)
  {
    ClientIdsOf(q);
    assert m.Keys == ClientIds(q).Keys;
    forall c <- m ensures m[c] == ClientIds(q)[c] {
      var i :| 0 <= i < |q| && q[i].clientOrderId == c;
      assert q[i] in q;
    }
  }

  // ---------- Price, then id ----------

  ghost predicate Before(side: Side, a: OrderSnapshot, b: OrderSnapshot) {
    Better(side, a.price, b.price) || (a.price == b.price && a.orderId < b.orderId)
  }

  /** Best price first and, within a price, lowest id first. */
  ghost predicate PriceThenId(side: Side, q: Queue) {
    forall i, j :: 0 <= i < j < |q| ==> Before(side, q[i], q[j])
  }

  /** Within each price the ids ascend. */
  ghost predicate LevelsById(q: Queue) {
    forall i, j :: 0 <= i < j < |q| && q[i].price == q[j].price ==> q[i].orderId < q[j].orderId
  }

  lemma SortedLevels(side: Side, q: Queue)
    requires Sorted(side, q)
    ensures PriceThenId(side, q) <==> LevelsById(q)
  {
    if LevelsById(q) {
      forall i, j | 0 <= i < j < |q| ensures Before(side, q[i], q[j]) { }
    } else {
      var i, j :| 0 <= i < j < |q| && q[i].price == q[j].price && q[i].orderId >= q[j].orderId;
      assert !Before(side, q[i], q[j]);
    }
  }

  /** Two queues with the same members, both in price-then-id order, are one. */
  lemma {:induction false} OneOrdering(side: Side, a: Queue, b: Queue)
    requires PriceThenId(side, a) && PriceThenId(side, b) && forall x :: x in a <==> x in b
    ensures a == b
  {
    if a == [] {
      if b != [] { SomeMember(b); assert false; }
    } else {
      assert a[0] in b && b[0] in a;
      var i :| 0 <= i < |a| && a[i] == b[0];
      var j :| 0 <= j < |b| && b[j] == a[0];
      assert a[0] == b[0];
      forall x ensures x in a[1..] <==> x in b[1..] {
        TailMember(side, a, x);
        TailMember(side, b, x);
      }
      OneOrdering(side, a[1..], b[1..]);
      assert a == [a[0]] + a[1..] && b == [b[0]] + b[1..];
    }
  }

  lemma TailMember(side: Side, q: Queue, x: OrderSnapshot)
    requires q != [] && PriceThenId(side, q)
    ensures x in q[1..] <==> x in q && x != q[0]
  {
    assert q == [q[0]] + q[1..];
    if x in q[1..] {
      var i :| 0 <= i < |q[1..]| && q[1..][i] == x;
      assert Before(side, q[0], q[i + 1]);
    }
  }

  /** A higher id rests behind its whole level. */
  lemma InsertPriceThenId(side: Side, q: Queue, o: OrderSnapshot)
    requires PriceThenId(side, q) && forall x <- q :: x.orderId < o.orderId
    ensures PriceThenId(side, Insert(side, q, o))
  {
    hide Insert;
    assert Sorted(side, q) by {
      forall i, j | 0 <= i < j < |q| ensures !Better(side, q[j].price, q[i].price) {
        assert Before(side, q[i], q[j]);
      }
    }
    InsertSorted(side, q, o);
    var k := InsertAt(side, q, o);
    Spliced(q, k, o);
    var r := Insert(side, q, o);
    forall i, j | 0 <= i < j < |r| ensures Before(side, r[i], r[j]) {
      if i != k && j != k {
        assert Before(side, q[if i < k then i else i - 1], q[if j < k then j else j - 1]);
      }
    }
  }

  // ---------- Re-inserting ----------

  ghost predicate SideMembers(side: Side, q: Queue, orders: Queue) {
    forall x :: x in q <==> x in orders && x.side == side
  }

  /** What is rebuilt from orders listed by id, on top of orders with lower ids. */
  lemma {:induction false} RestAllRebuilds(book: Book, done: Queue, orders: Queue)
    requires ById(done + orders)
    requires PriceThenId(Buy, book.bids) && PriceThenId(Sell, book.asks)
    requires SideMembers(Buy, book.bids, done) && SideMembers(Sell, book.asks, done)
    ensures var r := RestAll(book, orders);
            && r.config == book.config && r.lastTradePrice == book.lastTradePrice
            && PriceThenId(Buy, r.bids) && PriceThenId(Sell, r.asks)
            && SideMembers(Buy, r.bids, done + orders) && SideMembers(Sell, r.asks, done + orders)
    decreases |orders|
  {
    hide PriceThenId, Insert;
    if orders == [] {
      assert done + orders == done;
    } else {
      var o := orders[0];
      assert done + orders == (done + [o]) + orders[1..];
      AllBelow(done, orders);
      RestOne(book, done, o);
      RestAllRebuilds(Rest(book, o), done + [o], orders[1..]);
    }
  }

  lemma AllBelow(done: Queue, orders: Queue)
    requires ById(done + orders) && orders != []
    ensures forall x <- done :: x.orderId < orders[0].orderId
  {
    forall i | 0 <= i < |done| ensures done[i].orderId < orders[0].orderId {
      assert (done + orders)[i] == done[i] && (done + orders)[|done|] == orders[0];
    }
  }

  lemma RestOne(book: Book, done: Queue, o: OrderSnapshot)
    requires forall x <- done :: x.orderId < o.orderId
    requires PriceThenId(Buy, book.bids) && PriceThenId(Sell, book.asks)
    requires SideMembers(Buy, book.bids, done) && SideMembers(Sell, book.asks, done)
    ensures var r := Rest(book, o);
            && PriceThenId(Buy, r.bids) && PriceThenId(Sell, r.asks)
            && SideMembers(Buy, r.bids, done + [o]) && SideMembers(Sell, r.asks, done + [o])
  {
    hide PriceThenId, Insert;
    var q := book.SideQueue(o.side);
    InsertPriceThenId(o.side, q, o);
    forall x ensures x in Insert(o.side, q, o) <==> x in done + [o] && x.side == o.side { InsertMember(o.side, q, o, x); }
  }

  /**
    A book restored from its snapshot has the same configuration and orders, each with its remaining lots, in
    price-then-id order; each side is the original queue exactly when ids ascended within every price.  The last trade
    price is not kept.
   */
  lemma RestoredBook(book: Book)
    requires BookInv(book)
    ensures var r := RestoreBook(SnapshotBook(book));
            && r.config == book.config && r.lastTradePrice == None
            && (forall x :: x in r.bids <==> x in book.bids) && (forall x :: x in r.asks <==> x in book.asks)
            && PriceThenId(Buy, r.bids) && PriceThenId(Sell, r.asks)
            && (r.bids == book.bids <==> LevelsById(book.bids))
            && (r.asks == book.asks <==> LevelsById(book.asks))
  {
    hide PriceThenId, Insert, LevelsById, Sorted, ValidSymbolPrice;
    var all := book.bids + book.asks;
    BothUnique(book.bids, book.asks);
    SortedById(all);
    var orders := SortById(all);
    assert [] + orders == orders;
    EmptySides();
    RestAllRebuilds(EmptyBook(book.config), [], orders);
    var r := RestoreBook(SnapshotBook(book));
    SameSide(Buy, r.bids, book.bids);
    SameSide(Sell, r.asks, book.asks);
  }

  lemma EmptySides()
    ensures PriceThenId(Buy, []) && PriceThenId(Sell, [])
  {
  }

  lemma BothUnique(a: Queue, b: Queue)
    requires Distinct(a, b)
    ensures UniqueIds(a + b)
  {
    forall i, j | 0 <= i < j < |a + b| ensures (a + b)[i].orderId != (a + b)[j].orderId {
      if i < |a| <= j { assert a[i] in a && b[j - |a|] in b; }
    }
  }

  lemma SameSide(side: Side, r: Queue, q: Queue)
    requires PriceThenId(side, r) && Sorted(side, q) && forall x :: x in r <==> x in q
    ensures r == q <==> LevelsById(q)
  {
    hide PriceThenId, LevelsById;
    SortedLevels(side, q);
    if LevelsById(q) { OneOrdering(side, r, q); }
  }

  // ---------- Level totals ----------

  lemma PriceThenIdUnique(side: Side, q: Queue)
    requires PriceThenId(side, q) && (forall x <- q, y <- q :: x.orderId == y.orderId ==> x == y)
    ensures UniqueIds(q)
  {
    forall i, j | 0 <= i < j < |q| ensures q[i].orderId != q[j].orderId { assert Before(side, q[i], q[j]); }
  }

  /** The same distinctly numbered orders make the same level totals, in whatever order they stand. */
  lemma {:induction false} SameLots(a: Queue, b: Queue, p: int)
    requires UniqueIds(a) && UniqueIds(b) && forall x :: x in a <==> x in b
    ensures LevelLots(a, p) == LevelLots(b, p)
  {
    if a == [] {
      if b != [] { SomeMember(b); assert false; }
    } else {
      var o := a[0];
      var b' := RemoveId(b, o.orderId);
      assert o in b;
      RemoveUnique(b, o.orderId);
      forall x ensures x in a[1..] <==> x in b' {
        RemoveMember(b, o.orderId, x);
        RemoveMember(a, o.orderId, x);
        RemoveAbsent(a[1..], o.orderId);
      }
      SameLots(a[1..], b', p);
      LotsWithout(b, o, p);
    }
  }

  lemma LotsWithout(q: Queue, o: OrderSnapshot, p: int)
    requires UniqueIds(q) && o in q
    ensures LevelLots(q, p) == LevelLots(RemoveId(q, o.orderId), p) + if p == o.price then o.remaining else 0
  {
    if p == o.price { RemoveLots(q, o); } else {
      AtPriceRemove(q, o.orderId, p);
      AtPriceLacks(q, o, p);
      RemoveAbsent(AtPrice(q, p), o.orderId);
    }
  }

  /** Whatever the ids, a restored side shows the same total at every price. */
  lemma RestoredTotals(book: Book, p: int)
    requires BookInv(book)
    ensures var r := RestoreBook(SnapshotBook(book));
            LevelLots(r.bids, p) == LevelLots(book.bids, p) && LevelLots(r.asks, p) == LevelLots(book.asks, p)
  {
    hide PriceThenId, Insert, LevelsById, Sorted, ValidSymbolPrice, LevelLots, RestoreBook, SnapshotBook;
    RestoredBook(book);
    var r := RestoreBook(SnapshotBook(book));
    PriceThenIdUnique(Buy, r.bids);
    PriceThenIdUnique(Sell, r.asks);
    SameLots(r.bids, book.bids, p);
    SameLots(r.asks, book.asks, p);
  }

  // ---------- The restored core ----------

  lemma RestoredBookOk(book: Book, id: nat, i: Idempotency)
    requires BookOk(book, id, i)
    ensures BookOk(RestoreBook(SnapshotBook(book)), id, i)
  {
    hide RestoreBook, SnapshotBook, ValidSymbolPrice;
    RestoredBook(book);
    var r := RestoreBook(SnapshotBook(book));
    RestoredSide(Buy, r.bids, book.bids, book.config);
    RestoredSide(Sell, r.asks, book.asks, book.config);
    if r.bids != [] && r.asks != [] {
      assert r.bids[0] in book.bids && r.asks[0] in book.asks;
      assert !Better(Buy, r.bids[0].price, book.bids[0].price) && !Better(Sell, r.asks[0].price, book.asks[0].price);
    }
  }

  lemma RestoredSide(side: Side, r: Queue, q: Queue, config: SymbolConfig)
    requires SideInv(side, q, config) && UniqueIds(q) && UniqueClients(q)
    requires PriceThenId(side, r) && forall x :: x in r <==> x in q
    ensures SideInv(side, r, config) && UniqueIds(r) && UniqueClients(r)
  {
    hide ValidSymbolPrice;
    PriceThenIdUnique(side, r);
    forall i, j | 0 <= i < j < |r|
      ensures !Better(side, r[j].price, r[i].price) && r[i].clientOrderId != r[j].clientOrderId
    {
      assert Before(side, r[i], r[j]);
      assert r[i] in q && r[j] in q;
    }
  }

  /** Restoring a snapshot gives a well-formed core, whatever the ids. */
  lemma RestoreKeeps(core: Core)
    requires CoreInv(core)
    ensures CoreInv(Restore(Snapshot(core)))
  {
    hide BookOk, RestoreBook, SnapshotBook;
    forall id <- core.books ensures BookOk(RestoreBook(SnapshotBook(core.books[id])), id, core.idempotency) {
      RestoredBookOk(core.books[id], id, core.idempotency);
    }
  }

  function Forget(book: Book): Book {
    book.(lastTradePrice := None)
  }

  /** The core without its last trade prices, which a snapshot does not carry. */
  function Forgetful(core: Core): Core {
    core.(books := map id | id in core.books :: Forget(core.books[id]))
  }

  ghost predicate QueuesById(core: Core) {
    forall id <- core.books :: LevelsById(core.books[id].bids) && LevelsById(core.books[id].asks)
  }

  lemma RestoredBookSame(book: Book)
    requires BookInv(book)
    ensures RestoreBook(SnapshotBook(book)) == Forget(book) <==> LevelsById(book.bids) && LevelsById(book.asks)
  {
    hide RestoreBook, SnapshotBook, BookInv, LevelsById;
    RestoredBook(book);
  }

  /** Restoring gives the core back, up to last trade prices, exactly when ids ascend within every price level. */
  lemma RestoreIff(core: Core)
    requires CoreInv(core)
    ensures Restore(Snapshot(core)) == Forgetful(core) <==> QueuesById(core)
  {
    hide RestoreBook, SnapshotBook, BookInv, LevelsById, Forget;
    var r, f := Restore(Snapshot(core)), Forgetful(core);
    forall id <- core.books
      ensures r.books[id] == f.books[id] <==> LevelsById(core.books[id].bids) && LevelsById(core.books[id].asks)
    {
      CoreBooks(core);
      RestoredBookSame(core.books[id]);
    }
    if QueuesById(core) {
      assert r.books == f.books;
    }
  }

  // ---------- The last trade price never shows ----------

  lemma {:induction false} MatchForgets(symbolId: nat, side: Side, q: Queue, taker: Taker, s: SequenceState,
                                        a: Option<int>, b: Option<int>)
    requires SaneQuantities(q) && taker.remaining <= taker.original
    ensures Match(symbolId, side, q, taker, s, a).(lastTradePrice := None)
            == Match(symbolId, side, q, taker, s, b).(lastTradePrice := None)
  {
  }

  lemma PlaceForgets(book: Book, s: SequenceState, c: PlaceOrderCommand)
    requires SaneQuantities(book.bids) && SaneQuantities(book.asks)
    ensures var r, r' := ProcessPlace(book, s, c), ProcessPlace(Forget(book), s, c);
            r.events == r'.events && r.sequences == r'.sequences && Forget(r.book) == Forget(r'.book)
  {
    hide Match, LevelLots, Insert, HasId, HasClient, CrossingLots, ValidSymbolPrice, ValidSymbolQuantity, SaneQuantities;
    var opp := c.side.Opposite();
    MatchForgets(book.config.symbolId, opp, book.SideQueue(opp), Taker(c.orderId, MatchLimit(c), c.quantity, c.quantity),
                 NextEvent(s), book.lastTradePrice, None);
  }

  lemma CancelForgets(book: Book, s: SequenceState, c: CancelOrderCommand)
    ensures var r, r' := ProcessCancel(book, s, c), ProcessCancel(Forget(book), s, c);
            r.events == r'.events && r.sequences == r'.sequences && Forget(r.book) == Forget(r'.book)
  {
    hide LevelLots, RemoveId, FindId, FindClient;
  }

  /** Two cores alike up to last trade prices answer every command alike, and stay alike. */
  lemma ProcessForgets(a: Core, b: Core, command: EngineCommand)
    requires CoreInv(a) && CoreInv(b) && Forgetful(a) == Forgetful(b)
    ensures SaneBooks(a.books) && SaneBooks(b.books)
    ensures var r, r' := Process(a, command), Process(b, command);
            r.events == r'.events && Forgetful(r.core) == Forgetful(r'.core)
  {
    hide CoreInv, ProcessPlace, ProcessCancel, SaneQuantities, ValidatePlace, Record, Forget;
    CoreSane(a);
    CoreSane(b);
    SameBooksForgotten(a, b);
    match command
    case Place(c) =>
      if c.symbolId in a.books { PlaceForgotten(a, b, c); }
    case Cancel(c) =>
      if c.symbolId in a.books { CancelForgotten(a, b, c); }
    case Malformed =>
  }

  lemma SameBooksForgotten(a: Core, b: Core)
    requires Forgetful(a) == Forgetful(b)
    ensures a.books.Keys == b.books.Keys
    ensures a.sequences == b.sequences && a.idempotency == b.idempotency
    ensures forall id <- a.books :: Forget(a.books[id]) == Forget(b.books[id]) && a.books[id].config == b.books[id].config
  {
    assert Forgetful(a).books.Keys == a.books.Keys && Forgetful(b).books.Keys == b.books.Keys;
    forall id <- a.books ensures Forget(a.books[id]) == Forget(b.books[id]) {
      assert Forgetful(a).books[id] == Forgetful(b).books[id];
    }
  }

  /** Replacing one book by alike books. */
  lemma ReplaceForgotten(a: Core, b: Core, id: nat, x: Book, y: Book)
    requires Forgetful(a) == Forgetful(b) && Forget(x) == Forget(y)
    ensures Forgetful(a.(books := a.books[id := x])) == Forgetful(b.(books := b.books[id := y]))
  {
    hide Forget;
    SameBooksForgotten(a, b);
    var a', b' := Forgetful(a.(books := a.books[id := x])), Forgetful(b.(books := b.books[id := y]));
    assert a'.books == b'.books;
  }

  lemma PlaceForgotten(a: Core, b: Core, c: PlaceOrderCommand)
    requires SaneBooks(a.books) && SaneBooks(b.books) && Forgetful(a) == Forgetful(b) && c.symbolId in a.books
    ensures c.symbolId in b.books
    ensures var r, r' := ProcessPlace(a.books[c.symbolId], a.sequences, c), ProcessPlace(b.books[c.symbolId], b.sequences, c);
            && r.events == r'.events
            && Forgetful(AfterPlace(a, c, r)) == Forgetful(AfterPlace(b, c, r'))
  {
    hide ProcessPlace, SaneQuantities, Forget, IsAccepted, RejectionIn, FirstSequence;
    SameBooksForgotten(a, b);
    var x, y := a.books[c.symbolId], b.books[c.symbolId];
    ForgetSides(x);
    ForgetSides(y);
    PlaceForgets(x, a.sequences, c);
    PlaceForgets(y, a.sequences, c);
    ReplaceForgotten(a, b, c.symbolId, ProcessPlace(x, a.sequences, c).book, ProcessPlace(y, a.sequences, c).book);
  }

  lemma ForgetSides(book: Book)
    ensures Forget(book).bids == book.bids && Forget(book).asks == book.asks
  {
  }

  lemma CancelForgotten(a: Core, b: Core, c: CancelOrderCommand)
    requires Forgetful(a) == Forgetful(b) && c.symbolId in a.books
    ensures c.symbolId in b.books
    ensures var r, r' := ProcessCancel(a.books[c.symbolId], a.sequences, c), ProcessCancel(b.books[c.symbolId], b.sequences, c);
            && r.events == r'.events
            && Forgetful(AfterCancel(a, c, r)) == Forgetful(AfterCancel(b, c, r'))
  {
    hide ProcessCancel, Forget, RejectionIn, FirstSequence;
    SameBooksForgotten(a, b);
    var x, y := a.books[c.symbolId], b.books[c.symbolId];
    CancelForgets(x, a.sequences, c);
    CancelForgets(y, a.sequences, c);
    ReplaceForgotten(a, b, c.symbolId, ProcessCancel(x, a.sequences, c).book, ProcessCancel(y, a.sequences, c).book);
  }

  lemma {:induction false} RunForgets(a: Core, b: Core, commands: seq<EngineCommand>)
    requires CoreInv(a) && CoreInv(b) && Forgetful(a) == Forgetful(b)
    ensures Run(a, commands).events == Run(b, commands).events
    ensures Forgetful(Run(a, commands).core) == Forgetful(Run(b, commands).core)
    decreases |commands|
  {
    hide CoreInv, Process, Forgetful;
    if commands != [] {
      ProcessForgets(a, b, commands[0]);
      ProcessKeeps(a, commands[0]);
      ProcessKeeps(b, commands[0]);
      RunForgets(Process(a, commands[0]).core, Process(b, commands[0]).core, commands[1..]);
    }
  }

  /** With every level in id order, a restored core answers every later command sequence as the original does. */
  lemma RestoredFuture(core: Core, commands: seq<EngineCommand>)
    requires CoreInv(core) && QueuesById(core)
    ensures CoreInv(Restore(Snapshot(core)))
    ensures Run(Restore(Snapshot(core)), commands).events == Run(core, commands).events
  {
    hide CoreInv, Forgetful, Run, QueuesById, Restore, Snapshot;
    RestoreKeeps(core);
    RestoreIff(core);
    ForgetTwice(core);
    RunForgets(Restore(Snapshot(core)), core, commands);
  }

  lemma ForgetTwice(core: Core)
    ensures Forgetful(Forgetful(core)) == Forgetful(core)
  {
    assert Forgetful(Forgetful(core)).books == Forgetful(core).books;
  }

  // ---------- When ids and arrivals disagree ----------

  /** The first event after the acceptance names the front of the opposing queue as maker. */
  lemma FirstMaker(book: Book, s: SequenceState, c: PlaceOrderCommand)
    requires SaneQuantities(book.bids) && SaneQuantities(book.asks) && PlaceRejection(book, c).None?
    requires var opp := c.side.Opposite(); Matchable(opp, book.SideQueue(opp), Taker(c.orderId, MatchLimit(c), c.quantity, c.quantity))
    ensures var events := ProcessPlace(book, s, c).events;
            |events| > 1 && events[1].TradeExecuted? && events[1].makerOrderId == book.SideQueue(c.side.Opposite())[0].orderId
  {
    hide LevelLots, Insert, PlaceRejection, SaneQuantities;
    var opp := c.side.Opposite();
    var q := book.SideQueue(opp);
    var taker := Taker(c.orderId, MatchLimit(c), c.quantity, c.quantity);
    FirstFill(book.config.symbolId, opp, q, taker, NextEvent(s), book.lastTradePrice);
  }

  lemma FirstFill(symbolId: nat, side: Side, q: Queue, taker: Taker, s: SequenceState, last: Option<int>)
    requires SaneQuantities(q) && taker.remaining <= taker.original && Matchable(side, q, taker)
    ensures var events := Match(symbolId, side, q, taker, s, last).events;
            |events| > 0 && events[0].TradeExecuted? && events[0].makerOrderId == q[0].orderId
  {
    hide LevelLots;
    FrontLots(q);
    SaneRest(q, Min(taker.remaining, q[0].remaining));
  }

  /**
    If the order in front of a side does not have the lowest id at its price, every accepted order that reaches it
    trades with a different maker before and after a restore.
   */
  lemma RestoreReorders(book: Book, s: SequenceState, c: PlaceOrderCommand, o: OrderSnapshot)
    requires BookInv(book)
    requires var q := book.SideQueue(c.side.Opposite());
             && o in q && o.price == q[0].price && o.orderId < q[0].orderId
             && Matchable(c.side.Opposite(), q, Taker(c.orderId, MatchLimit(c), c.quantity, c.quantity))
    requires PlaceRejection(book, c).None?
    ensures var r := RestoreBook(SnapshotBook(book));
            && SaneQuantities(r.bids) && SaneQuantities(r.asks)
            && ProcessPlace(r, s, c).events != ProcessPlace(book, s, c).events
  {
    hide RestoreBook, SnapshotBook, Match, Insert, LevelLots, PlaceRejection, Distinct, ValidSymbolPrice;
    RestoredBook(book);
    var r, opp := RestoreBook(SnapshotBook(book)), c.side.Opposite();
    var q, q' := book.SideQueue(opp), r.SideQueue(opp);
    assert q'[0] in q;
    var j :| 0 <= j < |q'| && q'[j] == o;
    if j > 0 { assert Before(opp, q'[0], q'[j]); }
    FirstMaker(book, s, c);
    if PlaceRejection(r, c).None? { FirstMaker(r, s, c); }
  }

  lemma PairOfAsks(a: OrderSnapshot, b: OrderSnapshot, config: SymbolConfig)
    requires a.side == Sell && b.side == Sell && a.price == b.price && ValidSymbolPrice(a.price, config)
    requires 0 < a.remaining <= a.original && 0 < b.remaining <= b.original
    requires a.orderId != b.orderId && a.clientOrderId != b.clientOrderId
    ensures BookInv(Book(config, [], [a, b], None))
  {
    hide ValidSymbolPrice;
  }

  lemma PairLacks(a: OrderSnapshot, b: OrderSnapshot, id: nat)
    requires id != a.orderId && id != b.orderId && id != a.clientOrderId && id != b.clientOrderId
    ensures !HasId([] + [a, b], id) && !HasClient([] + [a, b], id)
  {
    assert [] + [a, b] == [a, b];
  }

  lemma TwoAsks() returns (book: Book, c: PlaceOrderCommand)
    ensures BookInv(book) && |book.asks| == 2 && book.asks[1].orderId < book.asks[0].orderId
    ensures book.asks[0].price == book.asks[1].price == 5
    ensures c.side == Buy && c.orderType == Limit && c.price == 5 && c.quantity == 1 && PlaceRejection(book, c).None?
  {
    hide BookInv, HasId, HasClient, CrossingLots;
    var a, b := OrderSnapshot(2, 1, 7, 1, Sell, 5, 1, 1, 1), OrderSnapshot(1, 2, 7, 1, Sell, 5, 1, 1, 3);
    book := Book(SymbolConfig(1, 1, 1, 1, 10, 1, 10, 64, 0, true), [], [a, b], None);
    c := PlaceOrderCommand(3, 3, 3, 8, 1, Buy, Limit, IOC, 5, 1);
    PairOfAsks(a, b, book.config);
    PairLacks(a, b, 3);
  }

  /** For instance: order 2 rests before order 1 at one price; after a restore the next buy trades with order 1. */
  lemma RestoreReordersTwoAsks(s: SequenceState) returns (book: Book, c: PlaceOrderCommand)
    ensures BookInv(book)
    ensures var r := RestoreBook(SnapshotBook(book));
            && SaneQuantities(r.bids) && SaneQuantities(r.asks)
            && ProcessPlace(r, s, c).events != ProcessPlace(book, s, c).events
  {
    hide BookInv, PlaceRejection, RestoreBook, SnapshotBook, ProcessPlace, SaneQuantities;
    book, c := TwoAsks();
    BookSane(book);
    RestoreReorders(book, s, c, book.asks[1]);
  }

  // ---------- Ids that ascend keep every level in id order ----------

  ghost predicate IdsUpTo(q: Queue, last: nat) {
    forall o <- q :: o.orderId <= last
  }

  ghost predicate BookById(book: Book, last: nat) {
    LevelsById(book.bids) && LevelsById(book.asks) && IdsUpTo(book.bids, last) && IdsUpTo(book.asks, last)
  }

  lemma SuffixById(left: Queue, q: Queue, last: nat)
    requires Suffix(left, q) && LevelsById(q) && IdsUpTo(q, last)
    ensures LevelsById(left) && IdsUpTo(left, last)
  {
    hide Suffix;
    SuffixAt(left, q);
  }

  lemma InsertKeepsById(side: Side, q: Queue, o: OrderSnapshot, last: nat)
    requires Sorted(side, q) && LevelsById(q) && IdsUpTo(q, last) && last < o.orderId
    ensures LevelsById(Insert(side, q, o)) && IdsUpTo(Insert(side, q, o), o.orderId)
  {
    var k := InsertAt(side, q, o);
    Spliced(q, k, o);
    hide Insert;
    var r := Insert(side, q, o);
    forall i, j | 0 <= i < j < |r| && r[i].price == r[j].price ensures r[i].orderId < r[j].orderId {
      if j == k { assert q[i] in q; }
    }
    forall x <- r ensures x.orderId <= o.orderId { InsertMember(side, q, o, x); }
  }

  lemma {:induction false} RemoveById(q: Queue, id: nat, last: nat)
    requires LevelsById(q) && IdsUpTo(q, last)
    ensures LevelsById(RemoveId(q, id)) && IdsUpTo(RemoveId(q, id), last)
  {
    if q != [] {
      RemoveById(q[1..], id, last);
      var r := RemoveId(q[1..], id);
      forall j | 0 <= j < |r| && r[j].price == q[0].price ensures q[0].orderId < r[j].orderId {
        RemoveMember(q[1..], id, r[j]);
        var i :| 0 <= i < |q[1..]| && q[1..][i] == r[j];
        assert q[i + 1] == r[j];
      }
    }
  }

  lemma PlaceById(book: Book, s: SequenceState, c: PlaceOrderCommand, last: nat)
    requires BookInv(book) && BookById(book, last) && (CanRest(c) ==> last < c.orderId)
    ensures BookById(ProcessPlace(book, s, c).book, LastId(last, Place(c)))
  {
    hide MatchOf, Suffix, Distinct, Sorted, PlaceRejection, Insert, LevelLots, LevelsById, IdsUpTo, SaneQuantities,
      ValidSymbolPrice;
    BookSane(book);
    MatchKeeps(book, s, c);
    var m, own := MatchOf(book, s, c), book.SideQueue(c.side);
    var o := RestingSnapshot(c, m.taker.remaining, s.nextSequence);
    SuffixById(m.queue, book.SideQueue(c.side.Opposite()), last);
    if CanRest(c) {
      InsertKeepsById(c.side, own, o, last);
      UpToMore(m.queue, last, c.orderId);
      UpToMore(book.bids, last, c.orderId);
      UpToMore(book.asks, last, c.orderId);
    }
  }

  lemma UpToMore(q: Queue, a: nat, b: nat)
    requires IdsUpTo(q, a) && a <= b
    ensures IdsUpTo(q, b)
  {
  }

  lemma CancelById(book: Book, s: SequenceState, c: CancelOrderCommand, last: nat)
    requires BookById(book, last)
    ensures BookById(ProcessCancel(book, s, c).book, last)
  {
    hide RemoveId, FindId, CancelTarget, LevelsById, IdsUpTo, LevelLots;
    var id := CancelTarget(book, c);
    RemoveById(book.bids, id, last);
    RemoveById(book.asks, id, last);
  }

  ghost predicate CoreById(core: Core, last: nat) {
    forall id <- core.books :: BookById(core.books[id], last)
  }

  /** An order that may come to rest in a book. */
  predicate MayRest(command: EngineCommand) {
    command.Place? && CanRest(command.place)
  }

  /** The highest id of an order that may rest, if each such id exceeds all before it. */
  function LastId(last: nat, command: EngineCommand): nat {
    if MayRest(command) then command.place.orderId else last
  }

  ghost predicate Ascending(last: nat, commands: seq<EngineCommand>)
    decreases |commands|
  {
    commands == []
    || ((MayRest(commands[0]) ==> commands[0].place.orderId > last) && Ascending(LastId(last, commands[0]), commands[1..]))
  }

  lemma CoreByIdMore(core: Core, a: nat, b: nat)
    requires CoreById(core, a) && a <= b
    ensures CoreById(core, b)
  {
    hide LevelsById, IdsUpTo;
    forall id <- core.books ensures BookById(core.books[id], b) {
      UpToMore(core.books[id].bids, a, b);
      UpToMore(core.books[id].asks, a, b);
    }
  }

  lemma ProcessById(core: Core, command: EngineCommand, last: nat)
    requires CoreInv(core) && CoreById(core, last) && (MayRest(command) ==> command.place.orderId > last)
    ensures SaneBooks(core.books) && CoreById(Process(core, command).core, LastId(last, command))
  {
    hide CoreInv, BookById, ProcessPlace, ProcessCancel, SaneQuantities, ValidatePlace, Record, BookInv;
    CoreSane(core);
    CoreBooks(core);
    CoreByIdMore(core, last, LastId(last, command));
    match command
    case Place(c) =>
      if c.symbolId in core.books { PlaceById(core.books[c.symbolId], core.sequences, c, last); }
    case Cancel(c) =>
      if c.symbolId in core.books { CancelById(core.books[c.symbolId], core.sequences, c, last); }
    case Malformed =>
  }

  lemma {:induction false} RunById(core: Core, commands: seq<EngineCommand>, last: nat)
    requires CoreInv(core) && CoreById(core, last) && Ascending(last, commands)
    ensures QueuesById(Run(core, commands).core)
    decreases |commands|
  {
    hide CoreInv, Process;
    if commands != [] {
      ProcessKeeps(core, commands[0]);
      ProcessById(core, commands[0], last);
      RunById(Process(core, commands[0]).core, commands[1..], LastId(last, commands[0]));
    }
  }

  /**
    Where every order that may rest carries a higher id than those before it, a core restored at any moment answers all
    later commands as the original does.
   */
  lemma AscendingIdsRestore(core: Core, commands: seq<EngineCommand>, last: nat, later: seq<EngineCommand>)
    requires CoreInv(core) && CoreById(core, last) && Ascending(last, commands)
    ensures var now := Run(core, commands).core;
            CoreInv(Restore(Snapshot(now))) && Run(Restore(Snapshot(now)), later).events == Run(now, later).events
  {
    hide CoreInv, CoreById, Run, QueuesById, Restore, Snapshot;
    RunById(core, commands, last);
    RestoredFuture(Run(core, commands).core, later);
  }
}
