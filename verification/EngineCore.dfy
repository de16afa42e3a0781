/** The engine core: order books by symbol, the idempotency index and the sequence counters. */
module EngineCores {
  import opened Types
  import opened BookSpec
  import opened Queues
  import opened BookLaws
  import opened CoreSpec
  import opened CoreLaws
  import opened RestoreLaws
  import opened PriceLevels
  import opened SideBooks
  import opened OrderBooks

  method HasAccepted(events: seq<EngineEvent>) returns (found: bool)
    ensures found == IsAccepted(events)
  {
    for i := 0 to |events|
      invariant !IsAccepted(events[..i])
    {
      if events[i].OrderAccepted? { return true; }
      assert events[..i + 1] == events[..i] + [events[i]];
    }
    assert events[..|events|] == events;
    return false;
  }

  method HasCancelled(events: seq<EngineEvent>) returns (found: bool)
    ensures found == IsCancelled(events)
  {
    for i := 0 to |events|
      invariant !IsCancelled(events[..i])
    {
      if events[i].OrderCancelled? { return true; }
      assert events[..i + 1] == events[..i] + [events[i]];
    }
    assert events[..|events|] == events;
    return false;
  }

  method RejectedReason(events: seq<EngineEvent>) returns (reason: Option<RejectReason>)
    ensures reason == RejectionIn(events)
  {
    for i := 0 to |events|
      invariant RejectionIn(events) == RejectionIn(events[i..])
    {
      if events[i].OrderRejected? { return Some(events[i].reason); }
      assert events[i..][1..] == events[i + 1..];
    }
    return None;
  }

  lemma SaneReplace(books: map<nat, Book>, id: nat, book: Book)
    requires SaneBooks(books) && SaneQuantities(book.bids) && SaneQuantities(book.asks)
    ensures SaneBooks(books[id := book])
  {
  }

  twostate lemma SideUntouched(side: SideBook)
    requires old(side.Valid()) && forall x <- old(side.Repr()) :: unchanged(x)
    ensures side.Valid() && side.Repr() == old(side.Repr()) && side.view == old(side.view) && side.orders == old(side.orders)
  {
    hide SideBook.Valid;
  }

  /** A book none of whose objects changed is as it was. */
  twostate lemma Untouched(book: OrderBook)
    requires old(book.Valid()) && unchanged(book)
    requires forall x <- old(book.bids.Repr()) :: unchanged(x)
    requires forall x <- old(book.asks.Repr()) :: unchanged(x)
    ensures book.Valid() && book.Repr() == old(book.Repr()) && book.View() == old(book.View())
  {
    hide SideBook.Valid, SideBook.Repr, SaneQuantities;
    SideUntouched(book.bids);
    SideUntouched(book.asks);
  }

  lemma SaneView(book: OrderBook)
    requires book.Valid()
    ensures SaneQuantities(book.View().bids) && SaneQuantities(book.View().asks)
  {
    hide OrderBook.Sides, Indexed;
  }

  /** No two of the sets share an object, and none holds the owner. */
  ghost predicate Apart(owner: object, owned: map<nat, set<object>>) {
    && (forall id <- owned :: owner !in owned[id])
    && (forall i <- owned, j <- owned :: i != j ==> owned[i] !! owned[j])
  }

  lemma ApartReplace(owner: object, owned: map<nat, set<object>>, id: nat, s: set<object>)
    requires Apart(owner, owned) && owner !in s && forall j <- owned :: j != id ==> owned[j] !! s
    ensures Apart(owner, owned[id := s])
  {
  }

  // ---------- Snapshots of one book ----------

  lemma SomeId(keys: set<nat>)
    requires keys != {}
    ensures exists id :: id in keys
  {
    if forall id :: id !in keys { assert false; }
  }

  /** The queues hold exactly the indexed orders, each once. */
  lemma BookMembers(book: OrderBook)
    requires book.Valid()
    ensures UniqueIds(book.bids.view + book.asks.view)
    ensures forall x :: x in book.bids.view + book.asks.view <==>
              x.orderId in book.orderById && book.orderById[x.orderId].Snapshot() == x
    ensures forall id <- book.orderById :: book.orderById[id].orderId == id
  {
    hide SideBook.Valid, FindId;
    var all := book.bids.view + book.asks.view;
    book.SideObjects(book.bids);
    book.SideObjects(book.asks);
    book.bids.UniqueView();
    book.asks.UniqueView();
    forall i, j | 0 <= i < j < |all| ensures all[i].orderId != all[j].orderId {
      if i < |book.bids.view| <= j {
        assert all[i] in book.bids.view && all[j] in book.asks.view;
      }
    }
  }

  /** The resting orders by ascending id, gathered from the id index. */
  method SnapshotOrders(book: OrderBook) returns (orders: Queue)
    requires book.Valid()
    ensures orders == SortById(book.bids.view + book.asks.view)
  {
    hide OrderBook.Valid, SortById, InsertById;
    BookMembers(book);
    orders := [];
    var pending := book.orderById.Keys;
    while pending != {}
      invariant pending <= book.orderById.Keys
      invariant ById(orders)
      invariant forall x :: x in orders <==> x.orderId in book.orderById && x.orderId !in pending
                                             && book.orderById[x.orderId].Snapshot() == x
    {
      SomeId(pending);
      var id :| id in pending;
      var o := book.orderById[id].Snapshot();
      InsertByIdSorted(orders, o);
      forall x ensures x in InsertById(orders, o) <==> x in orders || x == o { InsertByIdMember(orders, o, x); }
      orders := InsertById(orders, o);
      pending := pending - {id};
    }
    SortedById(book.bids.view + book.asks.view);
    OneListing(orders, SortById(book.bids.view + book.asks.view));
  }

  lemma BookClients(book: OrderBook)
    requires book.Valid()
    ensures UniqueClients(book.bids.view + book.asks.view)
    ensures book.clientOrderIdToOrderId == ClientIds(book.bids.view + book.asks.view)
  {
    hide SideBook.Valid, FindClient, SaneQuantities;
    var all := book.bids.view + book.asks.view;
    BookMembers(book);
    forall i, j | 0 <= i < j < |all| ensures all[i].clientOrderId != all[j].clientOrderId {
      assert all[i] in all && all[j] in all;
    }
    forall c ensures c in book.clientOrderIdToOrderId <==> HasClient(all, c) { book.IndexByClient(c); }
    IsClientIds(all, book.clientOrderIdToOrderId);
  }

  /** One book's snapshot. */
  method TakeBook(book: OrderBook) returns (snapshot: BookSnapshot)
    requires book.Valid()
    ensures snapshot == SnapshotBook(book.View())
  {
    hide OrderBook.Valid;
    BookClients(book);
    var orders := SnapshotOrders(book);
    return BookSnapshot(book.config, orders, book.clientOrderIdToOrderId);
  }

  // ---------- Rebuilding one book ----------

  /** A snapshot whose orders can rest in an empty book: distinct, valid, and listed by the client-id index. */
  ghost predicate Restorable(snapshot: BookSnapshot) {
    && ById(snapshot.activeOrders) && UniqueClients(snapshot.activeOrders) && SaneQuantities(snapshot.activeOrders)
    && (forall o <- snapshot.activeOrders :: ValidSymbolPrice(o.price, snapshot.config))
    && snapshot.clientIds == ClientIds(snapshot.activeOrders)
  }

  /** A well-formed core's snapshots can all be restored. */
  lemma SnapshotsRestorable(core: Core)
    requires CoreInv(core)
    ensures forall id <- core.books :: Restorable(SnapshotBook(core.books[id]))
  {
    hide BookInv;
    forall id <- core.books ensures Restorable(SnapshotBook(core.books[id])) {
      SnapshotRestorable(core.books[id]);
    }
  }

  lemma SnapshotRestorable(book: Book)
    requires BookInv(book)
    ensures Restorable(SnapshotBook(book))
  {
    hide ValidSymbolPrice, SortById, ClientIds;
    var all := book.bids + book.asks;
    BothUnique(book.bids, book.asks);
    BothUniqueClients(book.bids, book.asks);
    SortedById(all);
    var orders := SortById(all);
    SortedClients(all, orders);
    ClientIdsOf(all);
    SameClients(all, orders);
    IsClientIds(orders, ClientIds(all));
  }

  lemma BothUniqueClients(a: Queue, b: Queue)
    requires Distinct(a, b)
    ensures UniqueClients(a + b)
  {
    forall i, j | 0 <= i < j < |a + b| ensures (a + b)[i].clientOrderId != (a + b)[j].clientOrderId {
      if i < |a| <= j { assert a[i] in a && b[j - |a|] in b; }
    }
  }

  lemma SortedClients(all: Queue, orders: Queue)
    requires UniqueClients(all) && ById(orders) && forall x :: x in orders <==> x in all
    ensures UniqueClients(orders)
  {
    forall i, j | 0 <= i < j < |orders| ensures orders[i].clientOrderId != orders[j].clientOrderId {
      assert orders[i] in all && orders[j] in all && orders[i] != orders[j];
    }
  }

  lemma SameClients(a: Queue, b: Queue)
    requires forall x :: x in a <==> x in b
    ensures forall c :: HasClient(a, c) <==> HasClient(b, c)
  {
    forall c ensures HasClient(a, c) <==> HasClient(b, c) {
      if HasClient(a, c) {
        var i :| 0 <= i < |a| && a[i].clientOrderId == c;
        assert a[i] in b;
      }
      if HasClient(b, c) {
        var i :| 0 <= i < |b| && b[i].clientOrderId == c;
        assert b[i] in a;
      }
    }
  }

  /** Put one more order of the snapshot to rest. */
  method RestoreOrder(book: OrderBook, o: OrderSnapshot, ghost done: Queue)
    requires book.Valid() && 0 < o.remaining <= o.original && ValidSymbolPrice(o.price, book.config)
    requires forall x :: x in book.bids.view + book.asks.view <==> x in done
    requires !HasId(done, o.orderId) && !HasClient(done, o.clientOrderId)
    modifies book.Repr()
    ensures book.Valid() && book.View() == Rest(old(book.View()), o)
    ensures forall x :: x in book.bids.view + book.asks.view <==> x in done + [o]
    ensures forall x :: x in book.Repr() ==> x in old(book.Repr()) || fresh(x)
  {
    hide OrderBook.Valid, HasId, HasClient, Rest, ValidSymbolPrice;
    var order := new Order(o);
    Untouched(book);
    RestInstance(book, order, done);
  }

  /** Put a new order object to rest. */
  method RestInstance(book: OrderBook, order: Order, ghost done: Queue)
    requires book.Valid() && order !in book.Repr()
    requires 0 < order.remaining <= order.original && ValidSymbolPrice(order.price, book.config)
    requires forall x :: x in book.bids.view + book.asks.view <==> x in done
    requires !HasId(done, order.orderId) && !HasClient(done, order.clientOrderId)
    modifies book.Repr(), order
    ensures book.Valid() && book.View() == Rest(old(book.View()), old(order.Snapshot()))
    ensures forall x :: x in book.bids.view + book.asks.view <==> x in done + [old(order.Snapshot())]
    ensures forall x :: x in book.Repr() ==> x in old(book.Repr()) || x == order || fresh(x)
  {
    hide OrderBook.Whole, Insert, SaneQuantities, ValidSymbolPrice;
    ghost var o := order.Snapshot();
    book.IndexById(o.orderId);
    book.IndexByClient(o.clientOrderId);
    Absent(book.bids.view + book.asks.view, done, o);
    RestedMembers(book.View(), o, done);
    book.InsertRemainingAsResting(order);
  }

  lemma Absent(q: Queue, done: Queue, o: OrderSnapshot)
    requires forall x :: x in q <==> x in done
    requires !HasId(done, o.orderId) && !HasClient(done, o.clientOrderId)
    ensures !HasId(q, o.orderId) && !HasClient(q, o.clientOrderId)
  {
    forall i | 0 <= i < |q| ensures q[i].orderId != o.orderId && q[i].clientOrderId != o.clientOrderId {
      assert q[i] in done;
    }
  }

  lemma RestedMembers(book: Book, o: OrderSnapshot, done: Queue)
    requires forall x :: x in book.bids + book.asks <==> x in done
    ensures forall x :: x in Rest(book, o).bids + Rest(book, o).asks <==> x in done + [o]
  {
    hide Insert;
    forall x ensures x in Rest(book, o).bids + Rest(book, o).asks <==> x in done + [o] {
      InsertMember(o.side, book.SideQueue(o.side), o, x);
      assert x in book.bids + book.asks <==> x in book.bids || x in book.asks;
    }
  }

  /** Rebuild a book from its snapshot, order by order. */
  method RebuildBook(snapshot: BookSnapshot) returns (book: OrderBook)
    requires Restorable(snapshot)
    ensures fresh(book.Repr()) && book.Valid() && book.View() == RestoreBook(snapshot)
  {
    hide OrderBook.Valid, OrderBook.Repr, ValidSymbolPrice, Rest, ClientIds;
    book := new OrderBook(snapshot.config);
    var orders := snapshot.activeOrders;
    for i := 0 to |orders|
      invariant fresh(book.Repr()) && book.Valid() && book.config == snapshot.config
      invariant RestAll(book.View(), orders[i..]) == RestoreBook(snapshot)
      invariant forall x :: x in book.bids.view + book.asks.view <==> x in orders[..i]
    {
      NotYet(orders, i);
      RestoreOrder(book, orders[i], orders[..i]);
      assert orders[i..][1..] == orders[i + 1..] && orders[..i] + [orders[i]] == orders[..i + 1];
    }
    assert orders[..|orders|] == orders;
    RestoredClients(book, snapshot);
    book.clientOrderIdToOrderId := snapshot.clientIds;
  }

  lemma NotYet(orders: Queue, i: nat)
    requires i < |orders| && ById(orders) && UniqueClients(orders)
    ensures !HasId(orders[..i], orders[i].orderId) && !HasClient(orders[..i], orders[i].clientOrderId)
  {
  }

  /** The index the snapshot carries is the one the insertions built. */
  lemma RestoredClients(book: OrderBook, snapshot: BookSnapshot)
    requires book.Valid() && Restorable(snapshot)
    requires forall x :: x in book.bids.view + book.asks.view <==> x in snapshot.activeOrders
    ensures snapshot.clientIds == book.clientOrderIdToOrderId
  {
    hide OrderBook.Valid, ValidSymbolPrice, ClientIds;
    BookClients(book);
    var all := book.bids.view + book.asks.view;
    ClientIdsOf(snapshot.activeOrders);
    SameClients(all, snapshot.activeOrders);
    IsClientIds(all, snapshot.clientIds);
  }

  class EngineCore {
    var books: map<nat, OrderBook>
    var sequences: SequenceState
    var idempotency: Idempotency
    ghost var owned: map<nat, set<object>>

    ghost function Repr(): set<object>
      reads this
    {
      {this as object} + set id, x: object | id in owned && x in owned[id] :: x
    }

    ghost predicate BookValid(id: nat)
      requires id in books && id in owned
      reads *
    {
      books[id].Valid() && books[id].Repr() <= owned[id]
    }

    ghost predicate Valid()
      reads *
    {
      && books.Keys == owned.Keys
      && Apart(this, owned)
      && (forall id <- books :: BookValid(id))
      && SaneBooks(BookViews())
    }

    ghost function BookViews(): map<nat, Book>
      reads *
    {
      map id | id in books :: books[id].View()
    }

    ghost function View(): Core
      reads *
    {
      Core(BookViews(), sequences, idempotency)
    }

    /** The addressed book has room for the command's lots in 64-bit totals. */
    ghost predicate Fits(command: EngineCommand)
      reads *
    {
      command.Place? && command.place.symbolId in books ==>
        books[command.place.symbolId].Fits(command.place.quantity)
    }

    constructor ()
      ensures Valid() && fresh(Repr())
      ensures View() == Core(map[], SequenceState(1, 1, 1), Idempotency(map[], map[], {}))
    {
      books, sequences, idempotency := map[], SequenceState(1, 1, 1), Idempotency(map[], map[], {});
      owned := map[];
    }

    lemma OwnedWithin(id: nat)
      requires id in owned
      ensures owned[id] <= Repr()
    {
    }

    twostate lemma OneUntouched(j: nat)
      requires j in old(books) && j in old(owned) && j in books && j in owned
      requires old(BookValid(j)) && books[j] == old(books[j]) && owned[j] == old(owned[j])
      requires forall x <- old(owned[j]) :: unchanged(x)
      ensures BookValid(j) && books[j].View() == old(books[j].View())
    {
      hide OrderBook.Valid, SideBook.Repr, OrderBook.View;
      Untouched(books[j]);
    }

    /** Every book but one is as it was, if none of their objects changed and that one took on none of them. */
    twostate lemma OthersUntouched(id: nat)
      requires old(Valid()) && id in books && id in owned && BookValid(id)
      requires books == old(books)[id := books[id]] && owned == old(owned)[id := owned[id]]
      requires this !in owned[id] && forall j <- old(owned) :: j != id ==> old(owned)[j] !! owned[id]
      requires forall j <- old(owned), x <- old(owned)[j] :: j != id ==> unchanged(x)
      requires SaneQuantities(books[id].View().bids) && SaneQuantities(books[id].View().asks)
      ensures Valid() && BookViews() == old(BookViews())[id := books[id].View()]
    {
      hide BookValid, SaneBooks, BookViews, Apart, SaneQuantities, OrderBook.View;
      ApartReplace(this, old(owned), id, owned[id]);
      forall j <- books | j != id ensures BookValid(j) && books[j].View() == old(books[j].View()) {
        OneUntouched(j);
      }
      ViewsReplaced(id);
      SaneReplace(old(BookViews()), id, books[id].View());
    }

    twostate lemma ViewsReplaced(id: nat)
      requires id in books && books == old(books)[id := books[id]]
      requires forall j <- books :: j != id ==> books[j].View() == old(books[j].View())
      ensures BookViews() == old(BookViews())[id := books[id].View()]
    {
      hide OrderBook.View;
    }

    /** Changing the counters and the index touches no book. */
    twostate lemma BooksUntouched()
      requires old(Valid()) && books == old(books) && owned == old(owned)
      requires forall j <- old(owned), x <- old(owned)[j] :: unchanged(x)
      ensures Valid() && BookViews() == old(BookViews())
    {
      hide BookValid, SaneBooks, OrderBook.View, Apart;
      forall j <- books ensures BookValid(j) && books[j].View() == old(books[j].View()) {
        OneUntouched(j);
      }
      assert BookViews() == old(BookViews());
    }

    /** List a symbol, with an empty book. */
    method AddSymbol(config: SymbolConfig)
      requires Valid()
      modifies this`books, this`owned
      ensures Valid()
      ensures View() == old(View()).(books := old(View()).books[config.symbolId := EmptyBook(config)])
    {
      hide OrderBook.Valid, SaneBooks, OrderBook.Repr;
      var book := new OrderBook(config);
      books := books[config.symbolId := book];
      owned := owned[config.symbolId := book.Repr()];
      OthersUntouched(config.symbolId);
    }

    /** Let a book process a placement; nothing that the other books own is touched or taken over. */
    method PlaceHere(book: OrderBook, id: nat, c: PlaceOrderCommand) returns (events: seq<EngineEvent>)
      requires id in owned && Apart(this, owned) && book.Valid() && book.Repr() <= owned[id] && book.Fits(c.quantity)
      modifies this`sequences, this`owned, owned[id]
      ensures id in owned && owned == old(owned)[id := owned[id]] && Apart(this, owned)
      ensures book.Valid() && book.Repr() <= owned[id] && fresh(owned[id] - old(owned[id]))
      ensures SaneQuantities(book.View().bids) && SaneQuantities(book.View().asks)
      ensures SaneQuantities(old(book.View()).bids) && SaneQuantities(old(book.View()).asks)
      ensures BookResult(book.View(), sequences, events) == BookSpec.ProcessPlace(old(book.View()), old(sequences), c)
    {
      hide OrderBook.Valid, OrderBook.Repr, BookSpec.ProcessPlace, OrderBook.Fits, OrderBook.View, SaneQuantities;
      ghost var own;
      events, sequences, own := PlaceOne(book, c, sequences, owned[id]);
      owned := owned[id := own];
    }

    /** Let the addressed book process a placement. */
    method PlaceIn(c: PlaceOrderCommand) returns (events: seq<EngineEvent>)
      requires Valid() && c.symbolId in books && books[c.symbolId].Fits(c.quantity)
      modifies Repr()
      ensures Valid() && idempotency == old(idempotency)
      ensures SaneQuantities(old(books[c.symbolId].View()).bids) && SaneQuantities(old(books[c.symbolId].View()).asks)
      ensures var r := BookSpec.ProcessPlace(old(books[c.symbolId].View()), old(sequences), c);
              && BookViews() == old(BookViews())[c.symbolId := r.book]
              && sequences == r.sequences && events == r.events
    {
      hide OrderBook.Valid, OrderBook.Repr, SaneBooks, BookSpec.ProcessPlace, OrderBook.Fits, OrderBook.View, BookViews, SaneQuantities;
      OwnedWithin(c.symbolId);
      assert BookValid(c.symbolId);
      events := PlaceHere(books[c.symbolId], c.symbolId, c);
      OthersUntouched(c.symbolId);
    }

    /** Let the addressed book process a cancel. */
    method CancelIn(c: CancelOrderCommand) returns (events: seq<EngineEvent>)
      requires Valid() && c.symbolId in books
      modifies Repr()
      ensures Valid() && idempotency == old(idempotency)
      ensures var r := BookSpec.ProcessCancel(old(books[c.symbolId].View()), old(sequences), c);
              && BookViews() == old(BookViews())[c.symbolId := r.book]
              && sequences == r.sequences && events == r.events
    {
      hide OrderBook.Valid, SaneBooks, OrderBook.Repr, BookSpec.ProcessCancel, OrderBook.View, BookViews;
      OwnedWithin(c.symbolId);
      assert BookValid(c.symbolId);
      events, sequences := CancelOne(books[c.symbolId], c, sequences, owned[c.symbolId]);
      OthersUntouched(c.symbolId);
    }

    /** Turn a command away, remembering the outcome unless the command is a repeat. */
    method Turn(commandId: nat, orderId: nat, userId: nat, symbolId: nat, reason: RejectReason)
      returns (events: seq<EngineEvent>)
      requires Valid()
      modifies this`sequences, this`idempotency
      ensures Valid()
      ensures CoreResult(View(), events) == Refuse(old(View()), commandId, orderId, userId, symbolId, reason)
    {
      hide BookValid, SaneBooks, BookViews;
      events := [Rejection(sequences, commandId, orderId, userId, symbolId, reason)];
      if reason != DuplicateCommand {
        idempotency := Record(idempotency, commandId,
                              Summary(commandId, false, orderId, Some(reason), events[0].sequence));
      }
      sequences := NextEvent(sequences);
      BooksUntouched();
    }

    /** Place and record: the index learns an accepted order's ids, and every command's outcome. */
    method PlaceAndRecord(c: PlaceOrderCommand) returns (events: seq<EngineEvent>)
      requires Valid() && c.symbolId in books && books[c.symbolId].Fits(c.quantity)
      modifies Repr()
      ensures Valid()
      ensures SaneQuantities(old(books[c.symbolId].View()).bids) && SaneQuantities(old(books[c.symbolId].View()).asks)
      ensures var r := BookSpec.ProcessPlace(old(books[c.symbolId].View()), old(sequences), c);
              events == r.events && View() == AfterPlace(old(View()), c, r)
    {
      hide BookValid, SaneBooks, BookViews, OrderBook.View, BookSpec.ProcessPlace, OrderBook.Fits, Apart, IsAccepted,
        RejectionIn;
      events := PlaceIn(c);
      RecordPlace(c, events);
    }

    method RecordPlace(c: PlaceOrderCommand, events: seq<EngineEvent>)
      requires Valid()
      modifies this`idempotency
      ensures Valid() && BookViews() == old(BookViews())
      ensures forall core: Core, r: BookResult :: core.idempotency == old(idempotency) && r.events == events ==>
                AfterPlace(core, c, r).idempotency == idempotency
    {
      hide BookValid, SaneBooks, BookViews, IsAccepted, RejectionIn;
      var accepted := HasAccepted(events);
      if accepted {
        idempotency := idempotency.(orderIds := idempotency.orderIds + {c.orderId},
                                    clientOrders := idempotency.clientOrders[c.clientOrderId := c.orderId]);
      }
      var reason := RejectedReason(events);
      idempotency := Record(idempotency, c.commandId,
                            Summary(c.commandId, accepted, c.orderId, reason, FirstSequence(events)));
      BooksUntouched();
    }

    method CancelAndRecord(c: CancelOrderCommand) returns (events: seq<EngineEvent>)
      requires Valid() && c.symbolId in books
      modifies Repr()
      ensures Valid()
      ensures var r := BookSpec.ProcessCancel(old(books[c.symbolId].View()), old(sequences), c);
              events == r.events && View() == AfterCancel(old(View()), c, r)
    {
      hide BookValid, SaneBooks, BookViews, OrderBook.View, BookSpec.ProcessCancel, Apart, IsCancelled, RejectionIn;
      events := CancelIn(c);
      RecordCancel(c, events);
    }

    method RecordCancel(c: CancelOrderCommand, events: seq<EngineEvent>)
      requires Valid()
      modifies this`idempotency
      ensures Valid() && BookViews() == old(BookViews())
      ensures forall core: Core, r: BookResult :: core.idempotency == old(idempotency) && r.events == events ==>
                AfterCancel(core, c, r).idempotency == idempotency
    {
      hide BookValid, SaneBooks, BookViews, IsCancelled, RejectionIn;
      var accepted := HasCancelled(events);
      var reason := RejectedReason(events);
      idempotency := Record(idempotency, c.commandId,
                            Summary(c.commandId, accepted, c.orderId, reason, FirstSequence(events)));
      BooksUntouched();
    }

    method ProcessPlace(c: PlaceOrderCommand) returns (events: seq<EngineEvent>)
      requires Valid() && Fits(Place(c))
      modifies Repr()
      ensures Valid() && SaneBooks(old(BookViews()))
      ensures CoreResult(View(), events) == CoreSpec.Process(old(View()), Place(c))
    {
      hide BookValid, SaneBooks, BookSpec.ProcessPlace, OrderBook.Fits, Apart, AfterPlace, Refuse, ValidSymbolPrice,
        ValidSymbolQuantity;
      if c.commandId in idempotency.commands {
        events := Turn(c.commandId, c.orderId, c.userId, c.symbolId, DuplicateCommand);
        return;
      }
      if c.symbolId !in books {
        events := Turn(c.commandId, c.orderId, c.userId, c.symbolId, InvalidSymbol);
        return;
      }
      var invalid := ValidatePlace(c, books[c.symbolId].config, idempotency);
      if invalid.Some? {
        events := Turn(c.commandId, c.orderId, c.userId, c.symbolId, invalid.value);
        return;
      }
      events := PlaceAndRecord(c);
    }

    method ProcessCancel(c: CancelOrderCommand) returns (events: seq<EngineEvent>)
      requires Valid()
      modifies Repr()
      ensures Valid() && SaneBooks(old(BookViews()))
      ensures CoreResult(View(), events) == CoreSpec.Process(old(View()), Cancel(c))
    {
      hide BookValid, SaneBooks, BookSpec.ProcessCancel, Apart, AfterCancel, Refuse;
      if c.commandId in idempotency.commands {
        events := Turn(c.commandId, c.orderId, c.userId, c.symbolId, DuplicateCommand);
        return;
      }
      if c.symbolId !in books {
        events := Turn(c.commandId, c.orderId, c.userId, c.symbolId, InvalidSymbol);
        return;
      }
      events := CancelAndRecord(c);
    }

    /** Process one command. */
    method Process(command: EngineCommand) returns (events: seq<EngineEvent>)
      requires Valid() && Fits(command)
      modifies Repr()
      ensures Valid() && SaneBooks(old(BookViews()))
      ensures CoreResult(View(), events) == CoreSpec.Process(old(View()), command)
    {
      hide BookValid, SaneBooks, BookViews, BookSpec.ProcessCancel, BookSpec.ProcessPlace, AfterPlace, AfterCancel, Refuse,
        ValidatePlace;
      match command
      case Place(c) => events := ProcessPlace(c);
      case Cancel(c) => events := ProcessCancel(c);
      case Malformed =>
        events := [Rejection(sequences, 0, 0, 0, 0, InvalidSymbol)];
        sequences := NextEvent(sequences);
        BooksUntouched();
    }

    // ---------- Snapshot and restore ----------

    method TakeAt(id: nat) returns (snapshot: BookSnapshot)
      requires Valid() && id in books
      ensures Valid() && BookViews() == old(BookViews())
      ensures snapshot == SnapshotBook(BookViews()[id])
    {
      hide BookValid, SaneBooks, OrderBook.View, SnapshotBook;
      ValidBook(id);
      snapshot := TakeBook(books[id]);
      BooksUntouched();
    }

    /** Copy every book's orders, the counters and the index. */
    method Snapshot() returns (snapshot: CoreSnapshot)
      requires Valid()
      ensures snapshot == CoreSpec.Snapshot(View())
    {
      hide Valid, SnapshotBook, OrderBook.View;
      ghost var views := BookViews();
      var snapshots: map<nat, BookSnapshot> := map[];
      var pending := books.Keys;
      while pending != {}
        invariant pending <= books.Keys && snapshots.Keys == books.Keys - pending
        invariant forall id <- snapshots :: snapshots[id] == SnapshotBook(views[id])
        invariant Valid() && BookViews() == views
      {
        SomeId(pending);
        var id :| id in pending;
        var one := TakeAt(id);
        snapshots := snapshots[id := one];
        pending := pending - {id};
      }
      return CoreSnapshot(snapshots, sequences, idempotency);
    }

    lemma ValidBook(id: nat)
      requires Valid() && id in books
      ensures books[id].Valid()
    {
      hide OrderBook.Valid, SaneBooks, Apart;
    }

    method RestoreOne(id: nat, snapshot: BookSnapshot)
      requires Valid() && Restorable(snapshot)
      modifies this`books, this`owned
      ensures Valid() && books.Keys == old(books.Keys) + {id}
      ensures BookViews() == old(BookViews())[id := RestoreBook(snapshot)]
    {
      hide OrderBook.Valid, SaneBooks, OrderBook.Repr, RestoreBook, Restorable;
      var book := RebuildBook(snapshot);
      books := books[id := book];
      owned := owned[id := book.Repr()];
      SaneView(book);
      OthersUntouched(id);
    }

    method Clear(s: SequenceState, i: Idempotency)
      modifies this
      ensures Valid() && BookViews() == map[] && sequences == s && idempotency == i
    {
      hide OrderBook.View;
      books, owned, sequences, idempotency := map[], map[], s, i;
    }

    /** Drop every book and rebuild them, the counters and the index from the snapshot. */
    method Restore(snapshot: CoreSnapshot)
      requires forall id <- snapshot.books :: Restorable(snapshot.books[id])
      modifies this
      ensures Valid()
      ensures View() == CoreSpec.Restore(snapshot)
    {
      hide Valid, Restorable, RestoreBook, OrderBook.View;
      Clear(snapshot.sequences, snapshot.idempotency);
      var pending := snapshot.books.Keys;
      while pending != {}
        invariant Valid() && sequences == snapshot.sequences && idempotency == snapshot.idempotency
        invariant pending <= snapshot.books.Keys && BookViews().Keys == snapshot.books.Keys - pending
        invariant forall id <- BookViews() :: BookViews()[id] == RestoreBook(snapshot.books[id])
      {
        SomeId(pending);
        var id :| id in pending;
        RestoreOne(id, snapshot.books[id]);
        pending := pending - {id};
      }
    }
  }

  method PlaceOne(book: OrderBook, c: PlaceOrderCommand, s: SequenceState, ghost own: set<object>)
    returns (events: seq<EngineEvent>, next: SequenceState, ghost own': set<object>)
    requires book.Valid() && book.Repr() <= own && book.Fits(c.quantity)
    modifies own
    ensures book.Valid() && book.Repr() <= own' && fresh(own' - own)
    ensures SaneQuantities(book.View().bids) && SaneQuantities(book.View().asks)
    ensures SaneQuantities(old(book.View()).bids) && SaneQuantities(old(book.View()).asks)
    ensures BookResult(book.View(), next, events) == BookSpec.ProcessPlace(old(book.View()), s, c)
  {
    hide OrderBook.Sides, Indexed, SideBook.Repr, BookSpec.ProcessPlace, SaneQuantities, OrderBook.Fits;
    events, next := book.ProcessPlace(c, s);
    own' := book.Repr();
  }

  method CancelOne(book: OrderBook, c: CancelOrderCommand, s: SequenceState, ghost own: set<object>)
    returns (events: seq<EngineEvent>, next: SequenceState)
    requires book.Valid() && book.Repr() <= own
    modifies own
    ensures book.Valid() && book.Repr() <= own
    ensures SaneQuantities(book.View().bids) && SaneQuantities(book.View().asks)
    ensures BookResult(book.View(), next, events) == BookSpec.ProcessCancel(old(book.View()), s, c)
  {
    hide OrderBook.Sides, Indexed, SideBook.Repr, BookSpec.ProcessCancel, SaneQuantities;
    events, next := book.ProcessCancel(c, s);
  }
}
