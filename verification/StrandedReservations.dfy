/**
  Orders whose metadata outlives them.  An accepted order that may not rest and is not filled leaves its metadata behind
  without resting: no cancel can reach it, no trade draws on it, and the next restart drops it with what it still holds.
 */
module StrandedReservations {
  import opened Types
  import opened BookSpec
  import opened MatchLaws
  import opened BookLaws
  import opened CoreSpec
  import opened CoreLaws
  import opened Accounting
  import opened LedgerSpec
  import opened LedgerLaws
  import opened RuntimeSpec
  import opened StoreLaws
  import opened LiquidationLaws
  import opened RuntimeLaws
  import opened RuntimeRuns
  import opened RuntimeSteps
  import opened RestartLaws
  import opened ReservationLaws

  /** The order has metadata but does not rest. */
  ghost predicate Stranded(st: State, id: nat) {
    id in st.metadata && !Rests(st.core.books, id)
  }

  // ---------- What rests after an accepted order ----------

  /** An order that the match did not use up still rests. */
  lemma StillRests(core: Core, c: PlaceOrderCommand, id: nat)
    requires CoreInv(core) && Accepting(core, c, CoreStep(core, Place(c))) && Rests(core.books, id)
    requires var book := core.books[c.symbolId];
             HasId(book.SideQueue(c.side.Opposite()), id) ==> HasId(MatchOf(book, core.sequences, c).queue, id)
    ensures Rests(CoreStep(core, Place(c)).core.books, id)
  {
    hide CoreSpec.Process, CoreInv, HasId, MatchOf, SaneQuantities, PlaceRejection, Insert, LevelLots;
    var r := CoreStep(core, Place(c));
    var m :| m in core.books && (HasId(core.books[m].bids, id) || HasId(core.books[m].asks, id));
    assert m in r.core.books;
    if m == c.symbolId {
      var book := core.books[m];
      InsertKeepsIds(c.side, book.SideQueue(c.side),
                     RestingSnapshot(c, MatchOf(book, core.sequences, c).taker.remaining, core.sequences.nextSequence), id);
    }
  }

  lemma InsertKeepsIds(side: Side, q: Queue, o: OrderSnapshot, id: nat)
    ensures HasId(q, id) || id == o.orderId ==> HasId(Insert(side, q, o), id)
  {
    var r := Insert(side, q, o);
    if HasId(q, id) {
      var i :| 0 <= i < |q| && q[i].orderId == id;
      Queues.InsertMember(side, q, o, q[i]);
      MemberHasId(r, q[i]);
    }
    Queues.InsertMember(side, q, o, o);
    MemberHasId(r, o);
  }

  /** An accepted order rests exactly if it may and something of it is left. */
  lemma OwnRests(core: Core, c: PlaceOrderCommand)
    requires CoreInv(core) && Accepting(core, c, CoreStep(core, Place(c)))
    ensures Rests(CoreStep(core, Place(c)).core.books, c.orderId)
            <==> CanRest(c) && MatchOf(core.books[c.symbolId], core.sequences, c).taker.remaining > 0
  {
    hide CoreSpec.Process, CoreInv, HasId, MatchOf, SaneQuantities, PlaceRejection, Insert, LevelLots, Suffix;
    var r := CoreStep(core, Place(c));
    var book, opp := core.books[c.symbolId], c.side.Opposite();
    var m := MatchOf(book, core.sequences, c);
    forall k <- core.books ensures !HasId(core.books[k].bids, c.orderId) && !HasId(core.books[k].asks, c.orderId) {
      FreshId(core, k, Buy, c.orderId);
      FreshId(core, k, Sell, c.orderId);
    }
    BookInvAt(core, c.symbolId);
    MatchKeeps(book, core.sequences, c);
    SuffixIds(m.queue, book.SideQueue(opp), c.orderId);
    if CanRest(c) && m.taker.remaining > 0 {
      InsertKeepsIds(c.side, book.SideQueue(c.side), RestingSnapshot(c, m.taker.remaining, core.sequences.nextSequence), c.orderId);
      assert HasId(r.core.books[c.symbolId].SideQueue(c.side), c.orderId);
    }
  }

  // ---------- Others are not affected ----------

  /** An order accepted earlier is stranded after the runtime has done something exactly if it was before, and unchanged. */
  ghost predicate FixedFor(a: State, b: State, id: nat) {
    id in a.core.idempotency.orderIds ==>
      && id in b.core.idempotency.orderIds
      && (Stranded(a, id) <==> Stranded(b, id))
      && (Stranded(a, id) ==> b.metadata[id] == a.metadata[id])
  }

  /** The store after a match, with completed orders gone: for orders accepted earlier, nobody becomes or ceases to be stranded. */
  lemma MatchFixes(core: Core, c: PlaceOrderCommand, l: Ledger, l': Ledger, after: map<nat, Metadata>, id: nat)
    requires StoreOk(core, l.metadata) && Accepting(core, c, CoreStep(core, Place(c))) && id in core.idempotency.orderIds
    requires var book, m := core.books[c.symbolId], MatchOf(core.books[c.symbolId], core.sequences, c);
             m.taker.remaining <= c.quantity
             && Follows(l, l', book.SideQueue(c.side.Opposite()), m.queue, c.symbolId, c.quantity - m.taker.remaining)
    requires var gone := Completed(CoreStep(core, Place(c)).events);
             (id in after <==> id in l'.metadata && id !in gone) && (id in after ==> after[id] == l'.metadata[id])
    ensures var r := CoreStep(core, Place(c));
            && id in r.core.idempotency.orderIds
            && (id in l.metadata && !Rests(core.books, id) <==> id in after && !Rests(r.core.books, id))
            && (id in l.metadata && !Rests(core.books, id) ==> after[id] == l.metadata[id])
  {
    hide CoreSpec.Process, CoreInv, HasId, MatchOf, SaneQuantities, PlaceRejection, ProcessPlace, Completed, Covers, MetadataOk,
      LedgerOk, Net, Moved, Rests, Covered;
    var book, opp := core.books[c.symbolId], c.side.Opposite();
    var q := book.SideQueue(opp);
    AcceptedMatched(core, c, l, l');
    if HasId(q, id) { QueueRests(core.books, c.symbolId, opp, id); }
    if Rests(CoreStep(core, Place(c)).core.books, id) { PlaceRests(core, c, id); }
    if Rests(core.books, id) && id in after { StillRests(core, c, id); }
  }

  lemma QueueRests(books: map<nat, Book>, m: nat, side: Side, id: nat)
    requires m in books && HasId(books[m].SideQueue(side), id)
    ensures Rests(books, id)
  {
    hide HasId;
  }

  lemma OrderFixes(st: State, i: Input, c: PlaceOrderCommand, id: nat)
    requires RuntimeInv(st) && CoreInv(st.core) && i.PlaceInput? && CoreOrder(st, i) == Some(c) && Mappable(c)
    ensures RunOrder(st, i, c).Some? && FixedFor(st, RunOrder(st, i, c).value.state, id)
  {
    hide CoreSpec.Process, CoreInv, BookAll, Completed, RuntimeInv, IsAccepted, MatchOf, Follows, Mappable, Rests, Moved,
      ProcessPlace, PlaceRejection, SaneQuantities, CoreOrder, StandsFor, RunOrder, OrderReport, Taken, OwnTaken;
    RunOrderLaw(st, i, c);
    OrderShape(st, i, c);
    PlaceCases(st.core, c);
    PlaceStands(st, i, c);
    var core, md := CoreStep(st.core, Place(c)), PlaceMetadata(i);
    var l := LedgerOf(st, Some(md));
    var l' := BookAll(l, core.events, st.marks, PlaceKind).ledger;
    StandsStanding(md, c);
    PendingLedger(st, md);
    InvStore(st);
    var after := RunOrder(st, i, c).value.state;
    if id in st.core.idempotency.orderIds {
      if Accepting(st.core, c, core) {
        AcceptedBooked(st.core, c, l, st.marks, PlaceKind);
        MatchFixes(st.core, c, l, l', after.metadata, id);
      } else {
        RefusedBooks(st.core, core, l, st.marks, PlaceKind);
      }
    }
  }

  lemma CancelFixes(st: State, c: CancelOrderCommand, id: nat)
    requires RuntimeInv(st) && CoreInv(st.core)
    ensures FixedFor(st, CancelOrder(st, c).state, id)
  {
    hide CoreSpec.Process, CoreInv, BookAll, Completed, RuntimeInv, HasId, RemoveId;
    CancelLaw(st, c);
    CancelCases(st.core, c);
    var core, after := CoreStep(st.core, Cancel(c)), CancelOrder(st, c).state;
    if Refusing(st.core, core) {
      InvStore(st);
      RefusedBooks(st.core, core, LedgerOf(st, None), st.marks, CancelKind);
    } else {
      var o :| Cancelling(st.core, c, core, o);
      assert core.events[0].OrderCancelled?;
      RestsHere(st.core.books, c.symbolId, o);
      if Rests(core.core.books, id) { CancelRests(st.core, c, id); }
      if Rests(st.core.books, id) && id != o.orderId { RestsDespite(st.core, c, o, id); }
    }
  }

  /** A cancel leaves every other order resting. */
  lemma RestsDespite(core: Core, c: CancelOrderCommand, o: OrderSnapshot, id: nat)
    requires CoreInv(core) && Cancelling(core, c, CoreStep(core, Cancel(c)), o) && Rests(core.books, id) && id != o.orderId
    ensures Rests(CoreStep(core, Cancel(c)).core.books, id)
  {
    hide CoreSpec.Process, CoreInv, HasId, RemoveId;
    var r := CoreStep(core, Cancel(c));
    var m :| m in core.books && (HasId(core.books[m].bids, id) || HasId(core.books[m].asks, id));
    assert m in r.core.books;
    if m == c.symbolId { RemoveKeepsIds(core.books[m].SideQueue(o.side), o.orderId, id); }
  }

  lemma RemoveKeepsIds(q: Queue, gone: nat, id: nat)
    ensures id != gone && HasId(q, id) ==> HasId(RemoveId(q, gone), id)
  {
    if id != gone && HasId(q, id) {
      var i :| 0 <= i < |q| && q[i].orderId == id;
      Queues.RemoveMember(q, gone, q[i]);
      MemberHasId(RemoveId(q, gone), q[i]);
    }
  }

  /** What the book does for an order that leaves no entry of its own. */
  lemma TakenFixes(st: State, c: PlaceOrderCommand, md: Metadata, kind: CommandKind, id: nat)
    requires RuntimeInv(st) && CoreInv(st.core) && StandsFor(md, c)
    ensures var core := CoreStep(st.core, Place(c));
            var b := BookAll(LedgerOf(st, Some(md)), core.events, st.marks, kind);
            FixedFor(st, Settle(st, core.core, b.ledger, core.events), id)
  {
    hide CoreSpec.Process, CoreInv, BookAll, Completed, RuntimeInv, MatchOf, Follows, Rests, ProcessPlace, PlaceRejection,
      SaneQuantities, StandsFor;
    PlaceCases(st.core, c);
    StandsStanding(md, c);
    PendingLedger(st, md);
    InvStore(st);
    var core, l := CoreStep(st.core, Place(c)), LedgerOf(st, Some(md));
    var l' := BookAll(l, core.events, st.marks, kind).ledger;
    var after := Settle(st, core.core, l', core.events);
    if id in st.core.idempotency.orderIds {
      if Accepting(st.core, c, core) {
        AcceptedBooked(st.core, c, l, st.marks, kind);
        MatchFixes(st.core, c, l, l', after.metadata, id);
      } else {
        RefusedBooks(st.core, core, l, st.marks, kind);
      }
    }
  }

  /** An order that trades nothing and may not rest leaves the books as they were for every other order. */
  lemma UntradedFixes(st: State, c: PlaceOrderCommand, id: nat)
    requires RuntimeInv(st) && CoreInv(st.core) && !CanRest(c) && !HasTrade(CoreStep(st.core, Place(c)).events)
    ensures FixedFor(st, st.(core := CoreStep(st.core, Place(c)).core), id)
  {
    hide CoreSpec.Process, CoreInv, RuntimeInv, MatchOf, HasId, ProcessPlace, PlaceRejection, SaneQuantities, Rests, HasTrade;
    PlaceCases(st.core, c);
    var r := CoreStep(st.core, Place(c));
    CoreUntraded(st.core, c);
    if Rests(r.core.books, id) { TakerRests(st.core, c, id); }
    if Accepting(st.core, c, r) && Rests(st.core.books, id) { StillRests(st.core, c, id); }
  }

  lemma CoreUntraded(core: Core, c: PlaceOrderCommand)
    requires CoreInv(core) && !HasTrade(CoreStep(core, Place(c)).events)
    ensures Accepting(core, c, CoreStep(core, Place(c))) ==>
              MatchOf(core.books[c.symbolId], core.sequences, c).queue == core.books[c.symbolId].SideQueue(c.side.Opposite())
  {
    hide CoreSpec.Process, CoreInv, PlaceRejection, SaneQuantities, Insert, LevelLots, Match;
    var r := CoreStep(core, Place(c));
    if Accepting(core, c, r) {
      var book, opp := core.books[c.symbolId], c.side.Opposite();
      var q, taker := book.SideQueue(opp), Taker(c.orderId, MatchLimit(c), c.quantity, c.quantity);
      var m := MatchOf(book, core.sequences, c);
      if Matchable(opp, q, taker) {
        RestoreLaws.FirstMaker(book, core.sequences, c);
      } else {
        NoMatch(book.config.symbolId, opp, q, taker, NextEvent(core.sequences), book.lastTradePrice);
      }
    }
  }

  lemma NoMatch(symbolId: nat, side: Side, q: Queue, taker: Taker, s: SequenceState, last: Option<int>)
    requires SaneQuantities(q) && taker.remaining <= taker.original && !Matchable(side, q, taker)
    ensures Match(symbolId, side, q, taker, s, last).queue == q
  {
  }

  lemma LiquidateFixes(st: State, q: Liquidation, id: nat)
    requires RuntimeInv(st) && CoreInv(st.core)
    ensures FixedFor(st, Liquidate(st, q).state, id)
  {
    hide CoreSpec.Process, RuntimeInv, BookAll, Deleverage, CoreInv, CrossingLiquidity, AvailableLots, AdlCandidates,
      LiquidationPrice, HasTrade, LiquidationMetadata, LiquidationOrder, Completed, LiquidationQuantity, Rests, Still;
    if MayLiquidate(st, q) {
      var p := st.positions[q.key];
      var price, md := LiquidationPrice(q, p, st.marks), LiquidationMetadata(q, p);
      var c, started := LiquidationOrder(q, p.signed, price), [LiquidationStarted(q.key)];
      LiquidationStands(q, p, price);
      DeleverageStill(st, LedgerOf(st, Some(md)), q, price, started);
      TakenFixes(st, c, md, LiquidationKind, id);
      var core := CoreStep(st.core, Place(c));
      var b := BookAll(LedgerOf(st, Some(md)), core.events, st.marks, LiquidationKind);
      var settled := Settle(st, core.core, b.ledger, core.events);
      DeleverageStill(settled, LedgerOf(settled, b.ledger.pending), q, price, started + b.outputs);
      if !HasTrade(core.events) { UntradedFixes(st, c, id); }
    }
  }

  ghost function Fixes(id: nat): Relation {
    (a, b, x) => FixedFor(a, b, id)
  }

  lemma FixedEverywhere(id: nat)
    ensures Everywhere(Fixes(id))
  {
    hide RuntimeInv, CoreInv, Liquidate, CancelOrder, RunOrder, Rests, CoreOrder, Mappable;
    var rel := Fixes(id);
    forall st, q | RuntimeInv(st) && CoreInv(st.core) ensures rel(st, Liquidate(st, q).state, Liquidate(st, q).outputs) {
      LiquidateFixes(st, q, id);
    }
    forall st, c | RuntimeInv(st) && CoreInv(st.core) ensures rel(st, CancelOrder(st, c).state, CancelOrder(st, c).outputs) {
      CancelFixes(st, c, id);
    }
    forall st, i: Input, c | RuntimeInv(st) && CoreInv(st.core) && i.PlaceInput? && CoreOrder(st, i) == Some(c) && Mappable(c)
      ensures OrderRelated(rel, st, i, c)
    {
      OrderFixes(st, i, c, id);
    }
  }

  // ---------- Which orders are stranded ----------

  /** The order is turned away from resting, and the book does not hold enough for it. */
  ghost predicate FallsShort(core: Core, c: PlaceOrderCommand)
    requires c.symbolId in core.books
  {
    !CanRest(c) && Reachable(core, c) < c.quantity
  }

  lemma OwnStranded(st: State, i: Input, c: PlaceOrderCommand)
    requires RuntimeInv(st) && CoreInv(st.core) && i.PlaceInput? && CoreOrder(st, i) == Some(c) && Mappable(c) && !i.reduceOnly
    requires IsAccepted(CoreStep(st.core, Place(c)).events)
    ensures RunOrder(st, i, c).Some? && c.symbolId in st.core.books
    ensures var after := RunOrder(st, i, c).value.state;
            && c.orderId in after.core.idempotency.orderIds
            && (Stranded(after, c.orderId) <==> FallsShort(st.core, c))
            && (Stranded(after, c.orderId) ==> after.metadata[c.orderId].remaining > 0)
  {
    hide CoreSpec.Process, CoreInv, BookAll, Completed, RuntimeInv, IsAccepted, FilledBy, MatchOf, Mappable, Rests, Moved, Net, Covers,
      ProcessPlace, PlaceRejection, SaneQuantities, Reachable, LedgerOk, MetadataOk, Standing, Covered;
    RunOrderLaw(st, i, c);
    PlaceCases(st.core, c);
    PlaceStands(st, i, c);
    var core, md := CoreStep(st.core, Place(c)), PlaceMetadata(i);
    var l := LedgerOf(st, Some(md));
    StandsStanding(md, c);
    PendingLedger(st, md);
    InvStore(st);
    AcceptedBooked(st.core, c, l, st.marks, PlaceKind);
    AcceptedMatched(st.core, c, l, BookAll(l, core.events, st.marks, PlaceKind).ledger);
    OwnRests(st.core, c);
    LeftOver(st.core, c);
    SomethingAsked(c);
  }

  lemma SomethingAsked(c: PlaceOrderCommand)
    requires Mappable(c)
    ensures c.quantity > 0
  {
  }

  /** What a run does for one order's reservation, once the order was accepted. */
  ghost predicate FlowsOn(a: State, b: State, outputs: seq<Output>, id: nat) {
    id in a.core.idempotency.orderIds ==>
      id in b.core.idempotency.orderIds && FlowsAt(a.metadata, b.metadata, outputs, id)
  }

  ghost function FlowsFor(id: nat): Relation {
    (a, b, x) => FlowsOn(a, b, x, id)
  }

  lemma FlowsOnTwice(a: State, b: State, c: State, x: seq<Output>, y: seq<Output>, id: nat)
    requires FlowsOn(a, b, x, id) && FlowsOn(b, c, y, id)
    ensures FlowsOn(a, c, x + y, id)
  {
    hide FlowsAt;
    if id in a.core.idempotency.orderIds { FlowsAtTwice(a.metadata, b.metadata, c.metadata, x, y, id); }
  }

  lemma ClericalStill(outputs: seq<Output>)
    requires forall o <- outputs :: o.MarkUpdated? || o.RateUpdated? || o.FundingPaid? || o.ReservationReleased?
    ensures Still(outputs)
  {
    hide Still;
    StillOutputs(outputs);
  }

  lemma ClericalFlows(a: State, b: State, x: seq<Output>, id: nat)
    requires Clerical(a, b, x)
    ensures FlowsOn(a, b, x, id)
  {
    hide Still, FlowsAt;
    ClericalStill(x);
    StillFlows(a, b, x);
  }

  lemma OrderFlowsOn(st: State, i: Input, c: PlaceOrderCommand, id: nat)
    requires RuntimeInv(st) && CoreInv(st.core) && i.PlaceInput? && CoreOrder(st, i) == Some(c) && Mappable(c)
    ensures RunOrder(st, i, c).Some? && FlowsOn(st, RunOrder(st, i, c).value.state, RunOrder(st, i, c).value.outputs, id)
  {
    hide RuntimeInv, CoreInv, RunOrder, FlowsAt, CoreOrder, Mappable, CoreSpec.Process, IsAccepted, Accounted;
    RunOrderFlows(st, i, c);
  }

  lemma FlowsEverywhere(id: nat)
    ensures Everywhere(FlowsFor(id))
  {
    hide RuntimeInv, CoreInv, Liquidate, CancelOrder, RunOrder, FlowsOn, CoreOrder, Mappable, Clerical, FlowsAt;
    var rel := FlowsFor(id);
    forall st ensures rel(st, st, []) {
      assert Clerical(st, st, []) by { NothingDone(st); }
      ClericalFlows(st, st, [], id);
    }
    forall a, b, c, x, y | rel(a, b, x) && rel(b, c, y) ensures rel(a, c, x + y) { FlowsOnTwice(a, b, c, x, y, id); }
    forall a, b, x | Clerical(a, b, x) ensures rel(a, b, x) { ClericalFlows(a, b, x, id); }
    forall st, q | RuntimeInv(st) && CoreInv(st.core) ensures rel(st, Liquidate(st, q).state, Liquidate(st, q).outputs) {
      LiquidateFlows(st, q);
      FlowsAreOn(st, Liquidate(st, q).state, Liquidate(st, q).outputs, id);
    }
    forall st, c | RuntimeInv(st) && CoreInv(st.core) ensures rel(st, CancelOrder(st, c).state, CancelOrder(st, c).outputs) {
      CancelFlows(st, c);
      FlowsAreOn(st, CancelOrder(st, c).state, CancelOrder(st, c).outputs, id);
    }
    forall st, i: Input, c | RuntimeInv(st) && CoreInv(st.core) && i.PlaceInput? && CoreOrder(st, i) == Some(c) && Mappable(c)
      ensures OrderRelated(rel, st, i, c)
    {
      OrderFlowsOn(st, i, c, id);
    }
  }

  lemma NothingDone(st: State)
    ensures Clerical(st, st, [])
  {
  }

  lemma FlowsAreOn(a: State, b: State, x: seq<Output>, id: nat)
    requires Flows(a, b, x)
    ensures FlowsOn(a, b, x, id)
  {
    hide FlowsAt;
  }

  /** A stranded reservation in good standing holds something. */
  lemma StrandedHolds(md: Metadata)
    requires Standing(md) && Claims(md) && md.remaining > 0
    ensures md.remainingReserved > 0
  {
    assert md.reserved * md.remaining > 0;
  }

  /** Over any run, a reservation that is stranded stays as it is: nothing is settled from it and nothing released. */
  lemma StrandedForGood(st: State, records: seq<Record>, ids: Record -> IdSource, id: nat)
    requires RuntimeInv(st) && Stranded(st, id) && Claims(st.metadata[id])
    ensures var r := RuntimeRuns.Run(st, records, ids);
            && Stranded(r.state, id) && r.state.metadata[id] == st.metadata[id]
            && Settled(r.outputs, id) == 0 && Released(r.outputs, id) == 0
  {
    hide RuntimeInv, RuntimeRuns.Run, Rests, Settled, Released, Claims, Elsewhere, AcrossOrders;
    StoreKeys(st);
    FixedEverywhere(id);
    FlowsEverywhere(id);
    RunRelated(Fixes(id), st, records, ids);
    RunRelated(FlowsFor(id), st, records, ids);
  }

  /** The record places an order that is accepted with a reservation. */
  ghost predicate Opens(st: State, r: Record) {
    RuntimeInv(st) && (InvCore(st); Opened(st, r) != map[])
  }

  /**
    A record that places an order with a reservation, and any run after it: the order is stranded at the end exactly if it
    may not rest and the book held fewer lots within its limit than it asked for; it then still holds some of its reservation.
   */
  lemma StrandedIff(st: State, r: Record, later: seq<Record>, ids: Record -> IdSource)
    requires r.input.PlaceInput? && Opens(st, r)
    ensures var c, end := r.input.order, RuntimeRuns.Run(st, [r] + later, ids).state;
            && c.symbolId in st.core.books
            && (Stranded(end, c.orderId) <==> FallsShort(st.core, c))
            && (Stranded(end, c.orderId) ==>
                  Claims(end.metadata[c.orderId]) && end.metadata[c.orderId].remainingReserved > 0)
  {
    hide RuntimeInv, CoreInv, RuntimeSpec.Process, Rests, Claims, Elsewhere, AcrossOrders, FallsShort, Opened;
    var c := r.input.order;
    ProcessLaw(st, r, ids(r));
    PlacedStranded(st, r, ids(r));
    var after := RuntimeSpec.Process(st, r, ids(r)).state;
    assert ([r] + later)[1..] == later;
    FixedEverywhere(c.orderId);
    RunRelated(Fixes(c.orderId), after, later, ids);
    if Stranded(after, c.orderId) {
      InvStanding(after, c.orderId);
      StrandedHolds(after.metadata[c.orderId]);
    }
  }

  lemma InvStanding(st: State, id: nat)
    requires RuntimeInv(st) && id in st.metadata
    ensures Standing(st.metadata[id])
  {
    hide Standing, CoreInv, Covered, RisksOk, ZeroSum;
  }

  lemma OpenedFacts(st: State, r: Record)
    requires CoreInv(st.core) && Opened(st, r) != map[]
    ensures r.input.PlaceInput? && r.input.reserved > 0 && !r.input.reduceOnly && DuplicateOf(st, r.input).None?
    ensures CoreOrder(st, r.input) == Some(r.input.order) && Mappable(r.input.order)
    ensures IsAccepted(CoreStep(st.core, Place(r.input.order)).events)
    ensures Opened(st, r) == map[r.input.order.orderId := r.input.reserved]
  {
    hide CoreInv, CoreSpec.Process, IsAccepted, Mappable, DuplicateOf;
  }

  lemma PlacedStranded(st: State, r: Record, ids: IdSource)
    requires RuntimeInv(st) && CoreInv(st.core) && (forall m <- st.rates :: st.rates[m].scale > 0)
    requires Opened(st, r) != map[]
    ensures var c, after := r.input.order, RuntimeSpec.Process(st, r, ids).state;
            && c.symbolId in st.core.books && c.orderId in after.core.idempotency.orderIds
            && (Stranded(after, c.orderId) <==> FallsShort(st.core, c))
            && (Stranded(after, c.orderId) ==> Claims(after.metadata[c.orderId]) && after.metadata[c.orderId].remaining > 0)
  {
    hide RuntimeInv, CoreInv, Rests, RunOrder, AutoLiquidate, FallsShort, Opened, Mappable, CoreOrder, DuplicateOf, RuntimeSpec.Process,
      CoreSpec.Process, IsAccepted, Claims, LedgerLaws.Moved;
    OpenedFacts(st, r);
    var i, c := r.input, r.input.order;
    OwnStranded(st, i, c);
    OwnClaims(st, i, c);
    RunOrderLaw(st, i, c);
    var placed := RunOrder(st, i, c).value.state;
    InvCore(placed);
    AutoFixes(placed, c.symbolId, ids, c.orderId);
    PlaceOutcome(st, r, c, ids);
  }

  /** Processing a new order is running it and perhaps liquidating automatically, as far as books and metadata go. */
  lemma PlaceOutcome(st: State, r: Record, c: PlaceOrderCommand, ids: IdSource)
    requires CoreInv(st.core) && (forall m <- st.rates :: st.rates[m].scale > 0) && r.input.PlaceInput?
    requires DuplicateOf(st, r.input).None? && CoreOrder(st, r.input) == Some(c) && Mappable(c) && RunOrder(st, r.input, c).Some?
    ensures var placed, after := RunOrder(st, r.input, c).value.state, RuntimeSpec.Process(st, r, ids).state;
            var auto := AutoLiquidate(placed, c.symbolId, ids).state;
            || (after.core == placed.core && after.metadata == placed.metadata)
            || (after.core == auto.core && after.metadata == auto.metadata)
  {
    hide CoreInv, RunOrder, AutoLiquidate, Mappable, CoreOrder, DuplicateOf, CoreSpec.Process, HasTrade;
  }

  lemma AutoFixes(st: State, marketId: nat, ids: IdSource, id: nat)
    requires RuntimeInv(st) && CoreInv(st.core)
    ensures FixedFor(st, AutoLiquidate(st, marketId, ids).state, id)
  {
    hide RuntimeInv, CoreInv, AutoLiquidate, FixedFor, AcrossOrders, AcrossCancels, AcrossClerical, AcrossLiquidations, Composes;
    FixedEverywhere(id);
    AutoRelated(Fixes(id), st, marketId, ids);
  }

  lemma OwnClaims(st: State, i: Input, c: PlaceOrderCommand)
    requires RuntimeInv(st) && CoreInv(st.core) && i.PlaceInput? && CoreOrder(st, i) == Some(c) && Mappable(c)
    requires IsAccepted(CoreStep(st.core, Place(c)).events) && i.reserved > 0 && !i.reduceOnly
    ensures var r := RunOrder(st, i, c); r.Some? && (c.orderId in r.value.state.metadata ==> Claims(r.value.state.metadata[c.orderId]))
  {
    hide RuntimeInv, CoreInv, RunOrder, CoreOrder, Mappable, CoreSpec.Process, IsAccepted, Settled, Released, Claims, FlowsAt;
    RunOrderFlows(st, i, c);
  }
}
