/** What every input, and so every run, keeps true of the runtime. */
module RuntimeLaws {
  import opened Types
  import opened BookSpec
  import opened Queues
  import opened MatchLaws
  import opened BookLaws
  import opened CoreSpec
  import opened CoreLaws
  import opened Accounting
  import opened LedgerSpec
  import opened LedgerLaws
  import opened RuntimeSpec
  import opened StoreLaws
  import opened LiquidationLaws

  // ---------- Automatic liquidation ----------

  /** The position was open and at or below maintenance margin when its liquidation was attempted. */
  ghost predicate Deserved(a: Attempt, marketId: nat) {
    && a.key.marketId == marketId
    && a.key in a.at.positions && a.at.positions[a.key].signed != 0
    && a.key in a.at.risks && a.at.risks[a.key].status == Liquidatable
    && RiskAgrees(a.at.positions[a.key], a.at.risks[a.key])
    && a.at.risks[a.key].equity <= a.at.risks[a.key].maintenance
  }

  /** At most sixteen attempts, all deserved, no position twice. */
  ghost predicate FairAttempts(attempts: seq<Attempt>, marketId: nat) {
    && |attempts| <= MAX_ATTEMPTS
    && (forall i, j :: 0 <= i < j < |attempts| ==> attempts[i].key != attempts[j].key)
    && (forall i :: 0 <= i < |attempts| ==> Deserved(attempts[i], marketId))
  }

  ghost predicate Pending(st: State, cs: seq<Candidate>, marketId: nat, attempted: set<Key>) {
    && (forall i, j :: 0 <= i < j < |cs| ==> cs[i].key != cs[j].key)
    && (forall i :: 0 <= i < |cs| ==> cs[i].key in AutoKeys(st, marketId, attempted))
  }

  lemma ScanPending(st: State, marketId: nat, attempted: set<Key>)
    ensures var keys := AutoKeys(st, marketId, attempted);
            Pending(st, Ranked(AutoBefore, keys, st.positions, st.risks), marketId, attempted)
  {
    AutoOrder();
    hide StrictOrder, Ranked;
    var keys := AutoKeys(st, marketId, attempted);
    RankedLaw(AutoBefore, keys, st.positions, st.risks);
    RankedDistinct(AutoBefore, keys, st.positions, st.risks);
    var cs := Ranked(AutoBefore, keys, st.positions, st.risks);
    forall i | 0 <= i < |cs| ensures cs[i].key in keys { assert cs[i] in cs; }
  }

  lemma TriedFairly(st: State, cs: seq<Candidate>, marketId: nat, attempts: seq<Attempt>)
    requires RuntimeInv(st) && cs != [] && Pending(st, cs, marketId, Attempted(attempts))
    requires FairAttempts(attempts, marketId) && |attempts| < MAX_ATTEMPTS
    ensures FairAttempts(attempts + [Attempt(cs[0].key, st)], marketId)
  {
    hide StoreOk, ZeroSum;
    var k := cs[0].key;
    assert k in AutoKeys(st, marketId, Attempted(attempts));
    assert k in st.positions && RiskAgrees(st.positions[k], st.risks[k]);
    forall i | 0 <= i < |attempts| ensures attempts[i].key != k { assert attempts[i] in attempts; }
  }

  lemma PendingTail(st: State, st': State, cs: seq<Candidate>, marketId: nat, attempts: seq<Attempt>)
    requires cs != [] && Pending(st, cs, marketId, Attempted(attempts))
    requires st'.positions == st.positions && st'.risks == st.risks
    ensures Pending(st', cs[1..], marketId, Attempted(attempts + [Attempt(cs[0].key, st)]))
  {
    var tried := attempts + [Attempt(cs[0].key, st)];
    forall i | 0 <= i < |cs[1..]| ensures cs[1..][i].key in AutoKeys(st', marketId, Attempted(tried)) {
      var k := cs[i + 1].key;
      assert k in AutoKeys(st, marketId, Attempted(attempts)) && cs[0].key != k;
      forall a | a in tried ensures a.key != k { if a in attempts { assert a.key in Attempted(attempts); } }
    }
  }

  lemma {:induction false} ScanLaw(st: State, marketId: nat, ids: IdSource, attempts: seq<Attempt>)
    requires RuntimeInv(st) && FairAttempts(attempts, marketId)
    ensures var r := Scan(st, marketId, ids, attempts);
            RuntimeInv(r.state) && SameElsewhere(st, r.state) && FairAttempts(r.attempts, marketId)
    decreases MAX_ATTEMPTS - |attempts|, 1
  {
    hide RuntimeInv, FairAttempts, Pending, TryAll, Ranked, AutoKeys, CoreInv;
    InvCore(st);
    if |attempts| < MAX_ATTEMPTS {
      KeysListed(st, marketId, Attempted(attempts));
      ScanPending(st, marketId, Attempted(attempts));
      TryAllLaw(st, Ranked(AutoBefore, AutoKeys(st, marketId, Attempted(attempts)), st.positions, st.risks), marketId, ids,
                attempts);
    }
  }

  lemma KeysListed(st: State, marketId: nat, attempted: set<Key>)
    ensures var keys := AutoKeys(st, marketId, attempted); keys <= st.positions.Keys && keys <= st.risks.Keys
  {
  }

  lemma {:induction false} TryAllLaw(st: State, cs: seq<Candidate>, marketId: nat, ids: IdSource, attempts: seq<Attempt>)
    requires RuntimeInv(st) && FairAttempts(attempts, marketId) && Pending(st, cs, marketId, Attempted(attempts))
    ensures var r := TryAll(st, cs, marketId, ids, attempts);
            RuntimeInv(r.state) && SameElsewhere(st, r.state) && FairAttempts(r.attempts, marketId)
    decreases MAX_ATTEMPTS - |attempts|, 0
  {
    hide RuntimeInv, FairAttempts, Pending, Scan, Liquidate, CoreInv, AutoRequest;
    InvCore(st);
    if cs != [] && |attempts| < MAX_ATTEMPTS {
      var tried := attempts + [Attempt(cs[0].key, st)];
      var q := AutoRequest(cs[0], ids(cs[0].key, |tried|));
      TriedFairly(st, cs, marketId, attempts);
      LiquidateKeeps(st, q);
      var done := Liquidate(st, q);
      if done.outputs != [] {
        ScanLaw(done.state, marketId, ids, tried);
      } else {
        PendingTail(st, done.state, cs, marketId, attempts);
        TryAllLaw(done.state, cs[1..], marketId, ids, tried);
      }
    }
  }

  /**
    Automatic liquidation ends despite its rescans: at most sixteen attempts, none on the same position twice, each on a
    position at or below maintenance margin at that moment; and the invariant is kept.
   */
  lemma AutoLaw(st: State, marketId: nat, ids: IdSource)
    requires RuntimeInv(st)
    ensures var r := AutoLiquidate(st, marketId, ids);
            RuntimeInv(r.state) && SameElsewhere(st, r.state) && FairAttempts(r.attempts, marketId)
  {
    ScanLaw(st, marketId, ids, []);
  }

  // ---------- Placing ----------

  lemma PlaceStands(st: State, i: Input, c: PlaceOrderCommand)
    requires i.PlaceInput? && CoreOrder(st, i) == Some(c) && Mappable(c)
    ensures StandsFor(PlaceMetadata(i), c)
    ensures !i.reduceOnly ==> WholeOrder(PlaceMetadata(i), c)
    ensures i.reduceOnly ==> !CanRest(c) && c.quantity <= Abs(PositionAt(st.positions, KeyOf(PlaceMetadata(i))).signed)
                             && c.side == CloseSide(PositionAt(st.positions, KeyOf(PlaceMetadata(i))).signed)
                             && PositionAt(st.positions, KeyOf(PlaceMetadata(i))).signed != 0
  {
  }

  /** What an order's own fills do to the ledger, and how far they move its owner. */
  ghost predicate Placed(st: State, c: PlaceOrderCommand, key: Key, r: State) {
    && RuntimeInv(r) && SameElsewhere(st, r)
    && Moved(c.side, PositionAt(st.positions, key).signed, PositionAt(r.positions, key).signed,
             Taken(st.core, c) - OwnTaken(st.core, c))
  }

  lemma RefusedOrder(st: State, i: Input, c: PlaceOrderCommand)
    requires RuntimeInv(st) && i.PlaceInput? && Refusing(st.core, CoreStep(st.core, Place(c)))
    requires !IsAccepted(CoreStep(st.core, Place(c)).events)
    ensures RunOrder(st, i, c).Some? && Placed(st, c, KeyOf(PlaceMetadata(i)), RunOrder(st, i, c).value.state)
  {
    hide CoreSpec.Process, CoreInv, BookAll, Completed, StoreOk, Net, RisksOk, ZeroSum, IsAccepted, Acceptable;
    InvCore(st);
    InvStore(st);
    AcceptedIff(st.core, c);
    var l := LedgerOf(st, Some(PlaceMetadata(i)));
    RefusedBooks(st.core, CoreStep(st.core, Place(c)), l, st.marks, PlaceKind);
    var r := RunOrder(st, i, c).value.state;
    assert l.metadata - {} == l.metadata;
    Rebuilt(st, r);
  }

  lemma InvStore(st: State)
    requires RuntimeInv(st)
    ensures StoreOk(st.core, st.metadata)
  {
  }

  /** The ledger after an accepted order. */
  ghost function After(st: State, i: Input, c: PlaceOrderCommand): Ledger
    requires CoreInv(st.core) && i.PlaceInput?
  {
    BookAll(LedgerOf(st, Some(PlaceMetadata(i))), CoreStep(st.core, Place(c)).events, st.marks, PlaceKind).ledger
  }

  /** The facts about the ledger after an accepted order that the runtime builds on. */
  ghost predicate WellBooked(st: State, i: Input, c: PlaceOrderCommand, l': Ledger)
    requires i.PlaceInput?
  {
    && l'.pending.Some? && l'.metadata.Keys == st.metadata.Keys
    && RisksOk(l'.positions, l'.risks) && SameNets(st.positions, l'.positions)
    && Moved(c.side, PositionAt(st.positions, KeyOf(PlaceMetadata(i))).signed,
             PositionAt(l'.positions, KeyOf(PlaceMetadata(i))).signed, Taken(st.core, c) - OwnTaken(st.core, c))
  }

  lemma AcceptedLedger(st: State, i: Input, c: PlaceOrderCommand, stored: map<nat, Metadata>)
    requires RuntimeInv(st) && i.PlaceInput? && CoreInv(st.core) && StandsFor(PlaceMetadata(i), c)
    requires Accepting(st.core, c, CoreStep(st.core, Place(c)))
    requires var l' := After(st, i, c);
             l'.pending.Some? ==>
               if CanRest(c) then WholeOrder(PlaceMetadata(i), c) && stored == l'.metadata[c.orderId := l'.pending.value]
               else stored == l'.metadata
    ensures WellBooked(st, i, c, After(st, i, c))
    ensures var core := CoreStep(st.core, Place(c)); StoreOk(core.core, stored - Completed(core.events))
  {
    hide CoreSpec.Process, CoreInv, BookAll, Completed, MetadataOk, Covered, Net, RisksOk, ZeroSum, MatchOf, Accepting,
      Covers, StandsFor, WholeOrder, Standing, Taken, OwnTaken, Moved;
    var md := PlaceMetadata(i);
    var l := LedgerOf(st, Some(md));
    StandsStanding(md, c);
    PendingLedger(st, md);
    AcceptedBooked(st.core, c, l, st.marks, PlaceKind);
    BookedExactly(st.core, c, l, st.marks, PlaceKind);
    StoreKept(st.core, c, l, After(st, i, c), stored);
  }

  /** The store that running an order leaves, given the ledger its events lead to. */
  ghost function OrderStore(l: Ledger, orderId: nat, reduceOnly: bool, accepted: bool, gone: set<nat>): map<nat, Metadata> {
    if !accepted || l.pending.None? then l.metadata - gone
    else if !reduceOnly then l.metadata[orderId := l.pending.value] - gone
    else l.metadata[orderId := l.pending.value] - gone - {orderId}
  }

  /** What running an order reports after its fills. */
  ghost function OrderReport(i: Input, l: Ledger, orderId: nat, events: seq<EngineEvent>): seq<Output>
    requires i.PlaceInput?
  {
    var expired := i.order.quantity - FilledBy(events, orderId);
    if IsAccepted(events) && i.reduceOnly && l.pending.Some? && expired > 0
    then [OrderExpired(orderId, expired, l.pending.value.remainingReserved)] else []
  }

  /** Running an order, taken apart. */
  lemma OrderShape(st: State, i: Input, c: PlaceOrderCommand)
    requires CoreInv(st.core) && i.PlaceInput? && RunOrder(st, i, c).Some?
    ensures var core, r := CoreStep(st.core, Place(c)), RunOrder(st, i, c).value;
            var b := BookAll(LedgerOf(st, Some(PlaceMetadata(i))), core.events, st.marks, PlaceKind);
            && r.state == st.(core := core.core, metadata := r.state.metadata, positions := b.ledger.positions, risks := b.ledger.risks)
            && r.state.metadata == OrderStore(b.ledger, c.orderId, i.reduceOnly, IsAccepted(core.events), Completed(core.events))
            && r.outputs == b.outputs + OrderReport(i, b.ledger, c.orderId, core.events)
  {
    hide CoreSpec.Process, CoreInv, BookAll, Completed, IsAccepted, FilledBy;
    var b := BookAll(LedgerOf(st, Some(PlaceMetadata(i))), CoreStep(st.core, Place(c)).events, st.marks, PlaceKind);
    assert b.outputs + [] == b.outputs;
  }

  /** An accepted order's metadata is never in the way, and the store that is left fits the book. */
  lemma AcceptedStore(st: State, i: Input, c: PlaceOrderCommand)
    requires RuntimeInv(st) && i.PlaceInput? && CoreOrder(st, i) == Some(c) && Mappable(c) && CoreInv(st.core)
    requires Accepting(st.core, c, CoreStep(st.core, Place(c))) && IsAccepted(CoreStep(st.core, Place(c)).events)
    ensures WellBooked(st, i, c, After(st, i, c)) && c.orderId !in After(st, i, c).metadata
    ensures var l', core := After(st, i, c), CoreStep(st.core, Place(c));
            StoreOk(core.core, OrderStore(l', c.orderId, i.reduceOnly, true, Completed(core.events)))
  {
    hide CoreSpec.Process, CoreInv, BookAll, Completed, MetadataOk, Covered, Net, RisksOk, ZeroSum, IsAccepted, ProcessPlace,
      PlaceRejection, SaneQuantities, StandsFor, WholeOrder, Mappable, Taken, OwnTaken, Moved;
    PlaceStands(st, i, c);
    var l', core := After(st, i, c), CoreStep(st.core, Place(c));
    var own := if l'.pending.Some? then l'.metadata[c.orderId := l'.pending.value] else l'.metadata;
    AcceptedLedger(st, i, c, if CanRest(c) then own else l'.metadata);
    assert c.orderId !in l'.metadata;
    if !CanRest(c) && !i.reduceOnly {
      KeepOwn(st, i, c);
    }
    if i.reduceOnly { assert own - Completed(core.events) - {c.orderId} == l'.metadata - Completed(core.events); }
  }

  /** Everything is kept by an accepted order. */
  lemma AcceptedOrder(st: State, i: Input, c: PlaceOrderCommand)
    requires RuntimeInv(st) && i.PlaceInput? && CoreOrder(st, i) == Some(c) && Mappable(c) && CoreInv(st.core)
    requires Accepting(st.core, c, CoreStep(st.core, Place(c))) && IsAccepted(CoreStep(st.core, Place(c)).events)
    ensures RunOrder(st, i, c).Some? && Placed(st, c, KeyOf(PlaceMetadata(i)), RunOrder(st, i, c).value.state)
  {
    hide CoreSpec.Process, CoreInv, BookAll, Completed, StoreOk, Net, RisksOk, ZeroSum, IsAccepted, CoreOrder, Accepting, Mappable,
      FilledBy, Taken, OwnTaken, Moved, OrderStore;
    AcceptedStore(st, i, c);
    OrderShape(st, i, c);
    Rebuilt(st, RunOrder(st, i, c).value.state);
  }

  /** An order that cannot rest and is not reduce-only keeps its entry, which then belongs to no resting order. */
  lemma KeepOwn(st: State, i: Input, c: PlaceOrderCommand)
    requires RuntimeInv(st) && i.PlaceInput? && CoreOrder(st, i) == Some(c) && Mappable(c) && CoreInv(st.core)
    requires Accepting(st.core, c, CoreStep(st.core, Place(c))) && !CanRest(c) && !i.reduceOnly
    ensures var l', core := After(st, i, c), CoreStep(st.core, Place(c));
            l'.pending.Some? ==>
              StoreOk(core.core, l'.metadata[c.orderId := l'.pending.value] - Completed(core.events))
  {
    hide CoreSpec.Process, CoreInv, BookAll, Completed, MetadataOk, Covered, Net, RisksOk, ZeroSum, MatchOf, Accepting,
      Covers, WholeOrder, Standing, Mappable;
    PlaceStands(st, i, c);
    var md := PlaceMetadata(i);
    var l := LedgerOf(st, Some(md));
    StandsStanding(md, c);
    PendingLedger(st, md);
    AcceptedBooked(st.core, c, l, st.marks, PlaceKind);
    var l' := After(st, i, c);
    if l'.pending.Some? { StoreKept(st.core, c, l, l', l'.metadata[c.orderId := l'.pending.value]); }
  }

  /** Running an order keeps the invariant; its fills move its owner toward the order's side by exactly the lots of others. */
  lemma RunOrderLaw(st: State, i: Input, c: PlaceOrderCommand)
    requires RuntimeInv(st) && i.PlaceInput? && CoreOrder(st, i) == Some(c) && Mappable(c) && CoreInv(st.core)
    ensures RunOrder(st, i, c).Some? && Placed(st, c, KeyOf(PlaceMetadata(i)), RunOrder(st, i, c).value.state)
  {
    hide CoreSpec.Process, CoreInv, Accepting, Refusing, RuntimeInv, Placed, RunOrder, IsAccepted;
    PlaceCases(st.core, c);
    if Accepting(st.core, c, CoreStep(st.core, Place(c))) {
      AcceptedOrder(st, i, c);
    } else {
      RefusedOrder(st, i, c);
    }
  }

  /**
    A reduce-only order's own fills close exactly the lots it takes from others, so they never grow or flip its owner's
    position; they close all that was filled exactly if none of it was the owner's own.
   */
  lemma ReduceOnlyShrinks(st: State, i: Input, c: PlaceOrderCommand)
    requires RuntimeInv(st) && i.PlaceInput? && CoreOrder(st, i) == Some(c) && Mappable(c) && CoreInv(st.core)
    requires i.reduceOnly
    ensures RunOrder(st, i, c).Some?
    ensures var key := Key(i.order.userId, i.order.symbolId);
            var before, after := PositionAt(st.positions, key).signed, PositionAt(RunOrder(st, i, c).value.state.positions, key).signed;
            && Shrunk(before, after, i.order.quantity)
            && Abs(before) - Abs(after) == Taken(st.core, c) - OwnTaken(st.core, c)
            && (Abs(before) - Abs(after) == Taken(st.core, c) <==> OwnTaken(st.core, c) == 0)
            && FilledBy(CoreStep(st.core, Place(c)).events, c.orderId) == Taken(st.core, c)
  {
    hide CoreSpec.Process, CoreInv, RuntimeInv, RunOrder, FilledBy, Taken, OwnTaken;
    RunOrderLaw(st, i, c);
    PlaceStands(st, i, c);
    TakenWithin(st.core, c);
    FilledIsTaken(st.core, c);
  }

  // ---------- What an order's events say it filled ----------

  lemma {:induction false} FilledAppend(a: seq<EngineEvent>, b: seq<EngineEvent>, id: nat)
    ensures FilledBy(a + b, id) == FilledBy(a, id) + FilledBy(b, id)
  {
    if a == [] {
      assert a + b == b;
    } else {
      assert (a + b)[1..] == a[1..] + b;
      FilledAppend(a[1..], b, id);
    }
  }

  lemma {:induction false} NothingFilled(events: seq<EngineEvent>, id: nat)
    requires forall e <- events :: !e.TradeExecuted?
    ensures FilledBy(events, id) == 0
  {
    if events != [] {
      assert events[0] in events;
      NothingFilled(events[1..], id);
    }
  }

  lemma FrontFilled(symbolId: nat, maker: OrderSnapshot, taker: Taker, fill: nat, total: nat, s: SequenceState)
    requires fill <= maker.remaining <= maker.original && fill <= taker.remaining <= taker.original
    ensures FilledBy(FillEvents(symbolId, maker, taker, fill, total, s), taker.orderId) == fill
  {
    var e := FillEvents(symbolId, maker, taker, fill, total, s);
    NothingFilled(e[1..], taker.orderId);
  }

  lemma {:induction false} MatchFilled(symbolId: nat, side: Side, q: Queue, taker: Taker, s: SequenceState, last: Option<int>)
    requires SaneQuantities(q) && taker.remaining <= taker.original
    ensures var m := Match(symbolId, side, q, taker, s, last);
            FilledBy(m.events, taker.orderId) == taker.remaining - m.taker.remaining
    decreases |q| + taker.remaining
  {
    hide LevelLots, FillEvents, SaneQuantities, FilledBy;
    if Matchable(side, q, taker) {
      var q', taker', fill := FrontQueue(q, taker), FrontTaker(q, taker), FrontFill(q, taker);
      MatchUnfolds(symbolId, side, q, taker, s, last);
      var e := FillEvents(symbolId, q[0], taker, fill, LevelLots(q, q[0].price) - fill, s);
      FrontFilled(symbolId, q[0], taker, fill, LevelLots(q, q[0].price) - fill, s);
      MatchFilled(symbolId, side, q', taker', AfterFill(s), Some(q[0].price));
      FilledAppend(e, Match(symbolId, side, q', taker', AfterFill(s), Some(q[0].price)).events, taker.orderId);
    } else {
      NothingFilled([], taker.orderId);
    }
  }

  /** What an order's trades fill is what it takes. */
  lemma FilledIsTaken(core: Core, c: PlaceOrderCommand)
    requires CoreInv(core)
    ensures FilledBy(CoreStep(core, Place(c)).events, c.orderId) == Taken(core, c)
  {
    hide CoreSpec.Process, CoreInv, SaneQuantities, PlaceRejection, Match, Acceptable, Reachable, FilledBy, Insert, LevelLots;
    PlaceCases(core, c);
    AcceptedIff(core, c);
    var r := CoreStep(core, Place(c));
    if Accepting(core, c, r) {
      var book, opp := core.books[c.symbolId], c.side.Opposite();
      var m := MatchOf(book, core.sequences, c);
      LeftOver(core, c);
      MatchFilled(book.config.symbolId, opp, book.SideQueue(opp), Taker(c.orderId, MatchLimit(c), c.quantity, c.quantity),
                  NextEvent(core.sequences), book.lastTradePrice);
      var head, tail := [r.events[0]], r.events[1 + |m.events|..];
      assert r.events == head + (m.events + tail);
      NothingFilled(head, c.orderId);
      NothingFilled(tail, c.orderId);
      FilledAppend(head, m.events + tail, c.orderId);
      FilledAppend(m.events, tail, c.orderId);
    } else {
      NothingFilled(r.events, c.orderId);
    }
  }

  // ---------- Cancelling ----------

  /** The core cancelled a resting order. */
  ghost predicate Cancelling(core: Core, c: CancelOrderCommand, r: CoreResult, o: OrderSnapshot) {
    && c.symbolId in core.books && o in core.books[c.symbolId].SideQueue(o.side)
    && |r.events| == 2 && r.events[0].OrderCancelled? && r.events[0].orderId == o.orderId
    && r.events[0].releasedQuantity == o.remaining && r.events[1].OrderBookDelta?
    && r.core.idempotency.orderIds == core.idempotency.orderIds
    && r.core.books == core.books[c.symbolId := core.books[c.symbolId].WithSide(o.side,
                                                  RemoveId(core.books[c.symbolId].SideQueue(o.side), o.orderId))]
  }

  lemma CancelCases(core: Core, c: CancelOrderCommand)
    requires CoreInv(core)
    ensures var r := CoreStep(core, Cancel(c));
            Refusing(core, r) || exists o :: Cancelling(core, c, r, o)
  {
    hide CoreInv, RemoveId, LevelLots, RejectionIn, Summary, CancelTarget, FindId;
    CoreSane(core);
    var r := CoreStep(core, Cancel(c));
    if c.commandId !in core.idempotency.commands && c.symbolId in core.books {
      var book := core.books[c.symbolId];
      var id := CancelTarget(book, c);
      var found := FindId(book.bids + book.asks, id);
      if found.None? || found.value.userId != c.userId {
        assert core.books[c.symbolId := book] == core.books;
      } else {
        SideHolds(core, c.symbolId, found.value);
        assert Cancelling(core, c, r, found.value);
      }
    }
  }

  lemma SideHolds(core: Core, id: nat, o: OrderSnapshot)
    requires CoreInv(core) && id in core.books && o in core.books[id].bids + core.books[id].asks
    ensures o in core.books[id].SideQueue(o.side)
  {
    hide Sorted, Distinct, SaneQuantities, ValidSymbolPrice, Uncrossed, Remembered;
    assert BookOk(core.books[id], id, core.idempotency);
  }

  /** Removing an order that is no longer described leaves its queue covered. */
  lemma RemoveCovered(metadata: map<nat, Metadata>, q: Queue, id: nat, marketId: nat)
    requires Covers(metadata, q, marketId)
    ensures Covers(metadata - {id}, RemoveId(q, id), marketId)
  {
    hide Describes;
    forall o <- RemoveId(q, id) ensures o in q && o.orderId != id { RemoveMember(q, id, o); }
  }

  lemma SkipCovered(metadata: map<nat, Metadata>, q: Queue, id: nat, marketId: nat)
    requires Covers(metadata, q, marketId) && !HasId(q, id)
    ensures Covers(metadata - {id}, q, marketId)
  {
    hide Describes;
    forall o <- q ensures o.orderId != id {
      var i :| 0 <= i < |q| && q[i] == o;
    }
  }

  lemma CancelStore(core: Core, c: CancelOrderCommand, metadata: map<nat, Metadata>, o: OrderSnapshot)
    requires StoreOk(core, metadata) && Cancelling(core, c, CoreStep(core, Cancel(c)), o)
    ensures StoreOk(CoreStep(core, Cancel(c)).core, metadata - {o.orderId})
  {
    hide CoreSpec.Process, CoreInv, Covers, RemoveId, Standing, HasId, Describes;
    var r, m, id := CoreStep(core, Cancel(c)), c.symbolId, o.orderId;
    var book := core.books[m];
    forall k <- r.core.books
      ensures Covers(metadata - {id}, r.core.books[k].bids, k) && Covers(metadata - {id}, r.core.books[k].asks, k)
    {
      if k == m {
        RemoveCovered(metadata, book.SideQueue(o.side), id, m);
        SidesApart(core, m, o.side);
        SkipCovered(metadata, book.SideQueue(o.side.Opposite()), id, m);
      } else {
        MarketsApart(metadata, core.books[k].bids, k, book.SideQueue(o.side), m);
        MarketsApart(metadata, core.books[k].asks, k, book.SideQueue(o.side), m);
        SkipCovered(metadata, core.books[k].bids, id, k);
        SkipCovered(metadata, core.books[k].asks, id, k);
      }
    }
  }

  /** Cancelling keeps the invariant and announces the release of exactly the margin not yet taken. */
  lemma CancelLaw(st: State, c: CancelOrderCommand)
    requires RuntimeInv(st) && CoreInv(st.core)
    ensures var r := CancelOrder(st, c);
            && RuntimeInv(r.state) && SameElsewhere(st, r.state)
            && r.state.positions == st.positions && r.state.risks == st.risks
    ensures var core, r := CoreStep(st.core, Cancel(c)), CancelOrder(st, c);
            IsCancelled(core.events) ==>
              var id := core.events[0].orderId;
              && id in st.metadata && r.outputs == [CancelReleased(id, st.metadata[id].remainingReserved)]
              && r.state.metadata == st.metadata - {id}
  {
    hide CoreSpec.Process, CoreInv, Net, RisksOk, ZeroSum, Covered, MetadataOk, BookAll, Completed;
    CancelCases(st.core, c);
    var core, r := CoreStep(st.core, Cancel(c)), CancelOrder(st, c);
    var e := core.events;
    if Refusing(st.core, core) {
      RefusedBooks(st.core, core, LedgerOf(st, None), st.marks, CancelKind);
      assert st.metadata - {} == st.metadata;
    } else {
      var o :| Cancelling(st.core, c, core, o);
      CancelStore(st.core, c, st.metadata, o);
      Held(st, c.symbolId, o);
      CancelBooks(LedgerOf(st, None), e, st.marks);
    }
    Rebuilt(st, r.state);
  }

  lemma CancelBooks(l: Ledger, e: seq<EngineEvent>, marks: Marks)
    requires |e| == 2 && e[0].OrderCancelled? && e[1].OrderBookDelta?
    ensures var found, b := Find(l, e[0].orderId), BookAll(l, e, marks, CancelKind);
            b.ledger == l && b.outputs == [CancelReleased(e[0].orderId, if found.Some? then found.value.remainingReserved else 0)]
    ensures Completed(e) == {e[0].orderId}
  {
    assert e[1..] == [e[1]] && [e[1]][1..] == [];
    assert BookAll(l, [e[1]], marks, CancelKind) == Booked(l, []);
    assert Completed([e[1]]) == {};
  }

  lemma Held(st: State, m: nat, o: OrderSnapshot)
    requires RuntimeInv(st) && m in st.core.books && o in st.core.books[m].SideQueue(o.side)
    ensures o.orderId in st.metadata
  {
    hide CoreInv, RisksOk, ZeroSum, MetadataOk;
  }
}
