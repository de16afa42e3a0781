/** What booking trades keeps true: positions sum to zero, risks agree, metadata matches the books. */
module LedgerLaws {
  import opened Types
  import opened BookSpec
  import opened Queues
  import opened MatchLaws
  import opened Sums
  import opened Accounting
  import opened LedgerSpec

  // ---------- Net positions ----------

  ghost function Holdings(positions: map<Key, Position>, marketId: nat): map<Key, int> {
    map k | k in positions && k.marketId == marketId :: positions[k].signed
  }

  /** The sum of a market's signed positions. */
  ghost function Net(positions: map<Key, Position>, marketId: nat): int {
    Sum(Holdings(positions, marketId))
  }

  ghost predicate ZeroSum(positions: map<Key, Position>) {
    forall m: nat :: Net(positions, m) == 0
  }

  /** Changing one position moves its own market's net by the difference, and no other's. */
  lemma NetSet(positions: map<Key, Position>, key: Key, p: Position, m: nat)
    ensures Net(positions[key := p], m)
            == Net(positions, m) + if m == key.marketId then p.signed - PositionAt(positions, key).signed else 0
  {
    var f, f' := Holdings(positions, m), Holdings(positions[key := p], m);
    if m == key.marketId {
      assert f' == f[key := p.signed];
      SumSet(f, key, p.signed);
    } else {
      assert f' == f;
    }
  }

  // ---------- Risks agree with positions ----------

  ghost predicate RisksOk(positions: map<Key, Position>, risks: map<Key, Risk>) {
    positions.Keys == risks.Keys && forall k <- positions :: RiskAgrees(positions[k], risks[k])
  }

  lemma RiskOfAgrees(p: Position, mark: int, adjustment: int)
    ensures RiskAgrees(p, RiskOf(p, mark, adjustment)) && Adjustment(RiskOf(p, mark, adjustment)) == adjustment
  {
    hide MaintenanceMargin, MarginRatio, Unrealized;
  }

  lemma RisksSet(positions: map<Key, Position>, risks: map<Key, Risk>, key: Key, p: Position, mark: int)
    requires RisksOk(positions, risks)
    ensures RisksOk(positions[key := p], risks[key := RiskOf(p, mark, 0)])
  {
    RiskOfAgrees(p, mark, 0);
    hide RiskAgrees, RiskOf;
  }

  // ---------- Metadata ----------

  /** Metadata names an order: same owner, side, market and open quantity. */
  ghost predicate Names(md: Metadata, o: OrderSnapshot, marketId: nat) {
    && md.orderId == o.orderId && md.marketId == marketId && md.userId == o.userId && md.side == o.side
    && md.remaining == o.remaining && md.original == o.original
  }

  /** Metadata describes a resting order, which is never reduce-only. */
  ghost predicate Describes(md: Metadata, o: OrderSnapshot, marketId: nat) {
    Names(md, o, marketId) && !md.reduceOnly
  }

  ghost predicate Covers(metadata: map<nat, Metadata>, q: Queue, marketId: nat) {
    forall o <- q :: o.orderId in metadata && Describes(metadata[o.orderId], o, marketId)
  }

  /** A reservation that is there and not for a reduce-only order is in good standing. */
  ghost predicate Standing(md: Metadata) {
    md.reserved > 0 && !md.reduceOnly ==> GoodReservation(md)
  }

  ghost predicate MetadataOk(metadata: map<nat, Metadata>) {
    forall id <- metadata :: metadata[id].orderId == id && Standing(metadata[id])
  }

  ghost predicate LedgerOk(l: Ledger) {
    && RisksOk(l.positions, l.risks)
    && MetadataOk(l.metadata)
    && (l.pending.Some? ==> Standing(l.pending.value))
  }

  /** Everything about an order but what its fills have used up. */
  ghost predicate SameOrder(md: Metadata, md': Metadata) {
    md' == md.(remaining := md'.remaining, remainingReserved := md'.remainingReserved)
  }

  lemma AllocateKeeps(md: Metadata, fill: nat, price: int)
    requires Standing(md) && 0 < fill <= md.remaining
    ensures var md' := AllocateMargin(md, fill, price).1;
            Standing(md') && SameOrder(md, md') && md'.remaining == md.remaining - fill
  {
    if md.reserved > 0 && !md.reduceOnly { AllocateStep(md, fill, price); }
  }

  /** One side of a trade, against metadata that has the quantity open. */
  lemma SideBooked(l: Ledger, orderId: nat, fill: nat, price: int, marks: Marks)
    requires LedgerOk(l) && Find(l, orderId).Some? && 0 < fill <= Find(l, orderId).value.remaining
    ensures var md, l' := Find(l, orderId).value, BookSide(l, orderId, fill, price, marks).ledger;
            var key, signed := Key(md.userId, md.marketId), SignedFill(md.side, fill);
            && LedgerOk(l')
            && (forall m: nat :: Net(l'.positions, m) == Net(l.positions, m) + if m == md.marketId then signed else 0)
            && (forall k :: PositionAt(l'.positions, k).signed
                            == PositionAt(l.positions, k).signed + if k == key then signed else 0)
            && l' == Store(l, orderId, AllocateMargin(md, fill, price).1).(positions := l'.positions, risks := l'.risks)
  {
    hide RisksOk, Standing, Net, ApplyFill, RiskOf, AllocateMargin, RealizedPnl;
    var md := Find(l, orderId).value;
    var key, signed := Key(md.userId, md.marketId), SignedFill(md.side, fill);
    var (taken, md') := AllocateMargin(md, fill, price);
    var p := PositionAt(l.positions, key);
    var p' := ApplyFill(p, md.leverage, signed, price, taken);
    FillMoves(p, md.leverage, signed, price, taken);
    FoundStanding(l, orderId);
    AllocateKeeps(md, fill, price);
    RisksSet(l.positions, l.risks, key, p', MarkFor(marks, md.marketId, price));
    forall m: nat ensures Net(l.positions[key := p'], m) == Net(l.positions, m) + if m == md.marketId then signed else 0 {
      NetSet(l.positions, key, p', m);
    }
  }

  lemma FillMoves(p: Position, leverage: int, signed: int, price: int, margin: int)
    ensures ApplyFill(p, leverage, signed, price, margin).signed == p.signed + signed
  {
  }

  lemma FoundStanding(l: Ledger, orderId: nat)
    requires LedgerOk(l) && Find(l, orderId).Some?
    ensures Standing(Find(l, orderId).value)
    ensures Find(l, orderId).value.orderId == orderId
  {
    hide Standing, RisksOk;
  }

  // ---------- A trade ----------

  ghost function KeyOf(md: Metadata): Key {
    Key(md.userId, md.marketId)
  }

  ghost predicate SameNets(a: map<Key, Position>, b: map<Key, Position>) {
    forall m: nat :: Net(a, m) == Net(b, m)
  }

  /** One trade between a resting order and the pending order on the other side of the same market. */
  lemma TradeBooked(l: Ledger, o: OrderSnapshot, fill: nat, price: int, marketId: nat, marks: Marks, kind: CommandKind)
    requires LedgerOk(l) && l.pending.Some? && l.pending.value.orderId != o.orderId
    requires o.orderId in l.metadata && Names(l.metadata[o.orderId], o, marketId)
    requires l.pending.value.marketId == marketId && l.pending.value.side == o.side.Opposite()
    requires 0 < fill <= o.remaining && fill <= l.pending.value.remaining
    ensures var taker := l.pending.value;
            var l' := BookTrade(l, o.orderId, taker.orderId, fill, price, marks, kind).ledger;
            && LedgerOk(l') && SameNets(l.positions, l'.positions)
            && l'.metadata == l.metadata[o.orderId := AllocateMargin(l.metadata[o.orderId], fill, price).1]
            && SameOrder(l.metadata[o.orderId], l'.metadata[o.orderId])
            && Names(l'.metadata[o.orderId], o.(remaining := o.remaining - fill), marketId)
            && l'.pending.Some? && SameOrder(taker, l'.pending.value)
            && l'.pending.value.remaining == taker.remaining - fill
            && (forall k :: PositionAt(l'.positions, k).signed
                            == PositionAt(l.positions, k).signed
                               + (if k == KeyOf(l.metadata[o.orderId]) then SignedFill(o.side, fill) else 0)
                               + (if k == KeyOf(taker) then SignedFill(taker.side, fill) else 0))
  {
    hide RisksOk, Standing, Net, ApplyFill, RiskOf, AllocateMargin, RealizedPnl, MetadataOk;
    var md, taker := l.metadata[o.orderId], l.pending.value;
    SideBooked(l, o.orderId, fill, price, marks);
    FoundStanding(l, o.orderId);
    AllocateKeeps(md, fill, price);
    var l1 := BookSide(l, o.orderId, fill, price, marks).ledger;
    assert l1.pending == l.pending;
    SideBooked(l1, taker.orderId, fill, price, marks);
    FoundStanding(l1, taker.orderId);
    AllocateKeeps(taker, fill, price);
  }

  // ---------- A whole match ----------

  /** A position that moved in a side's direction, by exactly `lots`. */
  ghost predicate Moved(side: Side, before: int, after: int, lots: int) {
    after == before + SignedFill(side, lots)
  }

  /** Of the first `want` lots of a queue, those that a user owns. */
  function OwnLots(q: Queue, want: nat, user: nat): (own: nat)
    ensures own <= want
  {
    if q == [] || want == 0 then 0
    else
      var take: nat := Min(want, q[0].remaining);
      (if q[0].userId == user then take else 0) + OwnLots(q[1..], want - take, user)
  }

  /** What is taken from the front first, and then from what is left, is what is taken in one go. */
  lemma OwnLotsStep(q: Queue, fill: nat, more: nat, user: nat)
    requires q != [] && fill <= q[0].remaining && (fill < q[0].remaining ==> more == 0)
    ensures OwnLots(q, fill + more, user) == OwnLots(q, fill, user) + OwnLots(ConsumeFront(q, fill), more, user)
    ensures OwnLots(q, fill, user) == if q[0].userId == user then fill else 0
  {
  }

  /**
    How a ledger follows a match that takes the opposing queue from q to q' and fills `filled` lots of the pending
    order: nets and risks kept, the metadata of what still rests in step, the owner's position moved toward the order's
    side by exactly the filled lots that were not his own.
   */
  ghost predicate Follows(l: Ledger, l': Ledger, q: Queue, q': Queue, marketId: nat, filled: nat) {
    && l.pending.Some? && l'.pending.Some?
    && LedgerOk(l') && SameNets(l.positions, l'.positions)
    && Covers(l'.metadata, q', marketId)
    && l'.metadata.Keys == l.metadata.Keys
    && (forall id <- l.metadata :: !HasId(q, id) ==> l'.metadata[id] == l.metadata[id])
    && SameOrder(l.pending.value, l'.pending.value)
    && l'.pending.value.remaining == l.pending.value.remaining - filled
    && Moved(l.pending.value.side, PositionAt(l.positions, KeyOf(l.pending.value)).signed,
             PositionAt(l'.positions, KeyOf(l.pending.value)).signed, filled - OwnLots(q, filled, l.pending.value.userId))
  }

  lemma FollowsTwice(l: Ledger, l1: Ledger, l2: Ledger, q: Queue, q1: Queue, q2: Queue, marketId: nat, a: nat, b: nat)
    requires Follows(l, l1, q, q1, marketId, a) && Follows(l1, l2, q1, q2, marketId, b)
    requires forall id :: HasId(q1, id) ==> HasId(q, id)
    requires var user := l.pending.value.userId; OwnLots(q, a + b, user) == OwnLots(q, a, user) + OwnLots(q1, b, user)
    ensures Follows(l, l2, q, q2, marketId, a + b)
  {
    hide LedgerOk, Net, HasId, Covers, OwnLots;
  }

  /** The pending order is ready to trade against the queue. */
  ghost predicate Facing(l: Ledger, q: Queue, side: Side, marketId: nat, open: nat) {
    && LedgerOk(l) && l.pending.Some? && Covers(l.metadata, q, marketId) && UniqueIds(q)
    && (forall o <- q :: o.side == side) && !HasId(q, l.pending.value.orderId)
    && l.pending.value.marketId == marketId && l.pending.value.side == side.Opposite()
    && open <= l.pending.value.remaining
  }

  lemma ConsumedIds(q: Queue, fill: nat, id: nat)
    requires q != [] && fill <= q[0].remaining
    ensures HasId(ConsumeFront(q, fill), id) ==> HasId(q, id)
  {
    var c := ConsumeFront(q, fill);
    if HasId(c, id) {
      var i :| 0 <= i < |c| && c[i].orderId == id;
      assert q[if fill == q[0].remaining then i + 1 else i].orderId == id;
    }
  }

  /** One fill against the front of the queue. */
  lemma FrontBooked(l: Ledger, q: Queue, side: Side, marketId: nat, open: nat, fill: nat, marks: Marks, kind: CommandKind)
    requires Facing(l, q, side, marketId, open) && q != [] && 0 < fill <= q[0].remaining && fill <= open
    ensures var l' := BookTrade(l, q[0].orderId, l.pending.value.orderId, fill, q[0].price, marks, kind).ledger;
            Follows(l, l', q, ConsumeFront(q, fill), marketId, fill)
  {
    hide LedgerOk, Net, BookTrade, AllocateMargin, ConsumeFront, OwnLots;
    var o := q[0];
    assert o in q;
    assert o.orderId != l.pending.value.orderId;
    TradeBooked(l, o, fill, o.price, marketId, marks, kind);
    var l' := BookTrade(l, o.orderId, l.pending.value.orderId, fill, o.price, marks, kind).ledger;
    FrontCovered(l.metadata, l'.metadata, q, fill, marketId);
    OwnLotsStep(q, fill, 0, l.pending.value.userId);
    forall id <- l.metadata | !HasId(q, id) ensures l'.metadata[id] == l.metadata[id] { assert id != o.orderId; }
  }

  /** What is left of the order faces what is left of the queue. */
  lemma FrontFacing(l: Ledger, l': Ledger, q: Queue, side: Side, marketId: nat, open: nat, fill: nat)
    requires Facing(l, q, side, marketId, open) && q != [] && 0 < fill <= q[0].remaining && fill <= open
    requires Follows(l, l', q, ConsumeFront(q, fill), marketId, fill)
    ensures Facing(l', ConsumeFront(q, fill), side, marketId, open - fill)
  {
    hide LedgerOk, Net, HasId, Covers;
    ConsumedUnique(q, fill);
    ConsumedIds(q, fill, l.pending.value.orderId);
    assert forall o <- ConsumeFront(q, fill) :: o.side == side by { hide UniqueIds; }
  }

  lemma FrontCovered(metadata: map<nat, Metadata>, metadata': map<nat, Metadata>, q: Queue, fill: nat, marketId: nat)
    requires Covers(metadata, q, marketId) && UniqueIds(q) && q != [] && fill <= q[0].remaining
    requires q[0].orderId in metadata' && metadata' == metadata[q[0].orderId := metadata'[q[0].orderId]]
    requires Describes(metadata'[q[0].orderId], q[0].(remaining := q[0].remaining - fill), marketId)
    ensures Covers(metadata', ConsumeFront(q, fill), marketId)
  {
    var c := ConsumeFront(q, fill);
    var k := if fill == q[0].remaining then 1 else 0;
    forall i | 0 <= i < |c| ensures c[i].orderId in metadata' && Describes(metadata'[c[i].orderId], c[i], marketId) {
      if i + k > 0 { assert c[i] == q[i + k] && q[i + k] in q && q[0].orderId != q[i + k].orderId; }
    }
  }

  lemma ConsumedUnique(q: Queue, fill: nat)
    requires UniqueIds(q) && q != [] && fill <= q[0].remaining
    ensures UniqueIds(ConsumeFront(q, fill))
  {
    var c := ConsumeFront(q, fill);
    if fill < q[0].remaining { assert forall i :: 0 <= i < |c| ==> c[i].orderId == q[i].orderId; }
  }

  /** Booking two event lists one after the other. */
  lemma {:induction false} BookAppend(l: Ledger, a: seq<EngineEvent>, b: seq<EngineEvent>, marks: Marks, kind: CommandKind)
    ensures var first := BookAll(l, a, marks, kind);
            var rest := BookAll(first.ledger, b, marks, kind);
            BookAll(l, a + b, marks, kind) == Booked(rest.ledger, first.outputs + rest.outputs)
    decreases |a|
  {
    hide BookEvent;
    if a == [] {
      assert a + b == b;
      assert [] + BookAll(l, b, marks, kind).outputs == BookAll(l, b, marks, kind).outputs;
    } else {
      assert (a + b)[1..] == a[1..] + b;
      BookAppend(BookEvent(l, a[0], marks, kind).ledger, a[1..], b, marks, kind);
    }
  }

  lemma BookQuietly(l: Ledger, e: EngineEvent, more: seq<EngineEvent>, marks: Marks, kind: CommandKind)
    requires e.OrderFilled? || e.OrderPartial? || e.OrderBookDelta? || e.OrderAccepted?
    ensures BookAll(l, [e] + more, marks, kind) == BookAll(l, more, marks, kind)
  {
    hide BookTrade;
    assert ([e] + more)[1..] == more;
    assert [] + BookAll(l, more, marks, kind).outputs == BookAll(l, more, marks, kind).outputs;
  }

  lemma NoBooking(l: Ledger, marks: Marks, kind: CommandKind)
    ensures BookAll(l, [], marks, kind) == Booked(l, [])
  {
  }

  lemma BookFill(l: Ledger, symbolId: nat, maker: OrderSnapshot, taker: Taker, fill: nat, total: nat, s: SequenceState,
                 marks: Marks, kind: CommandKind)
    requires fill <= maker.remaining <= maker.original && fill <= taker.remaining <= taker.original
    ensures BookAll(l, FillEvents(symbolId, maker, taker, fill, total, s), marks, kind)
            == BookTrade(l, maker.orderId, taker.orderId, fill, maker.price, marks, kind)
  {
    hide BookTrade;
    var e := FillEvents(symbolId, maker, taker, fill, total, s);
    var b := BookTrade(l, maker.orderId, taker.orderId, fill, maker.price, marks, kind);
    assert e[1..] == [e[1]] + ([e[2]] + ([e[3]] + []));
    BookQuietly(b.ledger, e[1], [e[2]] + ([e[3]] + []), marks, kind);
    BookQuietly(b.ledger, e[2], [e[3]] + [], marks, kind);
    BookQuietly(b.ledger, e[3], [], marks, kind);
    NoBooking(b.ledger, marks, kind);
    assert b.outputs + [] == b.outputs;
  }

  // ---------- One fill of a match, and the rest of it ----------

  ghost function BookFront(l: Ledger, q: Queue, taker: Taker, marks: Marks, kind: CommandKind): Booked
    requires q != []
  {
    BookTrade(l, q[0].orderId, taker.orderId, FrontFill(q, taker), q[0].price, marks, kind)
  }

  lemma BookUnfolds(l: Ledger, symbolId: nat, side: Side, q: Queue, taker: Taker, s: SequenceState, last: Option<int>,
                    marks: Marks, kind: CommandKind)
    requires SaneQuantities(q) && taker.remaining <= taker.original && Matchable(side, q, taker)
    ensures var q', taker' := FrontQueue(q, taker), FrontTaker(q, taker);
            && SaneQuantities(q') && taker'.remaining <= taker'.original
            && var first := BookFront(l, q, taker, marks, kind);
               var rest := BookAll(first.ledger, Match(symbolId, side, q', taker', AfterFill(s), Some(q[0].price)).events, marks, kind);
               BookAll(l, Match(symbolId, side, q, taker, s, last).events, marks, kind)
               == Booked(rest.ledger, first.outputs + rest.outputs)
  {
    hide LevelLots, FillEvents, SaneQuantities, BookTrade, BookAll, Match;
    MatchUnfolds(symbolId, side, q, taker, s, last);
    var q', taker', fill := FrontQueue(q, taker), FrontTaker(q, taker), FrontFill(q, taker);
    var e := FillEvents(symbolId, q[0], taker, fill, LevelLots(q, q[0].price) - fill, s);
    BookFill(l, symbolId, q[0], taker, fill, LevelLots(q, q[0].price) - fill, s, marks, kind);
    BookAppend(l, e, Match(symbolId, side, q', taker', AfterFill(s), Some(q[0].price)).events, marks, kind);
  }

  /** The ledger follows the first fill, and what is left of the order faces what is left of the queue. */
  lemma FrontFollows(l: Ledger, symbolId: nat, side: Side, q: Queue, taker: Taker, marks: Marks, kind: CommandKind)
    requires SaneQuantities(q) && taker.remaining <= taker.original && Matchable(side, q, taker)
    requires Facing(l, q, side, symbolId, taker.remaining) && l.pending.value.orderId == taker.orderId
    ensures var q', taker', l' := FrontQueue(q, taker), FrontTaker(q, taker), BookFront(l, q, taker, marks, kind).ledger;
            && Follows(l, l', q, q', symbolId, FrontFill(q, taker))
            && Facing(l', q', side, symbolId, taker'.remaining) && l'.pending.value.orderId == taker.orderId
            && forall id :: HasId(q', id) ==> HasId(q, id)
  {
    hide BookTrade, Follows, Facing, SaneQuantities, HasId;
    SaneFront(q);
    var fill := FrontFill(q, taker);
    var q', taker', l' := FrontQueue(q, taker), FrontTaker(q, taker), BookFront(l, q, taker, marks, kind).ledger;
    FacingPending(l, q, side, symbolId, taker.remaining);
    FrontBooked(l, q, side, symbolId, taker.remaining, fill, marks, kind);
    FrontFacing(l, l', q, side, symbolId, taker.remaining, fill);
    SameTaker(l, l', q, q', symbolId, fill);
    forall id ensures HasId(q', id) ==> HasId(q, id) { ConsumedIds(q, fill, id); }
  }

  /** The ledger follows every match. */
  lemma {:induction false} MatchBooked(l: Ledger, symbolId: nat, side: Side, q: Queue, taker: Taker, s: SequenceState,
                                       last: Option<int>, marks: Marks, kind: CommandKind)
    requires SaneQuantities(q) && taker.remaining <= taker.original
    requires Facing(l, q, side, symbolId, taker.remaining) && l.pending.value.orderId == taker.orderId
    ensures var m := Match(symbolId, side, q, taker, s, last);
            && m.taker.remaining <= taker.remaining
            && Follows(l, BookAll(l, m.events, marks, kind).ledger, q, m.queue, symbolId,
                       taker.remaining - m.taker.remaining)
    decreases |q| + taker.remaining
  {
    hide LevelLots, FillEvents, BookFront, Follows, Facing, SaneQuantities, OwnLots, HasId, BookAll;
    if Matchable(side, q, taker) {
      var q', taker', fill, l' := FrontQueue(q, taker), FrontTaker(q, taker), FrontFill(q, taker), BookFront(l, q, taker, marks, kind).ledger;
      MatchUnfolds(symbolId, side, q, taker, s, last);
      BookUnfolds(l, symbolId, side, q, taker, s, last, marks, kind);
      FrontFollows(l, symbolId, side, q, taker, marks, kind);
      FacingPending(l, q, side, symbolId, taker.remaining);
      FacingPending(l', q', side, symbolId, taker'.remaining);
      MatchBooked(l', symbolId, side, q', taker', AfterFill(s), Some(q[0].price), marks, kind);
      var rest := Match(symbolId, side, q', taker', AfterFill(s), Some(q[0].price));
      var more := taker'.remaining - rest.taker.remaining;
      OwnLotsStep(q, fill, more, l.pending.value.userId);
      FollowsTwice(l, l', BookAll(l', rest.events, marks, kind).ledger, q, q', rest.queue, symbolId, fill, more);
    } else {
      NoBooking(l, marks, kind);
      FollowsNothing(l, q, side, symbolId, taker.remaining);
    }
  }

  lemma FacingPending(l: Ledger, q: Queue, side: Side, marketId: nat, open: nat)
    requires Facing(l, q, side, marketId, open)
    ensures l.pending.Some? && LedgerOk(l)
  {
    hide LedgerOk;
  }

  lemma SameTaker(l: Ledger, l': Ledger, q: Queue, q': Queue, marketId: nat, filled: nat)
    requires Follows(l, l', q, q', marketId, filled)
    ensures l.pending.Some? && l'.pending.Some? && l.pending.value.orderId == l'.pending.value.orderId
  {
    hide LedgerOk, Net, Covers;
  }

  lemma FollowsNothing(l: Ledger, q: Queue, side: Side, marketId: nat, open: nat)
    requires Facing(l, q, side, marketId, open)
    ensures Follows(l, l, q, q, marketId, 0)
  {
    hide LedgerOk, Net, Covers;
  }
}
