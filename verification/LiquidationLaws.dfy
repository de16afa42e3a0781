/** Liquidation and deleveraging: what they close, whom they touch, and in which order. */
module LiquidationLaws {
  import opened Types
  import opened BookSpec
  import opened MatchLaws
  import opened CoreSpec
  import opened CoreLaws
  import opened Accounting
  import opened LedgerSpec
  import opened LedgerLaws
  import opened RuntimeSpec
  import opened StoreLaws

  // ---------- A deleveraging fill ----------

  /** One deleveraging fill moves the counterparty and the liquidated owner, and leaves the store as it was. */
  lemma AdlFilled(l: Ledger, c: Candidate, fill: nat, price: int, marks: Marks)
    requires LedgerOk(l) && l.pending.Some? && 0 < fill <= l.pending.value.remaining
    requires l.pending.value.marketId == c.key.marketId && l.pending.value.side == CloseSide(c.position.signed).Opposite()
    requires c.key != KeyOf(l.pending.value)
    ensures var l' := AdlFill(l, c, fill, price, marks).ledger;
            && LedgerOk(l') && SameNets(l.positions, l'.positions) && l'.metadata == l.metadata
            && l'.pending.Some? && SameOrder(l.pending.value, l'.pending.value)
            && l'.pending.value.remaining == l.pending.value.remaining - fill
            && (forall k :: PositionAt(l'.positions, k).signed
                            == PositionAt(l.positions, k).signed
                               + if k == c.key then SignedFill(CloseSide(c.position.signed), fill)
                                 else if k == KeyOf(l.pending.value) then SignedFill(l.pending.value.side, fill)
                                 else 0)
  {
    hide RisksOk, Standing, Net, BookTrade, AllocateMargin, FreeId;
    var taker := l.pending.value;
    var id := FreeId(1, l.metadata.Keys + {taker.orderId});
    var side := CloseSide(c.position.signed);
    var md := Metadata(id, c.key.marketId, c.key.userId, side, fill, fill, true, 0, 0, c.position.leverage);
    var o := OrderSnapshot(id, 0, c.key.userId, c.key.marketId, side, price, fill, fill, 0);
    var l1 := l.(metadata := l.metadata[id := md]);
    NoReservation(md);
    TradeBooked(l1, o, fill, price, c.key.marketId, marks, AdlKind);
    var l2 := BookTrade(l1, id, taker.orderId, fill, price, marks, AdlKind).ledger;
    assert l2.metadata - {id} == l.metadata;
  }

  lemma NoReservation(md: Metadata)
    requires md.reserved == 0
    ensures Standing(md)
  {
  }

  // ---------- The deleveraging walk ----------

  /** What the walk takes from the i-th candidate: all of it, unless the candidates before it left less to close. */
  function AdlShare(cs: seq<Candidate>, i: nat, remaining: nat): nat
    requires i < |cs|
  {
    Min(Abs(cs[i].position.signed), Max(0, remaining - AvailableLots(cs[..i])))
  }

  /** Distinct opposing candidates of the pending order's market, standing as the scan found them. */
  ghost predicate Lined(l: Ledger, cs: seq<Candidate>) {
    && l.pending.Some?
    && (forall i, j :: 0 <= i < j < |cs| ==> cs[i].key != cs[j].key)
    && (forall i :: 0 <= i < |cs| ==> Opposes(l, cs[i]))
  }

  ghost predicate Opposes(l: Ledger, c: Candidate)
    requires l.pending.Some?
  {
    && c.key != KeyOf(l.pending.value) && c.key.marketId == l.pending.value.marketId
    && c.position.signed != 0 && l.pending.value.side == CloseSide(c.position.signed).Opposite()
    && PositionAt(l.positions, c.key).signed == c.position.signed
  }

  /** Exactly what the walk does to positions. */
  ghost predicate Walked(l: Ledger, l': Ledger, cs: seq<Candidate>, remaining: nat)
    requires l.pending.Some?
  {
    var key, total := KeyOf(l.pending.value), Min(remaining, AvailableLots(cs));
    && PositionAt(l'.positions, key).signed == PositionAt(l.positions, key).signed + SignedFill(l.pending.value.side, total)
    && (forall i :: 0 <= i < |cs| ==>
          PositionAt(l'.positions, cs[i].key).signed
          == cs[i].position.signed + SignedFill(CloseSide(cs[i].position.signed), AdlShare(cs, i, remaining)))
    && (forall k :: k != key && (forall i :: 0 <= i < |cs| ==> cs[i].key != k) ==>
          PositionAt(l'.positions, k).signed == PositionAt(l.positions, k).signed)
  }

  lemma ShareTail(cs: seq<Candidate>, i: nat, remaining: nat)
    requires 0 < i < |cs|
    ensures var fill: nat := Min(remaining, Abs(cs[0].position.signed));
            AdlShare(cs, i, remaining) == AdlShare(cs[1..], i - 1, remaining - fill)
  {
    assert cs[..i][1..] == cs[1..][..i - 1] && cs[..i][0] == cs[0];
  }

  lemma LinedTail(l: Ledger, l': Ledger, cs: seq<Candidate>, fill: nat)
    requires Lined(l, cs) && cs != [] && l'.pending.Some? && SameOrder(l.pending.value, l'.pending.value)
    requires forall k :: k != cs[0].key && k != KeyOf(l.pending.value) ==>
               PositionAt(l'.positions, k).signed == PositionAt(l.positions, k).signed
    ensures Lined(l', cs[1..])
  {
    forall i | 0 <= i < |cs[1..]| ensures Opposes(l', cs[1..][i]) {
      assert Opposes(l, cs[i + 1]) && cs[0].key != cs[i + 1].key;
    }
  }

  lemma AvailableTail(cs: seq<Candidate>, remaining: nat)
    requires cs != []
    ensures var fill: nat := Min(remaining, Abs(cs[0].position.signed));
            fill + Min(remaining - fill, AvailableLots(cs[1..])) == Min(remaining, AvailableLots(cs))
  {
  }

  lemma WalkedStep(l: Ledger, l1: Ledger, l2: Ledger, cs: seq<Candidate>, remaining: nat, fill: nat)
    requires Lined(l, cs) && cs != [] && fill == Min(remaining, Abs(cs[0].position.signed))
    requires l1.pending.Some? && SameOrder(l.pending.value, l1.pending.value)
    requires forall k :: PositionAt(l1.positions, k).signed
                         == PositionAt(l.positions, k).signed
                            + if k == cs[0].key then SignedFill(CloseSide(cs[0].position.signed), fill)
                              else if k == KeyOf(l.pending.value) then SignedFill(l.pending.value.side, fill)
                              else 0
    requires Walked(l1, l2, cs[1..], remaining - fill)
    ensures Walked(l, l2, cs, remaining)
  {
    hide AdlShare, AvailableLots;
    AvailableTail(cs, remaining);
    var rest := cs[1..];
    FirstShare(cs, remaining);
    forall i | 0 <= i < |cs|
      ensures PositionAt(l2.positions, cs[i].key).signed
              == cs[i].position.signed + SignedFill(CloseSide(cs[i].position.signed), AdlShare(cs, i, remaining))
    {
      assert Opposes(l, cs[i]);
      if i > 0 {
        ShareTail(cs, i, remaining);
        assert rest[i - 1] == cs[i];
      } else {
        assert forall j :: 0 <= j < |rest| ==> rest[j].key != cs[0].key;
      }
    }
    forall k | k != KeyOf(l.pending.value) && (forall i :: 0 <= i < |cs| ==> cs[i].key != k)
      ensures PositionAt(l2.positions, k).signed == PositionAt(l.positions, k).signed
    {
      assert forall j :: 0 <= j < |rest| ==> rest[j] == cs[j + 1];
      assert cs[0].key != k;
    }
  }

  lemma FirstShare(cs: seq<Candidate>, remaining: nat)
    requires cs != []
    ensures AdlShare(cs, 0, remaining) == Min(remaining, Abs(cs[0].position.signed))
  {
    assert cs[..0] == [];
  }

  /**
    The walk exhausts each ranked candidate before the next and closes the smaller of what is left open and what the
    candidates hold; nobody else's position changes, nor does the store.
   */
  lemma {:induction false} AdlWalk(l: Ledger, cs: seq<Candidate>, remaining: nat, price: int, marks: Marks)
    requires LedgerOk(l) && Lined(l, cs) && remaining <= l.pending.value.remaining
    ensures var l' := AdlFills(l, cs, remaining, price, marks).ledger;
            && LedgerOk(l') && SameNets(l.positions, l'.positions) && l'.metadata == l.metadata
            && Walked(l, l', cs, remaining)
    decreases |cs|
  {
    hide LedgerOk, AdlFill, Net, AdlShare, AvailableLots;
    if cs == [] || remaining == 0 {
      WalkedNowhere(l, cs, remaining);
    } else {
      var fill: nat := Min(remaining, Abs(cs[0].position.signed));
      assert Opposes(l, cs[0]);
      AdlFilled(l, cs[0], fill, price, marks);
      var l1 := AdlFill(l, cs[0], fill, price, marks).ledger;
      LinedTail(l, l1, cs, fill);
      AdlWalk(l1, cs[1..], remaining - fill, price, marks);
      WalkedStep(l, l1, AdlFills(l1, cs[1..], remaining - fill, price, marks).ledger, cs, remaining, fill);
    }
  }

  lemma WalkedNowhere(l: Ledger, cs: seq<Candidate>, remaining: nat)
    requires Lined(l, cs) && (cs == [] || remaining == 0)
    ensures Walked(l, l, cs, remaining)
  {
    forall i | 0 <= i < |cs|
      ensures PositionAt(l.positions, cs[i].key).signed
              == cs[i].position.signed + SignedFill(CloseSide(cs[i].position.signed), AdlShare(cs, i, remaining))
    {
      assert Opposes(l, cs[i]);
    }
  }

  // ---------- Rankings ----------

  /** A strict order that decides between any two users. */
  ghost predicate StrictOrder(before: Order) {
    && (forall a: Candidate, b: Candidate, c: Candidate :: before(a, b) && before(b, c) ==> before(a, c))
    && (forall a: Candidate, b: Candidate :: before(a, b) ==> !before(b, a))
    && (forall a: Candidate, b: Candidate :: a.key.userId != b.key.userId ==> before(a, b) || before(b, a))
  }

  lemma AdlOrder()
    ensures StrictOrder(AdlBefore)
  {
    hide Abs;
  }

  lemma AutoOrder()
    ensures StrictOrder(AutoBefore)
  {
    hide Notional;
  }

  lemma {:induction false} InsertRankedMember(before: Order, cs: seq<Candidate>, c: Candidate, x: Candidate)
    ensures x in InsertRanked(before, cs, c) <==> x in cs || x == c
  {
    if cs != [] && !before(c, cs[0]) {
      InsertRankedMember(before, cs[1..], c, x);
      assert cs == [cs[0]] + cs[1..];
    }
  }

  ghost predicate InOrder(before: Order, cs: seq<Candidate>) {
    forall i, j :: 0 <= i < j < |cs| ==> before(cs[i], cs[j])
  }

  lemma {:induction false} InsertRankedOrder(before: Order, cs: seq<Candidate>, c: Candidate)
    requires StrictOrder(before) && InOrder(before, cs) && forall x <- cs :: x.key.userId != c.key.userId
    ensures InOrder(before, InsertRanked(before, cs, c))
  {
    if cs != [] && !before(c, cs[0]) {
      InsertRankedOrder(before, cs[1..], c);
      var r := InsertRanked(before, cs[1..], c);
      forall j | 0 <= j < |r| ensures before(cs[0], r[j]) {
        InsertRankedMember(before, cs[1..], c, r[j]);
        assert cs[0] in cs;
      }
    }
  }

  ghost predicate OneMarket(keys: set<Key>) {
    forall a <- keys, b <- keys :: a.marketId == b.marketId
  }

  /** A ranking lists each key once, with its position and risk, best first. */
  lemma {:induction false} RankedLaw(before: Order, keys: set<Key>, positions: map<Key, Position>, risks: map<Key, Risk>)
    requires keys <= positions.Keys && keys <= risks.Keys && StrictOrder(before) && OneMarket(keys)
    ensures var cs := Ranked(before, keys, positions, risks);
            && InOrder(before, cs)
            && (forall c :: c in cs <==> c.key in keys && c == Candidate(c.key, positions[c.key], risks[c.key]))
    decreases keys
  {
    hide StrictOrder, InOrder;
    if keys == {} {
      EmptyRanking(before);
    } else {
      var k := PickKey(keys);
      RankedLaw(before, keys - {k}, positions, risks);
      var rest, c := Ranked(before, keys - {k}, positions, risks), Candidate(k, positions[k], risks[k]);
      assert forall x <- rest :: x.key.userId != c.key.userId;
      InsertRankedOrder(before, rest, c);
      forall x ensures x in InsertRanked(before, rest, c) <==> x in rest || x == c { InsertRankedMember(before, rest, c, x); }
    }
  }

  lemma EmptyRanking(before: Order)
    ensures InOrder(before, [])
  {
  }

  /** Hence no key stands twice. */
  lemma RankedDistinct(before: Order, keys: set<Key>, positions: map<Key, Position>, risks: map<Key, Risk>)
    requires keys <= positions.Keys && keys <= risks.Keys && StrictOrder(before) && OneMarket(keys)
    ensures var cs := Ranked(before, keys, positions, risks);
            forall i, j :: 0 <= i < j < |cs| ==> cs[i].key != cs[j].key
  {
    RankedLaw(before, keys, positions, risks);
    var cs := Ranked(before, keys, positions, risks);
    forall i, j | 0 <= i < j < |cs| ensures cs[i].key != cs[j].key {
      assert before(cs[i], cs[j]);
      assert cs[i] in cs && cs[j] in cs;
    }
  }

  /** The candidates for deleveraging a position are lined up against its closing order. */
  lemma CandidatesLined(l: Ledger, key: Key, signed: int)
    requires l.pending.Some? && KeyOf(l.pending.value) == key && signed == PositionAt(l.positions, key).signed
    requires signed != 0 && l.pending.value.side == CloseSide(signed)
    ensures Lined(l, AdlCandidates(key, signed, l.positions, l.risks))
  {
    AdlOrder();
    hide StrictOrder, Ranked;
    var keys := AdlKeys(key, signed, l.positions, l.risks);
    RankedLaw(AdlBefore, keys, l.positions, l.risks);
    RankedDistinct(AdlBefore, keys, l.positions, l.risks);
    var cs := AdlCandidates(key, signed, l.positions, l.risks);
    forall i | 0 <= i < |cs| ensures Opposes(l, cs[i]) {
      assert cs[i] in cs;
      assert cs[i].key in keys;
    }
  }

  // ---------- Liquidation ----------

  /** A position that only shrank, and by at most `lots`. */
  ghost predicate Shrunk(before: int, after: int, lots: int) {
    && (0 <= after <= before || before <= after <= 0)
    && Abs(before) - Abs(after) <= lots
  }

  lemma ShrunkTwice(a: int, b: int, c: int, m: int, n: int)
    requires Shrunk(a, b, m) && Shrunk(b, c, n)
    ensures Shrunk(a, c, m + n)
  {
  }

  /** Closing lots of a position, no more than it holds. */
  lemma ClosedShrinks(signed: int, lots: nat)
    requires lots <= Abs(signed)
    ensures Shrunk(signed, signed + SignedFill(CloseSide(signed), lots), lots)
  {
  }

  /** What the ranked counterparties can take of a position, in the ledger's state. */
  ghost function Offered(l: Ledger, key: Key): nat {
    AvailableLots(AdlCandidates(key, PositionAt(l.positions, key).signed, l.positions, l.risks))
  }

  /** Deleveraging keeps nets, risks and store, and closes exactly the smaller of what is open and what is offered. */
  lemma Deleveraged(st: State, l: Ledger, q: Liquidation, price: int, before: seq<Output>)
    requires LedgerOk(l) && l.pending.Some? && KeyOf(l.pending.value) == q.key && l.pending.value.remaining >= 0
    requires var signed := PositionAt(l.positions, q.key).signed;
             signed != 0 ==> l.pending.value.side == CloseSide(signed)
    ensures var r := Deleverage(st, l, q, price, before).state;
            && r == st.(metadata := l.metadata, positions := r.positions, risks := r.risks)
            && SameNets(l.positions, r.positions) && RisksOk(r.positions, r.risks)
            && var signed, open := PositionAt(l.positions, q.key).signed, l.pending.value.remaining;
               Moved(CloseSide(signed), signed, PositionAt(r.positions, q.key).signed,
                     Min(Min(open, Abs(signed)), Offered(l, q.key)))
  {
    hide MetadataOk, Standing, Net, AdlFills, AdlCandidates, AvailableLots, Lined, RisksOk;
    var signed := PositionAt(l.positions, q.key).signed;
    if q.key in l.positions && Min(l.pending.value.remaining, Abs(signed)) > 0 {
      var open: nat := Min(l.pending.value.remaining, Abs(signed));
      var cs := AdlCandidates(q.key, signed, l.positions, l.risks);
      CandidatesLined(l, q.key, signed);
      AdlWalk(l, cs, open, price, st.marks);
    }
  }

  lemma PendingLedger(st: State, md: Metadata)
    requires RuntimeInv(st) && Standing(md)
    ensures LedgerOk(LedgerOf(st, Some(md)))
  {
    hide Standing, CoreInv, Covered, ZeroSum;
  }

  lemma LiquidationStands(q: Liquidation, p: Position, price: int)
    requires p.signed != 0
    ensures StandsFor(LiquidationMetadata(q, p), LiquidationOrder(q, p.signed, price))
    ensures !CanRest(LiquidationOrder(q, p.signed, price))
    ensures KeyOf(LiquidationMetadata(q, p)) == q.key
    ensures LiquidationMetadata(q, p).remaining == LiquidationQuantity(q, p.signed) <= Abs(p.signed)
  {
  }

  /** What the book did for a liquidation: the store in step, nets kept, the position moved by the lots of others. */
  ghost predicate BookClosed(core: Core, l: Ledger, l': Ledger, gone: set<nat>, key: Key, quantity: nat, taken: nat, own: nat) {
    && StoreOk(core, l'.metadata - gone)
    && LedgerOk(l') && SameNets(l.positions, l'.positions)
    && l.pending.Some? && l'.pending.Some? && SameOrder(l.pending.value, l'.pending.value)
    && own <= taken <= quantity && l'.pending.value.remaining == quantity - taken
    && Moved(l.pending.value.side, PositionAt(l.positions, key).signed, PositionAt(l'.positions, key).signed, taken - own)
  }

  lemma RefusedBooks(core: Core, r: CoreResult, l: Ledger, marks: Marks, kind: CommandKind)
    requires CoreInv(r.core) && Refusing(core, r) && StoreOk(core, l.metadata)
    ensures BookAll(l, r.events, marks, kind).ledger == l && Completed(r.events) == {}
    ensures StoreOk(r.core, l.metadata)
  {
    hide CoreInv, MetadataOk;
    assert r.events == [r.events[0]] && r.events[1..] == [];
  }

  lemma LiquidationBooked(core: Core, c: PlaceOrderCommand, l: Ledger, marks: Marks, quantity: nat)
    requires StoreOk(core, l.metadata) && LedgerOk(l) && l.pending.Some? && StandsFor(l.pending.value, c)
    requires !CanRest(c) && l.pending.value.remaining == quantity == c.quantity
    ensures var r := CoreStep(core, Place(c));
            BookClosed(r.core, l, BookAll(l, r.events, marks, LiquidationKind).ledger, Completed(r.events),
                       KeyOf(l.pending.value), quantity, Taken(core, c), OwnTaken(core, c))
  {
    hide CoreSpec.Process, CoreInv, MetadataOk, Covered, LedgerOk, Net, BookAll, MatchOf, Completed, Accepting, Refusing,
      Standing, Follows, Taken, OwnTaken, Moved;
    var r := CoreStep(core, Place(c));
    var l' := BookAll(l, r.events, marks, LiquidationKind).ledger;
    PlaceCases(core, c);
    BookedExactly(core, c, l, marks, LiquidationKind);
    TakenWithin(core, c);
    if Accepting(core, c, r) {
      AcceptedBooked(core, c, l, marks, LiquidationKind);
      FollowedStore(core, c, l, l');
    } else {
      RefusedBooks(core, r, l, marks, LiquidationKind);
      assert l.metadata - {} == l.metadata;
    }
  }

  lemma TakenWithin(core: Core, c: PlaceOrderCommand)
    ensures Taken(core, c) <= c.quantity
  {
    hide Acceptable, Reachable;
  }

  /** Whatever the core answers to an order, booking it fills what the order takes and moves its owner by the lots of others. */
  lemma BookedExactly(core: Core, c: PlaceOrderCommand, l: Ledger, marks: Marks, kind: CommandKind)
    requires StoreOk(core, l.metadata) && LedgerOk(l) && l.pending.Some? && StandsFor(l.pending.value, c)
    ensures var l', key := BookAll(l, CoreStep(core, Place(c)).events, marks, kind).ledger, KeyOf(l.pending.value);
            && l'.pending.Some? && SameOrder(l.pending.value, l'.pending.value)
            && LedgerOk(l') && SameNets(l.positions, l'.positions)
            && l'.pending.value.remaining == l.pending.value.remaining - Taken(core, c)
            && Moved(c.side, PositionAt(l.positions, key).signed, PositionAt(l'.positions, key).signed,
                     Taken(core, c) - OwnTaken(core, c))
  {
    hide CoreSpec.Process, CoreInv, MetadataOk, Covered, LedgerOk, Net, BookAll, MatchOf, Completed, Accepting, Refusing,
      Standing, OwnLots, Covers, HasId, Acceptable, Reachable;
    var r := CoreStep(core, Place(c));
    PlaceCases(core, c);
    AcceptedIff(core, c);
    if Accepting(core, c, r) {
      AcceptedBooked(core, c, l, marks, kind);
      LeftOver(core, c);
    } else {
      RefusedBooks(core, r, l, marks, kind);
    }
  }

  /** For an order that cannot rest, the store without an entry of its own stays in step. */
  lemma FollowedStore(core: Core, c: PlaceOrderCommand, l: Ledger, l': Ledger)
    requires StoreOk(core, l.metadata) && Accepting(core, c, CoreStep(core, Place(c))) && !CanRest(c)
    requires l.pending.Some? && StandsFor(l.pending.value, c)
    requires var book, m := core.books[c.symbolId], MatchOf(core.books[c.symbolId], core.sequences, c);
             m.taker.remaining <= c.quantity
             && Follows(l, l', book.SideQueue(c.side.Opposite()), m.queue, c.symbolId, c.quantity - m.taker.remaining)
    ensures StoreOk(CoreStep(core, Place(c)).core, l'.metadata - Completed(CoreStep(core, Place(c)).events))
    ensures LedgerOk(l') && SameNets(l.positions, l'.positions)
  {
    hide CoreSpec.Process, CoreInv, MetadataOk, Covered, LedgerOk, Net, MatchOf, Completed, Accepting, Standing, StandsFor;
    StoreKept(core, c, l, l', l'.metadata);
  }

  lemma Rebuilt(st: State, r: State)
    requires RuntimeInv(st) && StoreOk(r.core, r.metadata) && SameNets(st.positions, r.positions)
    requires RisksOk(r.positions, r.risks) && r.rates == st.rates
    ensures RuntimeInv(r)
  {
    hide StoreOk, RisksOk, Net;
  }

  lemma SettledLedger(l: Ledger, gone: set<nat>)
    requires LedgerOk(l)
    ensures LedgerOk(l.(metadata := l.metadata - gone))
  {
    hide RisksOk, Standing;
  }

  /** The ledger after the book's part of a liquidation. */
  ghost function BookLedger(st: State, q: Liquidation, price: int): Ledger
    requires CoreInv(st.core) && q.key in st.positions
  {
    var p := st.positions[q.key];
    BookAll(LedgerOf(st, Some(LiquidationMetadata(q, p))), CoreStep(st.core, Place(LiquidationOrder(q, p.signed, price))).events,
            st.marks, LiquidationKind).ledger
  }

  /** Liquidation against the book first: everything kept, and the position closed by exactly what others took. */
  lemma CrossedLaw(st: State, q: Liquidation, price: int)
    requires RuntimeInv(st) && q.key in st.positions && st.positions[q.key].signed != 0 && CoreInv(st.core)
    ensures var p, c := st.positions[q.key], LiquidationOrder(q, st.positions[q.key].signed, price);
            var core := CoreStep(st.core, Place(c));
            var booked := BookAll(LedgerOf(st, Some(LiquidationMetadata(q, p))), core.events, st.marks, LiquidationKind);
            var settled := Settle(st, core.core, booked.ledger, core.events);
            var r := Deleverage(settled, LedgerOf(settled, booked.ledger.pending), q, price,
                                [LiquidationStarted(q.key)] + booked.outputs).state;
            && RuntimeInv(r) && SameElsewhere(st, r)
            && Moved(CloseSide(p.signed), p.signed, PositionAt(r.positions, q.key).signed,
                     Taken(st.core, c) - OwnTaken(st.core, c)
                     + Min(LiquidationQuantity(q, p.signed) - Taken(st.core, c), Offered(BookLedger(st, q, price), q.key)))
  {
    hide CoreSpec.Process, StoreOk, LedgerOk, Net, BookAll, Completed, StandsFor, Deleverage, CoreInv, Standing, RisksOk,
      ZeroSum, LiquidationQuantity, Taken, OwnTaken, AdlCandidates, AvailableLots;
    var p := st.positions[q.key];
    var c, md := LiquidationOrder(q, p.signed, price), LiquidationMetadata(q, p);
    LiquidationStands(q, p, price);
    StandsStanding(md, c);
    PendingLedger(st, md);
    var l := LedgerOf(st, Some(md));
    var core := CoreStep(st.core, Place(c));
    var booked := BookAll(l, core.events, st.marks, LiquidationKind);
    LiquidationBooked(st.core, c, l, st.marks, LiquidationQuantity(q, p.signed));
    var settled := Settle(st, core.core, booked.ledger, core.events);
    SettledLedger(booked.ledger, Completed(core.events));
    var l2 := LedgerOf(settled, booked.ledger.pending);
    BookShrinks(p.signed, PositionAt(booked.ledger.positions, q.key).signed, Taken(st.core, c) - OwnTaken(st.core, c));
    Deleveraged(settled, l2, q, price, [LiquidationStarted(q.key)] + booked.outputs);
    Rebuilt(st, Deleverage(settled, l2, q, price, [LiquidationStarted(q.key)] + booked.outputs).state);
  }

  ghost predicate SameElsewhere(st: State, r: State) {
    r == st.(core := r.core, metadata := r.metadata, positions := r.positions, risks := r.risks)
  }

  lemma StandsStanding(md: Metadata, c: PlaceOrderCommand)
    requires StandsFor(md, c)
    ensures Standing(md)
  {
  }

  lemma BookShrinks(signed: int, after: int, lots: nat)
    requires signed != 0 && lots <= Abs(signed) && Moved(CloseSide(signed), signed, after, lots)
    ensures Abs(after) == Abs(signed) - lots && (after != 0 ==> CloseSide(after) == CloseSide(signed))
  {
  }

  lemma DirectLaw(st: State, q: Liquidation, price: int)
    requires RuntimeInv(st) && q.key in st.positions && st.positions[q.key].signed != 0
    ensures var p := st.positions[q.key];
            var l := LedgerOf(st, Some(LiquidationMetadata(q, p)));
            var r := Deleverage(st, l, q, price, [LiquidationStarted(q.key)]).state;
            && RuntimeInv(r) && SameElsewhere(st, r)
            && Moved(CloseSide(p.signed), p.signed, PositionAt(r.positions, q.key).signed,
                     Min(LiquidationQuantity(q, p.signed), Offered(l, q.key)))
  {
    hide StoreOk, LedgerOk, Net, StandsFor, Deleverage, Standing, RisksOk, ZeroSum, LiquidationQuantity, AdlCandidates, AvailableLots;
    var p := st.positions[q.key];
    var md := LiquidationMetadata(q, p);
    LiquidationStands(q, p, price);
    StandsStanding(md, LiquidationOrder(q, p.signed, price));
    PendingLedger(st, md);
    Deleveraged(st, LedgerOf(st, Some(md)), q, price, [LiquidationStarted(q.key)]);
    Rebuilt(st, Deleverage(st, LedgerOf(st, Some(md)), q, price, [LiquidationStarted(q.key)]).state);
  }

  lemma CoreOnlyLaw(st: State, c: PlaceOrderCommand)
    requires RuntimeInv(st) && !CanRest(c)
    requires !HasTrade(CoreStep(st.core, Place(c)).events)
    ensures RuntimeInv(st.(core := CoreStep(st.core, Place(c)).core))
  {
    hide CoreSpec.Process, StoreOk, Net, CoreInv, RisksOk, ZeroSum;
    InvCore(st);
    var r := CoreStep(st.core, Place(c));
    QuietStore(st.core, c, st.metadata);
    Rebuilt(st, st.(core := r.core));
  }

  /** An order that neither trades nor rests leaves every book as it was. */
  lemma QuietStore(core: Core, c: PlaceOrderCommand, metadata: map<nat, Metadata>)
    requires StoreOk(core, metadata) && !CanRest(c)
    requires !HasTrade(CoreStep(core, Place(c)).events)
    ensures StoreOk(CoreStep(core, Place(c)).core, metadata)
  {
    hide CoreSpec.Process, CoreInv, MetadataOk, SaneQuantities, PlaceRejection, MatchOf, Covers;
    var r := CoreStep(core, Place(c));
    PlaceCases(core, c);
    if Accepting(core, c, r) {
      var book := core.books[c.symbolId];
      QuietMatch(book, core.sequences, c);
      forall k <- r.core.books
        ensures Covers(metadata, r.core.books[k].bids, k) && Covers(metadata, r.core.books[k].asks, k)
      {
        assert k in core.books;
      }
    }
  }

  lemma QuietMatch(book: Book, s: SequenceState, c: PlaceOrderCommand)
    requires SaneQuantities(book.bids) && SaneQuantities(book.asks) && PlaceRejection(book, c).None? && !CanRest(c)
    requires !HasTrade(ProcessPlace(book, s, c).events)
    ensures ProcessPlace(book, s, c).book.bids == book.bids && ProcessPlace(book, s, c).book.asks == book.asks
  {
    hide LevelLots, SaneQuantities, PlaceRejection, Insert, HasTrade;
    MatchableTrades(book, s, c);
  }

  lemma MatchableTrades(book: Book, s: SequenceState, c: PlaceOrderCommand)
    requires SaneQuantities(book.bids) && SaneQuantities(book.asks) && PlaceRejection(book, c).None?
    ensures var opp := c.side.Opposite();
            Matchable(opp, book.SideQueue(opp), Taker(c.orderId, MatchLimit(c), c.quantity, c.quantity)) ==>
              HasTrade(ProcessPlace(book, s, c).events)
  {
    hide LevelLots, SaneQuantities, PlaceRejection, Insert, Match;
    var opp := c.side.Opposite();
    var q, taker := book.SideQueue(opp), Taker(c.orderId, MatchLimit(c), c.quantity, c.quantity);
    if Matchable(opp, q, taker) {
      FirstTrade(book.config.symbolId, opp, q, taker, NextEvent(s), book.lastTradePrice);
      assert ProcessPlace(book, s, c).events[1] == MatchOf(book, s, c).events[0];
    }
  }

  lemma FirstTrade(symbolId: nat, side: Side, q: Queue, taker: Taker, s: SequenceState, last: Option<int>)
    requires SaneQuantities(q) && taker.remaining <= taker.original && Matchable(side, q, taker)
    ensures var events := Match(symbolId, side, q, taker, s, last).events;
            |events| > 0 && events[0].TradeExecuted?
  {
    hide LevelLots;
    FrontLots(q);
    SaneRest(q, Min(taker.remaining, q[0].remaining));
  }

  /** What a liquidation order would do, as far as it is decided before it is tried. */
  ghost predicate Attemptable(st: State, q: Liquidation) {
    MayLiquidate(st, q) && LiquidationPrice(q, st.positions[q.key], st.marks) > 0
  }

  /** The order that a liquidation sends to the book, if the book holds an order within its price. */
  ghost function BookOrder(st: State, q: Liquidation): Option<PlaceOrderCommand>
    requires Attemptable(st, q)
  {
    var p := st.positions[q.key];
    var price := LiquidationPrice(q, p, st.marks);
    if CrossingLiquidity(st.core, q.key.marketId, CloseSide(p.signed), price) then Some(LiquidationOrder(q, p.signed, price)) else None
  }

  /** The ledger that counterparties are ranked in: as the book's fills leave it. */
  ghost function RankedLedger(st: State, q: Liquidation): Ledger
    requires Attemptable(st, q) && CoreInv(st.core)
  {
    if BookOrder(st, q).Some? then BookLedger(st, q, LiquidationPrice(q, st.positions[q.key], st.marks)) else LedgerOf(st, None)
  }

  /** The lots that the book takes, and those of them that are the liquidated user's own. */
  ghost function BookTaken(st: State, q: Liquidation): nat
    requires Attemptable(st, q)
  {
    if BookOrder(st, q).Some? then Taken(st.core, BookOrder(st, q).value) else 0
  }

  ghost function BookOwn(st: State, q: Liquidation): (own: nat)
    requires Attemptable(st, q)
    ensures own <= BookTaken(st, q)
  {
    if BookOrder(st, q).Some? then OwnTaken(st.core, BookOrder(st, q).value) else 0
  }

  /** The lots that a liquidation closes: what others take in the book, and of what is left open as much as is offered. */
  ghost function Closes(st: State, q: Liquidation): int
    requires CoreInv(st.core)
  {
    if !Attemptable(st, q) then 0
    else
      var quantity := LiquidationQuantity(q, st.positions[q.key].signed);
      BookTaken(st, q) - BookOwn(st, q) + Min(quantity - BookTaken(st, q), Offered(RankedLedger(st, q), q.key))
  }

  lemma OfferedSame(a: Ledger, b: Ledger, key: Key)
    requires a.positions == b.positions && a.risks == b.risks
    ensures Offered(a, key) == Offered(b, key)
  {
    hide AdlCandidates, AvailableLots;
  }

  /** An order that trades nothing takes nothing and leaves the ledger as it was. */
  lemma UntradedLedger(st: State, q: Liquidation, price: int)
    requires RuntimeInv(st) && CoreInv(st.core) && q.key in st.positions && st.positions[q.key].signed != 0
    requires !HasTrade(CoreStep(st.core, Place(LiquidationOrder(q, st.positions[q.key].signed, price))).events)
    ensures var c, l := LiquidationOrder(q, st.positions[q.key].signed, price), BookLedger(st, q, price);
            Taken(st.core, c) == 0 && l.positions == st.positions && l.risks == st.risks
  {
    hide CoreSpec.Process, StoreOk, LedgerOk, BookAll, CoreInv, RuntimeInv, StandsFor, LiquidationOrder, LiquidationMetadata, Match,
      HasTrade, PlaceRejection, SaneQuantities, ValidatePlace, ProcessPlace, Completed, CrossingLots;
    var p := st.positions[q.key];
    var c, l := LiquidationOrder(q, p.signed, price), LedgerOf(st, Some(LiquidationMetadata(q, p)));
    var r := CoreStep(st.core, Place(c));
    PlaceCases(st.core, c);
    AcceptedIff(st.core, c);
    if Accepting(st.core, c, r) {
      var book, opp := st.core.books[c.symbolId], c.side.Opposite();
      MatchableTrades(book, st.core.sequences, c);
      NothingReached(opp, book.SideQueue(opp), Taker(c.orderId, MatchLimit(c), c.quantity, c.quantity), book.config.symbolId,
                     NextEvent(st.core.sequences), book.lastTradePrice);
      MatchFramed(book, st.core.sequences, c, l, st.marks, LiquidationKind);
      NoBooking(l, st.marks, LiquidationKind);
    } else {
      StoreOf(st);
      RefusedBooks(st.core, r, l, st.marks, LiquidationKind);
    }
  }

  lemma StoreOf(st: State)
    requires RuntimeInv(st)
    ensures StoreOk(st.core, st.metadata)
  {
  }

  lemma NothingReached(side: Side, q: Queue, taker: Taker, symbolId: nat, s: SequenceState, last: Option<int>)
    requires SaneQuantities(q) && taker.remaining <= taker.original && !Matchable(side, q, taker)
    ensures Min(taker.remaining, CrossingLots(side, q, taker.limit)) == 0 && Match(symbolId, side, q, taker, s, last).events == []
  {
  }

  /**
    Liquidation keeps the invariant and closes exactly what others take of it in the book, plus the smaller of what the book
    leaves open and what the ranked counterparties hold; it never grows or flips the position.  If it announces nothing, no
    position, risk or metadata changed.
   */
  lemma LiquidateLaw(st: State, q: Liquidation)
    requires RuntimeInv(st)
    ensures CoreInv(st.core)
    ensures var r, signed := Liquidate(st, q), PositionAt(st.positions, q.key).signed;
            && RuntimeInv(r.state) && SameElsewhere(st, r.state)
            && Moved(CloseSide(signed), signed, PositionAt(r.state.positions, q.key).signed, Closes(st, q))
            && (r.outputs == [] ==> r.state == st.(core := r.state.core))
            && (!MayLiquidate(st, q) ==> r.state == st)
  {
    hide CoreSpec.Process, RuntimeInv, BookAll, Settle, Deleverage, CoreInv, CrossingLiquidity, AvailableLots,
      AdlCandidates, LiquidationPrice, HasTrade, LiquidationMetadata, LiquidationOrder, BookLedger, Taken, OwnTaken;
    InvCore(st);
    if Attemptable(st, q) {
      AttemptLaw(st, q);
    }
  }

  lemma AttemptLaw(st: State, q: Liquidation)
    requires RuntimeInv(st) && CoreInv(st.core) && Attemptable(st, q)
    ensures var r, signed := Liquidate(st, q), PositionAt(st.positions, q.key).signed;
            && RuntimeInv(r.state) && SameElsewhere(st, r.state)
            && Moved(CloseSide(signed), signed, PositionAt(r.state.positions, q.key).signed, Closes(st, q))
            && (r.outputs == [] ==> r.state == st.(core := r.state.core))
  {
    hide CoreSpec.Process, RuntimeInv, BookAll, Settle, Deleverage, CoreInv, CrossingLiquidity, AvailableLots,
      AdlCandidates, LiquidationPrice, HasTrade, LiquidationMetadata, LiquidationOrder, BookLedger, Taken, OwnTaken;
    var p := st.positions[q.key];
    var price := LiquidationPrice(q, p, st.marks);
    var md, started := LiquidationMetadata(q, p), [LiquidationStarted(q.key)];
    CompletedLast(st, LedgerOf(st, Some(md)), q, price, started);
    OfferedSame(LedgerOf(st, Some(md)), LedgerOf(st, None), q.key);
    if BookOrder(st, q).None? {
      DirectLaw(st, q, price);
    } else {
      var c := LiquidationOrder(q, p.signed, price);
      var core := CoreStep(st.core, Place(c));
      var booked := BookAll(LedgerOf(st, Some(md)), core.events, st.marks, LiquidationKind);
      var settled := Settle(st, core.core, booked.ledger, core.events);
      CompletedLast(settled, LedgerOf(settled, booked.ledger.pending), q, price, started + booked.outputs);
      CrossedLaw(st, q, price);
      LiquidationStands(q, p, price);
      if !HasTrade(core.events) {
        CoreOnlyLaw(st, c);
        UntradedLedger(st, q, price);
        OfferedSame(BookLedger(st, q, price), LedgerOf(st, None), q.key);
      }
    }
  }

  /** What callers need of it that do not care how much was closed. */
  lemma LiquidateKeeps(st: State, q: Liquidation)
    requires RuntimeInv(st)
    ensures CoreInv(st.core)
    ensures var r := Liquidate(st, q);
            && RuntimeInv(r.state) && SameElsewhere(st, r.state)
            && (r.outputs == [] ==> r.state == st.(core := r.state.core))
  {
    hide RuntimeInv, CoreInv, Liquidate, Closes;
    LiquidateLaw(st, q);
  }

  /** It never grows or flips the position, and closes at most the smaller of what was asked for and what was held. */
  lemma LiquidationShrinks(st: State, q: Liquidation)
    requires RuntimeInv(st) && CoreInv(st.core)
    ensures var signed := PositionAt(st.positions, q.key).signed;
            && 0 <= Closes(st, q) <= LiquidationQuantity(q, signed) <= Abs(signed)
            && Shrunk(signed, PositionAt(Liquidate(st, q).state.positions, q.key).signed, LiquidationQuantity(q, signed))
  {
    hide RuntimeInv, CoreInv, Liquidate, BookOrder, RankedLedger, Offered, LiquidationPrice, Taken, OwnTaken;
    LiquidateLaw(st, q);
    if Attemptable(st, q) {
      BookTakenWithin(st, q);
    }
    ClosedShrinks(PositionAt(st.positions, q.key).signed, Closes(st, q));
  }

  lemma BookTakenWithin(st: State, q: Liquidation)
    requires Attemptable(st, q)
    ensures BookTaken(st, q) <= LiquidationQuantity(q, st.positions[q.key].signed)
  {
    hide Taken, CrossingLiquidity, LiquidationPrice, MayLiquidate, LiquidationQuantity;
    if BookOrder(st, q).Some? { TakenWithin(st.core, BookOrder(st, q).value); }
  }

  /**
    A liquidation that is attempted closes all it asked for exactly if none of what it takes in the book is the user's own
    and the ranked counterparties hold at least what the book leaves open.
   */
  lemma ClosesAllIff(st: State, q: Liquidation)
    requires RuntimeInv(st) && CoreInv(st.core) && Attemptable(st, q)
    ensures var signed, quantity := st.positions[q.key].signed, LiquidationQuantity(q, st.positions[q.key].signed);
            Abs(PositionAt(Liquidate(st, q).state.positions, q.key).signed) == Abs(signed) - quantity
            <==> BookOwn(st, q) == 0 && quantity - BookTaken(st, q) <= Offered(RankedLedger(st, q), q.key)
  {
    hide RuntimeInv, CoreInv, Liquidate, BookOrder, RankedLedger, Offered, LiquidationPrice, Taken, OwnTaken;
    LiquidateLaw(st, q);
    LiquidationShrinks(st, q);
    BookTakenWithin(st, q);
  }

  lemma CompletedLast(st: State, l: Ledger, q: Liquidation, price: int, before: seq<Output>)
    ensures Deleverage(st, l, q, price, before).outputs != []
  {
    hide AdlFills, AdlCandidates;
  }

  lemma InvCore(st: State)
    requires RuntimeInv(st)
    ensures CoreInv(st.core)
  {
    hide CoreInv, MetadataOk, Covered, ZeroSum, RisksOk;
  }
}
