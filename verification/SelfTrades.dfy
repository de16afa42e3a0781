/**
  A user who trades with himself.  His own resting order absorbs his reduce-only order or his liquidation: the lots are
  filled and nothing is closed, although counterparties stand ready.
 */
module SelfTrades {
  import opened Types
  import opened BookSpec
  import opened BookLaws
  import opened CoreSpec
  import opened CoreLaws
  import opened Sums
  import opened Accounting
  import opened LedgerSpec
  import opened LedgerLaws
  import opened RuntimeSpec
  import opened StoreLaws
  import opened LiquidationLaws
  import opened RuntimeLaws

  const OwnBid := OrderSnapshot(1, 1, 7, 1, Buy, 5, 1, 1, 1)
  const Long := Key(7, 1)
  const Short := Key(8, 1)

  function Market(): SymbolConfig {
    SymbolConfig(1, 1, 1, 1, 10, 1, 10, 64, 0, true)
  }

  function Holding(k: Key): Position {
    Position(if k == Long then 1 else -1, 10, 0, 1)
  }

  /** User 7 is long one lot bought at 10, user 8 short one, the mark is 5, and a bid of user 7 for one lot rests at 5. */
  function Standoff(): State {
    State(Core(map[1 := Book(Market(), [OwnBid], [], None)], SequenceState(2, 1, 2), Idempotency(map[], map[1 := 1], {1})),
          map[1 := Metadata(1, 1, 7, Buy, 1, 1, false, 0, 0, 1)],
          map[Long := Holding(Long), Short := Holding(Short)],
          map[Long := RiskOf(Holding(Long), 5, 0), Short := RiskOf(Holding(Short), 5, 0)],
          map[1 := 5], map[], {}, map[], map[])
  }

  lemma SoloBid()
    ensures BookInv(Book(Market(), [OwnBid], [], None))
  {
  }

  lemma StandoffStore()
    ensures StoreOk(Standoff().core, Standoff().metadata)
  {
    hide BookInv;
    SoloBid();
  }

  lemma StandoffNets(m: nat)
    ensures Net(Standoff().positions, m) == 0
  {
    hide Sum, Net;
    var none: map<Key, Position> := map[];
    NetSet(none, Long, Holding(Long), m);
    NetSet(none[Long := Holding(Long)], Short, Holding(Short), m);
    assert Standoff().positions == none[Long := Holding(Long)][Short := Holding(Short)];
    NoNet(m);
  }

  lemma NoNet(m: nat)
    ensures Net(map[], m) == 0
  {
    assert Holdings(map[], m) == map[];
  }

  lemma StandoffInv()
    ensures RuntimeInv(Standoff()) && CoreInv(Standoff().core)
  {
    hide StoreOk, Net, RiskAgrees, RiskOf, CoreInv;
    StandoffStore();
    InvCoreOf(Standoff());
    forall m: nat ensures Net(Standoff().positions, m) == 0 { StandoffNets(m); }
    RiskOfAgrees(Holding(Long), 5, 0);
    RiskOfAgrees(Holding(Short), 5, 0);
  }

  lemma InvCoreOf(st: State)
    requires StoreOk(st.core, st.metadata)
    ensures CoreInv(st.core)
  {
    hide CoreInv, Covered, MetadataOk;
  }

  /** A sale of one lot at 5 by user 7 is accepted, takes one lot, and it is his own. */
  lemma OwnBidTaken(c: PlaceOrderCommand)
    requires c.commandId > 1 && c.orderId > 1 && c.clientOrderId > 1 && c.userId == 7 && c.symbolId == 1 && c.side == Sell
    requires c.orderType == Limit && c.timeInForce == IOC && c.price == 5 && c.quantity == 1
    ensures Taken(Standoff().core, c) == 1 && OwnTaken(Standoff().core, c) == 1
  {
    var q := Standoff().core.books[1].bids;
    assert q == [OwnBid] && q[1..] == [];
    assert !HasId(q + [], c.orderId) && !HasClient(q + [], c.clientOrderId) by { assert q + [] == q; }
    assert CrossingLots(Buy, q, 5) == 1;
    assert OwnLots(q, 1, 7) == 1;
  }

  function OwnSale(): Input {
    PlaceInput(None, "sale", PlaceOrderCommand(2, 2, 2, 7, 1, Sell, Limit, IOC, 5, 1), true, 0, 1)
  }

  /** The reduce-only sale is filled and closes nothing. */
  lemma ReduceOnlyAbsorbed()
    ensures CoreInv(Standoff().core) && RunOrder(Standoff(), OwnSale(), OwnSale().order).Some?
    ensures FilledBy(CoreStep(Standoff().core, Place(OwnSale().order)).events, 2) == 1
    ensures PositionAt(RunOrder(Standoff(), OwnSale(), OwnSale().order).value.state.positions, Long).signed == 1
  {
    hide RuntimeInv, CoreInv, CoreSpec.Process, RunOrder, Taken, OwnTaken, FilledBy;
    StandoffInv();
    OwnBidTaken(OwnSale().order);
    ReduceOnlyShrinks(Standoff(), OwnSale(), OwnSale().order);
  }

  function Forced(): Liquidation {
    Liquidation(3, 3, 3, Long, Buy, 0, 0)
  }

  lemma CounterpartyStands()
    ensures Offered(LedgerOf(Standoff(), None), Long) == 1
  {
    var st := Standoff();
    assert AdlKeys(Long, 1, st.positions, st.risks) == {Short};
    OneRanked(AdlBefore, Short, st.positions, st.risks);
    var cs := [Candidate(Short, st.positions[Short], st.risks[Short])];
    assert cs[1..] == [];
  }

  lemma OneRanked(before: Order, k: Key, positions: map<Key, Position>, risks: map<Key, Risk>)
    requires k in positions && k in risks
    ensures Ranked(before, {k}, positions, risks) == [Candidate(k, positions[k], risks[k])]
  {
    var p := PickKey({k});
    assert p == k && {k} - {k} == {};
  }

  /** The liquidation is filled by the user's own bid, closes nothing, and leaves a ready counterparty alone. */
  lemma LiquidationAbsorbed()
    ensures CoreInv(Standoff().core) && Attemptable(Standoff(), Forced()) && LiquidationQuantity(Forced(), 1) == 1
    ensures BookTaken(Standoff(), Forced()) == 1 && BookOwn(Standoff(), Forced()) == 1
    ensures Offered(LedgerOf(Standoff(), None), Long) == 1
    ensures PositionAt(Liquidate(Standoff(), Forced()).state.positions, Long).signed == 1
  {
    hide RuntimeInv, CoreInv, CoreSpec.Process, Liquidate, Taken, OwnTaken, Offered, RankedLedger;
    var st, q := Standoff(), Forced();
    StandoffInv();
    CounterpartyStands();
    assert st.risks[Long].equity == -5 && st.risks[Long].maintenance == 0;
    var bids := st.core.books[1].bids;
    assert AtPrice(bids, 5) == bids by { assert bids[1..] == []; }
    assert Lots(bids) == 1 by { assert bids[1..] == []; }
    OwnBidTaken(LiquidationOrder(q, 1, 5));
    LiquidateLaw(st, q);
  }
}
