/**
  Value over whole runs.  At any fixed mark, what a market's users have been credited plus what their positions are worth
  changes only by the rounding of average prices, through trades, liquidations and deleveraging alike.
 */
module ValueLaws {
  import opened Types
  import opened BookSpec
  import opened MatchLaws
  import opened CoreSpec
  import opened Sums
  import opened Accounting
  import opened LedgerSpec
  import opened LedgerLaws
  import opened RuntimeSpec
  import opened StoreLaws
  import opened RuntimeRuns
  import opened RuntimeSteps
  import opened Bookings

  // ---------- Value, credits and slack ----------

  ghost function Values(positions: map<Key, Position>, marketId: nat, mark: int): map<Key, int> {
    map k | k in positions && k.marketId == marketId :: Unrealized(positions[k], mark)
  }

  /** The unrealized profit of a market's positions, at a mark. */
  ghost function Value(positions: map<Key, Position>, marketId: nat, mark: int): int {
    Sum(Values(positions, marketId, mark))
  }

  /** The profit that outputs credit to users for a market. */
  function Credited(outputs: seq<Output>, marketId: nat): int {
    if outputs == [] then 0
    else (if outputs[0].AccountDelta? && outputs[0].key.marketId == marketId then outputs[0].amount else 0)
         + Credited(outputs[1..], marketId)
  }

  /** The positions that announced changes lead to. */
  function Applied(positions: map<Key, Position>, outputs: seq<Output>): map<Key, Position>
    decreases |outputs|
  {
    if outputs == [] then positions else Applied(ApplyOne(positions, outputs[0]), outputs[1..])
  }

  function ApplyOne(positions: map<Key, Position>, o: Output): map<Key, Position> {
    if o.PositionChanged? then positions[o.key := o.position] else positions
  }

  /** What averaging may round away when a position grows: less than one per lot of the grown position. */
  function SlackOf(before: int, after: int): nat {
    if SameDirection(before, after) && Abs(after) > Abs(before) then Abs(after) - 1 else 0
  }

  function SlackOne(positions: map<Key, Position>, o: Output, marketId: nat): nat {
    if o.PositionChanged? && o.key.marketId == marketId then SlackOf(PositionAt(positions, o.key).signed, o.position.signed) else 0
  }

  /** How much the averages of a market's grown positions may have rounded away, following the announced changes. */
  function Slack(positions: map<Key, Position>, outputs: seq<Output>, marketId: nat): nat
    decreases |outputs|
  {
    if outputs == [] then 0
    else SlackOne(positions, outputs[0], marketId) + Slack(ApplyOne(positions, outputs[0]), outputs[1..], marketId)
  }

  lemma {:induction false} SlackAppend(p: map<Key, Position>, a: seq<Output>, b: seq<Output>, m: nat)
    ensures Credited(a + b, m) == Credited(a, m) + Credited(b, m)
    ensures Applied(p, a + b) == Applied(Applied(p, a), b)
    ensures Slack(p, a + b, m) == Slack(p, a, m) + Slack(Applied(p, a), b, m)
    decreases |a|
  {
    hide SlackOne, ApplyOne;
    if a == [] {
      assert a + b == b;
    } else {
      assert (a + b)[1..] == a[1..] + b;
      SlackAppend(ApplyOne(p, a[0]), a[1..], b, m);
    }
  }

  lemma {:induction false} NoSlack(p: map<Key, Position>, outputs: seq<Output>, m: nat)
    requires forall o <- outputs :: !o.AccountDelta? && !o.PositionChanged?
    ensures Credited(outputs, m) == 0 && Slack(p, outputs, m) == 0 && Applied(p, outputs) == p
    decreases |outputs|
  {
    if outputs != [] {
      assert outputs[0] in outputs;
      NoSlack(p, outputs[1..], m);
    }
  }

  /** Value and credits moved by `off`, up to slack. */
  ghost predicate MovedBy(a: map<Key, Position>, b: map<Key, Position>, outputs: seq<Output>, m: nat, mark: int, off: int) {
    && Applied(a, outputs) == b
    && Abs(Value(b, m, mark) + Credited(outputs, m) - Value(a, m, mark) - off) <= Slack(a, outputs, m)
  }

  /** In every market and at every mark, value and credits together are conserved up to slack. */
  ghost predicate Conserved(a: map<Key, Position>, b: map<Key, Position>, outputs: seq<Output>) {
    forall m: nat, mark: int :: MovedBy(a, b, outputs, m, mark, 0)
  }

  lemma MovedTwice(a: map<Key, Position>, b: map<Key, Position>, c: map<Key, Position>, x: seq<Output>, y: seq<Output>, m: nat,
                   mark: int, off: int, off': int)
    requires MovedBy(a, b, x, m, mark, off) && MovedBy(b, c, y, m, mark, off')
    ensures MovedBy(a, c, x + y, m, mark, off + off')
  {
    hide Value, Credited, Slack, Applied;
    SlackAppend(a, x, y, m);
  }

  lemma ConservedTwice(a: map<Key, Position>, b: map<Key, Position>, c: map<Key, Position>, x: seq<Output>, y: seq<Output>)
    requires Conserved(a, b, x) && Conserved(b, c, y)
    ensures Conserved(a, c, x + y)
  {
    hide MovedBy;
    forall m: nat, mark: int ensures MovedBy(a, c, x + y, m, mark, 0) { MovedTwice(a, b, c, x, y, m, mark, 0, 0); }
  }

  lemma ConservedStill(a: map<Key, Position>, outputs: seq<Output>)
    requires forall o <- outputs :: !o.AccountDelta? && !o.PositionChanged?
    ensures Conserved(a, a, outputs)
  {
    hide Value, Credited, Slack, Applied;
    forall m: nat, mark: int ensures MovedBy(a, a, outputs, m, mark, 0) { NoSlack(a, outputs, m); }
  }

  // ---------- One trade ----------

  /** Changing one position moves its market's value by the difference. */
  lemma ValueSet(positions: map<Key, Position>, key: Key, p: Position, m: nat, mark: int)
    ensures Value(positions[key := p], m, mark)
            == Value(positions, m, mark)
               + if m == key.marketId then Unrealized(p, mark) - Unrealized(PositionAt(positions, key), mark) else 0
  {
    hide Sum;
    var f, f' := Values(positions, m, mark), Values(positions[key := p], m, mark);
    if m == key.marketId {
      assert f' == f[key := Unrealized(p, mark)];
      SumSet(f, key, Unrealized(p, mark));
    } else {
      assert f' == f;
    }
  }

  /** What one side of a trade announces: its realized profit, if any, and its position. */
  lemma SideSlack(positions: map<Key, Position>, key: Key, p: Position, realized: int, m: nat)
    ensures var x := (if realized != 0 then [AccountDelta(key, realized)] else []) + [PositionChanged(key, p, realized)];
            && Credited(x, m) == (if m == key.marketId then realized else 0)
            && Slack(positions, x, m) == (if m == key.marketId then SlackOf(PositionAt(positions, key).signed, p.signed) else 0)
            && Applied(positions, x) == positions[key := p]
  {
    hide SlackOf;
    var changed := [PositionChanged(key, p, realized)];
    assert changed[1..] == [];
    if realized != 0 {
      var credit := [AccountDelta(key, realized)];
      assert credit[1..] == [];
      SlackAppend(positions, credit, changed, m);
    } else {
      assert [] + changed == changed;
    }
  }

  /** The gain that the mark gives a fill. */
  function Gain(md: Metadata, fill: nat, price: int, m: nat, mark: int): int {
    if m == md.marketId then (mark - price) * SignedFill(md.side, fill) else 0
  }

  lemma SideMoves(l: Ledger, orderId: nat, fill: nat, price: int, marks: Marks, m: nat, mark: int)
    requires Find(l, orderId).Some?
    ensures var b, md := BookSide(l, orderId, fill, price, marks), Find(l, orderId).value;
            MovedBy(l.positions, b.ledger.positions, b.outputs, m, mark, Gain(md, fill, price, m, mark))
  {
    hide Value, Credited, Slack, Applied, Unrealized, ApplyFill, RealizedPnl, Rounding, RiskOf, AllocateMargin;
    var md := Find(l, orderId).value;
    var key, signed := Key(md.userId, md.marketId), SignedFill(md.side, fill);
    var taken := AllocateMargin(md, fill, price).0;
    var p := PositionAt(l.positions, key);
    var p' := ApplyFill(p, md.leverage, signed, price, taken);
    ValueSet(l.positions, key, p', m, mark);
    SideSlack(l.positions, key, p', RealizedPnl(p, signed, price), m);
    ValueConserved(p, md.leverage, signed, price, taken, mark);
    FillMoves(p, md.leverage, signed, price, taken);
  }

  /** A trade between a resting order and the pending one on the other side conserves value. */
  lemma TradeValue(l: Ledger, o: OrderSnapshot, fill: nat, price: int, marketId: nat, marks: Marks, kind: CommandKind)
    requires l.pending.Some? && l.pending.value.orderId != o.orderId
    requires o.orderId in l.metadata && Names(l.metadata[o.orderId], o, marketId)
    requires l.pending.value.marketId == marketId && l.pending.value.side == o.side.Opposite()
    ensures var b := BookTrade(l, o.orderId, l.pending.value.orderId, fill, price, marks, kind);
            Conserved(l.positions, b.ledger.positions, b.outputs)
  {
    hide MovedBy, BookSide, Settlements;
    var md, taker := l.metadata[o.orderId], l.pending.value;
    var b := BookTrade(l, o.orderId, taker.orderId, fill, price, marks, kind);
    var x := BookSide(l, o.orderId, fill, price, marks);
    MakerLeaves(l, o.orderId, fill, price, marks);
    var y := BookSide(x.ledger, taker.orderId, fill, price, marks);
    var trade := [b.outputs[0]];
    forall m: nat, mark: int ensures MovedBy(l.positions, b.ledger.positions, b.outputs, m, mark, 0) {
      SideMoves(l, o.orderId, fill, price, marks, m, mark);
      SideMoves(x.ledger, taker.orderId, fill, price, marks, m, mark);
      MovedTwice(l.positions, x.ledger.positions, y.ledger.positions, x.outputs, y.outputs, m, mark,
                 Gain(md, fill, price, m, mark), Gain(taker, fill, price, m, mark));
      GainsCancel(md, taker, fill, price, m, mark);
      ConservedStill(l.positions, trade);
      MovedTwice(l.positions, l.positions, y.ledger.positions, trade, x.outputs + y.outputs, m, mark, 0, 0);
      assert b.outputs == trade + (x.outputs + y.outputs);
    }
  }

  lemma GainsCancel(a: Metadata, b: Metadata, fill: nat, price: int, m: nat, mark: int)
    requires a.marketId == b.marketId && b.side == a.side.Opposite()
    ensures Gain(a, fill, price, m, mark) + Gain(b, fill, price, m, mark) == 0
  {
    Negated(mark - price, fill);
  }

  lemma MakerLeaves(l: Ledger, orderId: nat, fill: nat, price: int, marks: Marks)
    requires l.pending.Some? && l.pending.value.orderId != orderId
    ensures BookSide(l, orderId, fill, price, marks).ledger.pending == l.pending
  {
    hide ApplyFill, RiskOf, AllocateMargin, RealizedPnl;
  }

  // ---------- Runs ----------

  ghost function Conserves(): Bearing {
    (a: Accounts, b: Accounts, x: seq<Output>) => Conserved(a.positions, b.positions, x)
  }

  lemma ConservedEverywhere()
    ensures Everywhere(Lifted(Conserves()))
  {
    hide Conserved, Everywhere, Clerical, Tradable, AcrossQuiet, Joins, BookTrade, AccountsIn, Lifted;
    var rel := Conserves();
    ConservedBears();
    forall a, b, x | Clerical(a, b, x) ensures rel(AccountsIn(a), AccountsIn(b), x) { ClericalConserves(a, b, x); }
    BearsEverywhere(rel);
  }

  lemma ClericalConserves(a: State, b: State, x: seq<Output>)
    requires Clerical(a, b, x)
    ensures Conserved(AccountsIn(a).positions, AccountsIn(b).positions, x)
  {
    hide Conserved, Rerisked;
    ConservedStill(a.positions, x);
  }

  lemma ConservedBears()
    ensures Bears(Conserves())
  {
    hide Conserved, Tradable, BookTrade;
    var rel := Conserves();
    forall a, b, c, x, y | rel(a, b, x) && rel(b, c, y) ensures rel(a, c, x + y) {
      ConservedTwice(a.positions, b.positions, c.positions, x, y);
    }
    forall a, x | forall o <- x :: Quiet(o) ensures rel(a, a, x) { ConservedStill(a.positions, x); }
    forall l: Ledger, o: OrderSnapshot, fill: nat, price: int, m: nat, marks: Marks, kind: CommandKind | Tradable(l, o, fill, price, m)
      ensures TradeBears(rel, l, o, fill, price, marks, kind)
    {
      TradableParts(l, o, fill, price, m);
      TradeValue(l, o, fill, price, m, marks, kind);
    }
  }

  /**
    Over any run, whatever its records, and at any one mark: the unrealized profit of a market's positions plus what its users
    were credited changes by no more than the averages of growing positions round away, less than one per lot each time; and
    the announced changes lead to exactly the positions held.
   */
  lemma RunConservesValue(st: State, records: seq<Record>, ids: Record -> IdSource, marketId: nat, mark: int)
    requires RuntimeInv(st)
    ensures var r := RuntimeRuns.Run(st, records, ids);
            && Applied(st.positions, r.outputs) == r.state.positions
            && Abs(Value(r.state.positions, marketId, mark) + Credited(r.outputs, marketId) - Value(st.positions, marketId, mark))
               <= Slack(st.positions, r.outputs, marketId)
  {
    hide RuntimeInv, RuntimeRuns.Run, Elsewhere, AcrossOrders, Value, Credited, Slack, Applied;
    ConservedEverywhere();
    RunRelated(Lifted(Conserves()), st, records, ids);
    var r := RuntimeRuns.Run(st, records, ids);
    Unlifted(Conserves(), st, r.state, r.outputs);
    assert MovedBy(st.positions, r.state.positions, r.outputs, marketId, mark, 0);
  }
}
