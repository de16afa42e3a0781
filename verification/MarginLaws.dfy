/**
  What a fill does to a position: its size, its margin, its average price, its leverage and the profit it realizes, stated
  case by case; and over whole runs, that every announced change of a position is a fill of the trade announced before it.
 */
module MarginLaws {
  import opened Types
  import opened Accounting
  import opened LedgerSpec
  import opened LedgerLaws
  import opened RuntimeSpec
  import opened StoreLaws
  import opened RuntimeRuns
  import opened RuntimeSteps
  import opened Bookings
  import opened ValueLaws

  // ---------- One fill ----------

  /** `m` is `amount` shared into `whole` parts, rounded down. */
  predicate Share(m: int, amount: int, whole: int) {
    m * whole <= amount < (m + 1) * whole
  }

  /** Both long or both short. */
  predicate Adding(was: int, fill: int) {
    (was > 0 && fill > 0) || (was < 0 && fill < 0)
  }

  /** Still open, on the same side, and no larger. */
  predicate Reducing(was: int, now: int) {
    0 < now <= was || was <= now < 0
  }

  /** From one side to the other. */
  predicate Flipping(was: int, now: int) {
    now < 0 < was || was < 0 < now
  }

  /**
    A fill of `margin` and an order's `leverage` takes p to p'.  Opening takes the fill's price and margin; adding averages
    prices by size and adds margins; reducing keeps the average and the open share of the margin; closing keeps nothing; a
    flip takes the fill's price and the share of its margin that stays open.
   */
  predicate Filled(p: Position, fill: int, price: int, margin: int, leverage: int, p': Position) {
    var was, now := p.signed, p.signed + fill;
    && p'.signed == now
    && p'.leverage == (if was != 0 && p.leverage != 0 then p.leverage else leverage)
    && (was == 0 ==> p'.margin == margin && p'.average == price)
    && (Adding(was, fill) ==>
          && p'.margin == p.margin + margin
          && (p.average >= 0 && price >= 0 ==> Share(p'.average, p.average * Abs(was) + price * Abs(fill), Abs(now))))
    && (was != 0 && now == 0 ==> p'.margin == 0 && p'.average == 0)
    && (Reducing(was, now) ==> p'.average == p.average && (p.margin >= 0 ==> Share(p'.margin, p.margin * Abs(now), Abs(was))))
    && (Flipping(was, now) ==> p'.average == price && (margin >= 0 ==> Share(p'.margin, margin * Abs(now), Abs(fill))))
  }

  /** The profit on the lots that a fill closes. */
  predicate Realized(p: Position, fill: int, price: int, realized: int) {
    var closed := if Abs(fill) <= Abs(p.signed) then Abs(fill) else Abs(p.signed);
    && (p.signed == 0 || Adding(p.signed, fill) ==> realized == 0)
    && (p.signed > 0 > fill ==> realized == (price - p.average) * closed)
    && (p.signed < 0 < fill ==> realized == (p.average - price) * closed)
  }

  lemma SharedOut(amount: int, whole: int)
    requires amount >= 0 && whole > 0
    ensures Share(TruncDiv(amount, whole), amount, whole) && TruncDiv(amount, whole) >= 0
  {
    TruncDivLaw(amount, whole);
    var m := TruncDiv(amount, whole);
    assert (m + 1) * whole == m * whole + whole;
  }

  lemma FillLaw(p: Position, leverage: int, fill: int, price: int, margin: int)
    ensures Filled(p, fill, price, margin, leverage, ApplyFill(p, leverage, fill, price, margin))
  {
    hide Share, TruncDiv;
    var was, now := p.signed, p.signed + fill;
    if Adding(was, fill) {
      if p.average >= 0 && price >= 0 {
        Products(p.average, Abs(was));
        Products(price, Abs(fill));
        SharedOut(p.average * Abs(was) + price * Abs(fill), Abs(now));
      }
    } else if Reducing(was, now) {
      if p.margin >= 0 {
        Products(p.margin, Abs(now));
        SharedOut(p.margin * Abs(now), Abs(was));
      }
    } else if Flipping(was, now) && margin >= 0 {
      Products(margin, Abs(now));
      SharedOut(margin * Abs(now), Abs(fill));
    }
  }

  lemma Products(a: int, b: int)
    requires a >= 0 && b >= 0
    ensures a * b >= 0
  {
  }

  lemma ProfitLaw(p: Position, fill: int, price: int)
    ensures fill != 0 ==> Realized(p, fill, price, RealizedPnl(p, fill, price))
  {
  }

  // ---------- The margin a fill takes ----------

  /**
    What a fill takes: from a reservation its share by size, and all that is left when it completes the order; without one,
    the fill's notional over the leverage.
   */
  predicate Charged(md: Metadata, fill: int, price: int, taken: int) {
    if md.reserved > 0 && md.original > 0 then
      if fill == md.remaining then taken == md.remainingReserved else Share(taken, md.reserved * fill, md.original)
    else Share(taken, price * fill, if md.leverage <= 0 then 1 else md.leverage)
  }

  /** A reservation is charged exactly, and what a trade announces as settled is what it takes. */
  lemma ChargeLaw(md: Metadata, fill: int, price: int)
    requires md.reserved > 0 ==> GoodReservation(md)
    requires 0 < fill <= md.remaining && price >= 0
    ensures Charged(md, fill, price, AllocateMargin(md, fill, price).0)
    ensures PreviewMargin(md, fill, price) == AllocateMargin(md, fill, price).0
  {
    hide Share, TruncDiv;
    if md.reserved > 0 {
      AllocateStep(md, fill, price);
      Products(md.reserved, fill);
      SharedOut(md.reserved * fill, md.original);
    } else {
      Products(price, fill);
      SharedOut(price * fill, if md.leverage <= 0 then 1 else md.leverage);
    }
  }

  lemma ChargePositive(md: Metadata, fill: int, price: int)
    requires Solvent(md) && fill > 0 && price > 0
    ensures AllocateMargin(md, fill, price).0 >= 0
  {
    hide TruncDiv;
    if md.reserved > 0 && md.original > 0 {
      Products(md.reserved, fill);
      SharedOut(md.reserved * fill, md.original);
    } else {
      Products(price, fill);
      SharedOut(price * fill, if md.leverage <= 0 then 1 else md.leverage);
    }
  }

  /**
    One side of a trade: the order's owner bought or sold, by the order's side, at the trade's price; what the position is
    charged is what the order's reservation gave up, and no other position changes.
   */
  lemma SideLaw(l: Ledger, orderId: nat, fill: nat, price: int, marks: Marks)
    requires Find(l, orderId).Some? && 0 < fill <= Find(l, orderId).value.remaining && price >= 0
    requires Find(l, orderId).value.orderId == orderId
    requires Find(l, orderId).value.reserved > 0 ==> GoodReservation(Find(l, orderId).value)
    ensures var md, l' := Find(l, orderId).value, BookSide(l, orderId, fill, price, marks).ledger;
            var key := Key(md.userId, md.marketId);
            var bought: int := if md.side == Buy then fill else 0 - fill;
            exists taken: int ::
              && Charged(md, fill, price, taken)
              && Filled(PositionAt(l.positions, key), bought, price, taken, md.leverage, PositionAt(l'.positions, key))
              && Find(l', orderId).Some?
              && Find(l', orderId).value == md.(remaining := md.remaining - fill,
                                                remainingReserved := if md.reserved > 0 then md.remainingReserved - taken
                                                                     else Find(l', orderId).value.remainingReserved)
              && (forall k :: k != key ==> PositionAt(l'.positions, k) == PositionAt(l.positions, k))
  {
    hide ApplyFill, RealizedPnl, RiskOf, AllocateMargin, Filled, Charged, GoodReservation;
    var md := Find(l, orderId).value;
    var key, signed := Key(md.userId, md.marketId), SignedFill(md.side, fill);
    var (taken, md') := AllocateMargin(md, fill, price);
    ChargeLaw(md, fill, price);
    Allocated(md, fill, price);
    FillLaw(PositionAt(l.positions, key), md.leverage, signed, price, taken);
  }

  lemma Allocated(md: Metadata, fill: int, price: int)
    requires 0 < fill <= md.remaining && (md.reserved > 0 ==> GoodReservation(md))
    ensures var (taken, md') := AllocateMargin(md, fill, price);
            && md' == md.(remaining := md.remaining - fill, remainingReserved := md'.remainingReserved)
            && (md.reserved > 0 ==> md'.remainingReserved == md.remainingReserved - taken)
  {
    if md.reserved > 0 { AllocateStep(md, fill, price); }
  }

  // ---------- What outputs announce ----------

  /** The trade announced last, and the profit credited since. */
  datatype Tape = Tape(price: int, quantity: nat, credit: Option<(Key, int)>)

  /** The change is a fill, bought or sold, of that trade, and the profit credited is the one it realizes. */
  ghost predicate ByTrade(p: Position, tape: Tape, key: Key, p': Position, realized: int) {
    && tape.price > 0 && tape.quantity > 0
    && (exists fill: int, margin: nat, leverage: int ::
          Abs(fill) == tape.quantity && Filled(p, fill, tape.price, margin, leverage, p') && Realized(p, fill, tape.price, realized))
    && tape.credit == if realized != 0 then Some((key, realized)) else None
  }

  /** Every announced change of a position is a fill of the trade announced before it, and every credit its profit. */
  ghost predicate Explained(positions: map<Key, Position>, tape: Tape, outputs: seq<Output>)
    decreases |outputs|
  {
    if outputs == [] then tape.credit.None?
    else
      match outputs[0]
      case TradeOutput(_, _, price, quantity, _) =>
        tape.credit.None? && Explained(positions, Tape(price, quantity, None), outputs[1..])
      case AccountDelta(key, amount) =>
        tape.credit.None? && amount != 0 && Explained(positions, tape.(credit := Some((key, amount))), outputs[1..])
      case PositionChanged(key, p', realized) =>
        && ByTrade(PositionAt(positions, key), tape, key, p', realized)
        && Explained(positions[key := p'], tape.(credit := None), outputs[1..])
      case _ => tape.credit.None? && Explained(positions, tape, outputs[1..])
  }

  ghost predicate AllExplained(a: map<Key, Position>, b: map<Key, Position>, outputs: seq<Output>) {
    Applied(a, outputs) == b && forall tape: Tape :: tape.credit.None? ==> Explained(a, tape, outputs)
  }

  lemma {:induction false} ExplainedOn(positions: map<Key, Position>, tape: Tape, x: seq<Output>, y: seq<Output>)
    requires Explained(positions, tape, x)
    requires forall t: Tape :: t.credit.None? ==> Explained(Applied(positions, x), t, y)
    ensures Explained(positions, tape, x + y)
    decreases |x|
  {
    hide ByTrade;
    if x == [] {
      assert x + y == y;
    } else {
      assert (x + y)[1..] == x[1..] + y;
      match x[0]
      case TradeOutput(_, _, price, quantity, _) => ExplainedOn(positions, Tape(price, quantity, None), x[1..], y);
      case AccountDelta(key, amount) => ExplainedOn(positions, tape.(credit := Some((key, amount))), x[1..], y);
      case PositionChanged(key, p', _) => ExplainedOn(positions[key := p'], tape.(credit := None), x[1..], y);
      case _ => ExplainedOn(positions, tape, x[1..], y);
    }
  }

  lemma AppliedOn(positions: map<Key, Position>, x: seq<Output>, y: seq<Output>)
    ensures Applied(positions, x + y) == Applied(Applied(positions, x), y)
  {
    hide Applied;
    SlackAppend(positions, x, y, 0);
  }

  lemma ExplainedTwice(a: map<Key, Position>, b: map<Key, Position>, c: map<Key, Position>, x: seq<Output>, y: seq<Output>)
    requires AllExplained(a, b, x) && AllExplained(b, c, y)
    ensures AllExplained(a, c, x + y)
  {
    hide Explained, Applied;
    AppliedOn(a, x, y);
    forall tape: Tape | tape.credit.None? ensures Explained(a, tape, x + y) { ExplainedOn(a, tape, x, y); }
  }

  lemma {:induction false} NothingToExplain(positions: map<Key, Position>, tape: Tape, outputs: seq<Output>)
    requires tape.credit.None? && forall o <- outputs :: !o.TradeOutput? && !o.AccountDelta? && !o.PositionChanged?
    ensures Explained(positions, tape, outputs) && Applied(positions, outputs) == positions
    decreases |outputs|
  {
    if outputs != [] {
      assert outputs[0] in outputs;
      NothingToExplain(positions, tape, outputs[1..]);
    }
  }

  lemma ExplainedStill(a: map<Key, Position>, outputs: seq<Output>)
    requires forall o <- outputs :: !o.TradeOutput? && !o.AccountDelta? && !o.PositionChanged?
    ensures AllExplained(a, a, outputs)
  {
    hide Explained, Applied;
    NothingToExplain(a, Tape(0, 0, None), outputs);
    forall tape: Tape | tape.credit.None? ensures Explained(a, tape, outputs) { NothingToExplain(a, tape, outputs); }
  }

  // ---------- Trades ----------

  /** One side of a trade, announced after the trade. */
  ghost predicate SideExplained(l: Ledger, l': Ledger, tape: Tape, x: seq<Output>) {
    Explained(l.positions, tape, x) && Applied(l.positions, x) == l'.positions
  }

  lemma JustChanged(positions: map<Key, Position>, tape: Tape, key: Key, p': Position, realized: int)
    requires ByTrade(PositionAt(positions, key), tape, key, p', realized)
    ensures var x := [PositionChanged(key, p', realized)];
            Explained(positions, tape, x) && Applied(positions, x) == positions[key := p']
  {
    hide ByTrade;
    assert [PositionChanged(key, p', realized)][1..] == [];
  }

  lemma OneChange(positions: map<Key, Position>, tape: Tape, key: Key, p': Position, realized: int)
    requires tape.credit.None? && ByTrade(PositionAt(positions, key), tape.(credit := if realized != 0 then Some((key, realized)) else None),
                                          key, p', realized)
    ensures var x := (if realized != 0 then [AccountDelta(key, realized)] else []) + [PositionChanged(key, p', realized)];
            Explained(positions, tape, x) && Applied(positions, x) == positions[key := p']
  {
    hide ByTrade;
    var changed := [PositionChanged(key, p', realized)];
    JustChanged(positions, tape.(credit := if realized != 0 then Some((key, realized)) else None), key, p', realized);
    if realized != 0 {
      var x := [AccountDelta(key, realized)] + changed;
      assert x[1..] == changed;
      assert Explained(positions, tape, x);
    } else {
      assert [] + changed == changed;
      assert tape.(credit := None) == tape;
    }
  }

  lemma SideIsFill(l: Ledger, orderId: nat, fill: nat, price: int, marks: Marks)
    requires Find(l, orderId).Some? && Solvent(Find(l, orderId).value) && fill > 0 && price > 0
    ensures var b := BookSide(l, orderId, fill, price, marks); SideExplained(l, b.ledger, Tape(price, fill, None), b.outputs)
    ensures forall z <- BookSide(l, orderId, fill, price, marks).outputs :: !z.TradeOutput?
  {
    hide Explained, Applied, ApplyFill, RealizedPnl, RiskOf, AllocateMargin, Filled, Realized;
    var md := Find(l, orderId).value;
    var key, signed := Key(md.userId, md.marketId), SignedFill(md.side, fill);
    var taken := AllocateMargin(md, fill, price).0;
    var p := PositionAt(l.positions, key);
    ChargePositive(md, fill, price);
    FillLaw(p, md.leverage, signed, price, taken);
    ProfitLaw(p, signed, price);
    var tape, realized := Tape(price, fill, None), RealizedPnl(p, signed, price);
    var p' := ApplyFill(p, md.leverage, signed, price, taken);
    ByFill(p, tape.(credit := if realized != 0 then Some((key, realized)) else None), key, p', realized, signed, taken, md.leverage);
    OneChange(l.positions, tape, key, p', realized);
  }

  lemma ByFill(p: Position, tape: Tape, key: Key, p': Position, realized: int, fill: int, margin: nat, leverage: int)
    requires tape.price > 0 && tape.quantity > 0 && Abs(fill) == tape.quantity
    requires Filled(p, fill, tape.price, margin, leverage, p') && Realized(p, fill, tape.price, realized)
    requires tape.credit == if realized != 0 then Some((key, realized)) else None
    ensures ByTrade(p, tape, key, p', realized)
  {
    hide Filled, Realized;
  }

  lemma TradeExplained(l: Ledger, o: OrderSnapshot, fill: nat, price: int, marketId: nat, marks: Marks, kind: CommandKind)
    requires Tradable(l, o, fill, price, marketId)
    ensures var b := BookTrade(l, o.orderId, l.pending.value.orderId, fill, price, marks, kind);
            AllExplained(l.positions, b.ledger.positions, b.outputs)
  {
    hide Explained, Applied, BookSide, Settlements, LedgerOk, Solvent;
    var takerId := l.pending.value.orderId;
    var b := BookTrade(l, o.orderId, takerId, fill, price, marks, kind);
    var x := BookSide(l, o.orderId, fill, price, marks);
    var y := BookSide(x.ledger, takerId, fill, price, marks);
    MakerLeaves(l, o.orderId, fill, price, marks);
    SideIsFill(l, o.orderId, fill, price, marks);
    SideIsFill(x.ledger, takerId, fill, price, marks);
    assert b.outputs == [b.outputs[0]] + (x.outputs + y.outputs);
    TwoSides(l.positions, b.outputs[0], x.outputs, y.outputs);
    AppliedOn(l.positions, [b.outputs[0]], x.outputs + y.outputs);
    AppliedOn(l.positions, x.outputs, y.outputs);
    ApplyTrade(l.positions, b.outputs[0]);
  }

  lemma ApplyTrade(positions: map<Key, Position>, o: Output)
    requires o.TradeOutput?
    ensures Applied(positions, [o]) == positions
  {
    assert [o][1..] == [];
  }

  lemma TwoSides(positions: map<Key, Position>, o: Output, x: seq<Output>, y: seq<Output>)
    requires o.TradeOutput? && Explained(positions, Tape(o.price, o.quantity, None), x)
    requires Explained(Applied(positions, x), Tape(o.price, o.quantity, None), y)
    requires forall z <- x :: !z.TradeOutput?
    ensures forall tape: Tape :: tape.credit.None? ==> Explained(positions, tape, [o] + (x + y))
  {
    hide ByTrade, Applied;
    ExplainedSame(positions, Tape(o.price, o.quantity, None), x, y);
    assert ([o] + (x + y))[1..] == x + y;
  }

  /** Without another trade in between, the later changes are fills of the same one. */
  lemma {:induction false} ExplainedSame(positions: map<Key, Position>, tape: Tape, x: seq<Output>, y: seq<Output>)
    requires Explained(positions, tape, x) && Explained(Applied(positions, x), tape.(credit := None), y)
    requires forall z <- x :: !z.TradeOutput?
    ensures Explained(positions, tape, x + y)
    decreases |x|
  {
    hide ByTrade;
    if x == [] {
      assert x + y == y;
      assert tape.(credit := None) == tape;
    } else {
      assert (x + y)[1..] == x[1..] + y;
      assert x[0] in x;
      var o := x[0];
      if o.AccountDelta? {
        ExplainedSame(positions, tape.(credit := Some((o.key, o.amount))), x[1..], y);
      } else if o.PositionChanged? {
        ExplainedSame(positions[o.key := o.position], tape.(credit := None), x[1..], y);
      } else {
        ExplainedSame(positions, tape, x[1..], y);
      }
    }
  }

  // ---------- Runs ----------

  ghost function Explains(): Bearing {
    (a: Accounts, b: Accounts, x: seq<Output>) => AllExplained(a.positions, b.positions, x)
  }

  lemma ExplainedBears()
    ensures Bears(Explains())
  {
    hide AllExplained, Tradable, BookTrade;
    var rel := Explains();
    forall a, b, c, x, y | rel(a, b, x) && rel(b, c, y) ensures rel(a, c, x + y) {
      ExplainedTwice(a.positions, b.positions, c.positions, x, y);
    }
    forall a, x | forall o <- x :: Quiet(o) ensures rel(a, a, x) { ExplainedStill(a.positions, x); }
    forall l: Ledger, o: OrderSnapshot, fill: nat, price: int, m: nat, marks: Marks, kind: CommandKind | Tradable(l, o, fill, price, m)
      ensures TradeBears(rel, l, o, fill, price, marks, kind)
    {
      TradableParts(l, o, fill, price, m);
      TradeExplained(l, o, fill, price, m, marks, kind);
    }
  }

  lemma ExplainedEverywhere()
    ensures Everywhere(Lifted(Explains()))
  {
    hide AllExplained, Everywhere, Clerical, Tradable, AcrossQuiet, Joins, BookTrade, AccountsIn, Lifted;
    var rel := Explains();
    ExplainedBears();
    forall a, b, x | Clerical(a, b, x) ensures rel(AccountsIn(a), AccountsIn(b), x) { ClericalExplains(a, b, x); }
    BearsEverywhere(rel);
  }

  lemma ClericalExplains(a: State, b: State, x: seq<Output>)
    requires Clerical(a, b, x)
    ensures AllExplained(AccountsIn(a).positions, AccountsIn(b).positions, x)
  {
    hide AllExplained, Rerisked;
    ExplainedStill(a.positions, x);
  }

  /**
    Over any run: every announced change of a position is a fill, at the price and of the size of the trade announced before it,
    every credit is the profit that such a fill realizes, and together the changes lead to exactly the positions held.
   */
  lemma ChangesAreFills(st: State, records: seq<Record>, ids: Record -> IdSource)
    requires RuntimeInv(st)
    ensures var r := RuntimeRuns.Run(st, records, ids);
            Explained(st.positions, Tape(0, 0, None), r.outputs) && Applied(st.positions, r.outputs) == r.state.positions
  {
    hide RuntimeInv, RuntimeRuns.Run, Elsewhere, AcrossOrders, Explained, Applied;
    ExplainedEverywhere();
    RunRelated(Lifted(Explains()), st, records, ids);
    var r := RuntimeRuns.Run(st, records, ids);
    Unlifted(Explains(), st, r.state, r.outputs);
    assert AllExplained(st.positions, r.state.positions, r.outputs);
  }

  // ---------- Margin over runs ----------

  ghost predicate Funded(positions: map<Key, Position>) {
    forall k <- positions :: positions[k].margin >= 0
  }

  /** Toward zero, or to it. */
  predicate Shrinks(was: int, now: int) {
    0 <= now <= was || was <= now <= 0
  }

  /** Every announced change of the position shrinks it. */
  ghost predicate OnlyShrinks(positions: map<Key, Position>, outputs: seq<Output>, k: Key)
    decreases |outputs|
  {
    outputs == []
    || (&& (outputs[0].PositionChanged? && outputs[0].key == k ==> Shrinks(PositionAt(positions, k).signed, outputs[0].position.signed))
        && OnlyShrinks(ApplyOne(positions, outputs[0]), outputs[1..], k))
  }

  lemma Larger(a: int, b: int, c: int)
    requires a <= b && c >= 0
    ensures a * c <= b * c
  {
  }

  lemma SharePositive(m: int, amount: int, whole: int)
    requires Share(m, amount, whole) && amount >= 0 && whole > 0
    ensures m >= 0
  {
    if m < 0 { Larger(m + 1, 0, whole); }
  }

  lemma ShareSmaller(m: int, margin: int, part: int, whole: int)
    requires Share(m, margin * part, whole) && margin >= 0 && 0 <= part <= whole && whole > 0
    ensures m <= margin
  {
    Larger(part, whole, margin);
    assert margin * part <= margin * whole < (margin + 1) * whole;
    if m > margin { Larger(margin + 1, m, whole); }
  }

  /** A fill leaves no negative margin, and one that shrinks a position never adds any. */
  lemma MarginStays(p: Position, fill: int, price: int, margin: nat, leverage: int, p': Position)
    requires Filled(p, fill, price, margin, leverage, p') && p.margin >= 0 && fill != 0
    ensures p'.margin >= 0
    ensures Shrinks(p.signed, p'.signed) ==> p'.margin <= p.margin
  {
    hide Share;
    var was, now := p.signed, p.signed + fill;
    if Reducing(was, now) {
      Products(p.margin, Abs(now));
      SharePositive(p'.margin, p.margin * Abs(now), Abs(was));
      ShareSmaller(p'.margin, p.margin, Abs(now), Abs(was));
    } else if Flipping(was, now) {
      Products(margin, Abs(now));
      SharePositive(p'.margin, margin * Abs(now), Abs(fill));
    }
  }

  lemma ChangeMargin(p: Position, tape: Tape, key: Key, p': Position, realized: int)
    requires ByTrade(p, tape, key, p', realized) && p.margin >= 0
    ensures p'.margin >= 0
    ensures Shrinks(p.signed, p'.signed) ==> p'.margin <= p.margin
  {
    hide Filled, Realized;
    var fill: int, margin: nat, leverage: int :| Abs(fill) == tape.quantity && Filled(p, fill, tape.price, margin, leverage, p')
                                                 && Realized(p, fill, tape.price, realized);
    MarginStays(p, fill, tape.price, margin, leverage, p');
  }

  lemma {:induction false} MarginFollows(positions: map<Key, Position>, tape: Tape, outputs: seq<Output>, k: Key)
    requires Explained(positions, tape, outputs) && Funded(positions)
    ensures Funded(Applied(positions, outputs))
    ensures OnlyShrinks(positions, outputs, k) ==> PositionAt(Applied(positions, outputs), k).margin <= PositionAt(positions, k).margin
    decreases |outputs|
  {
    hide ByTrade;
    if outputs != [] {
      match outputs[0]
      case TradeOutput(_, _, price, quantity, _) => MarginFollows(positions, Tape(price, quantity, None), outputs[1..], k);
      case AccountDelta(key, amount) => MarginFollows(positions, tape.(credit := Some((key, amount))), outputs[1..], k);
      case PositionChanged(key, p', realized) =>
        ChangeMargin(PositionAt(positions, key), tape, key, p', realized);
        MarginFollows(positions[key := p'], tape.(credit := None), outputs[1..], k);
      case _ => MarginFollows(positions, tape, outputs[1..], k);
    }
  }

  /** Over any run no margin turns negative, and a position whose announced changes only shrink it never gains margin. */
  lemma ShrinkingNeverGains(st: State, records: seq<Record>, ids: Record -> IdSource, k: Key)
    requires RuntimeInv(st) && Funded(st.positions)
    ensures var r := RuntimeRuns.Run(st, records, ids);
            && Funded(r.state.positions)
            && (OnlyShrinks(st.positions, r.outputs, k) ==>
                  0 <= PositionAt(r.state.positions, k).margin <= PositionAt(st.positions, k).margin)
  {
    hide RuntimeInv, RuntimeRuns.Run, Explained, Applied, OnlyShrinks;
    ChangesAreFills(st, records, ids);
    MarginFollows(st.positions, Tape(0, 0, None), RuntimeRuns.Run(st, records, ids).outputs, k);
  }
}
