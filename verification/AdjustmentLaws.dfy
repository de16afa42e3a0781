/**
  What funding leaves in a position's equity.  The part of equity that is neither margin nor unrealized profit is what
  funding paid since the position's last announced fill: every fill computes the risk anew and forgets earlier payments.
 */
module AdjustmentLaws {
  import opened Types
  import opened CoreSpec
  import opened Accounting
  import opened LedgerSpec
  import opened LedgerLaws
  import opened RuntimeSpec
  import opened StoreLaws
  import opened RuntimeRuns
  import opened RuntimeSteps
  import opened Bookings

  /** What one output does to a position's adjustment. */
  function CarryOne(sum: int, o: Output, k: Key): int {
    if o.PositionChanged? && o.key == k then 0
    else if o.FundingPaid? && k in o.payments then sum + o.payments[k]
    else sum
  }

  /** The payments to a position since its last announced fill, starting from a sum. */
  function PaidSinceFill(sum: int, outputs: seq<Output>, k: Key): int
    decreases |outputs|
  {
    if outputs == [] then sum else PaidSinceFill(CarryOne(sum, outputs[0], k), outputs[1..], k)
  }

  /** In every position, adjustments moved as the outputs say. */
  ghost predicate Adjusts(a: map<Key, Risk>, b: map<Key, Risk>, outputs: seq<Output>) {
    forall k :: Carried(b, k) == PaidSinceFill(Carried(a, k), outputs, k)
  }

  lemma {:induction false} PaidAppend(sum: int, a: seq<Output>, b: seq<Output>, k: Key)
    ensures PaidSinceFill(sum, a + b, k) == PaidSinceFill(PaidSinceFill(sum, a, k), b, k)
    decreases |a|
  {
    hide CarryOne;
    if a == [] {
      assert a + b == b;
    } else {
      assert (a + b)[1..] == a[1..] + b;
      PaidAppend(CarryOne(sum, a[0], k), a[1..], b, k);
    }
  }

  lemma AdjustsTwice(a: map<Key, Risk>, b: map<Key, Risk>, c: map<Key, Risk>, x: seq<Output>, y: seq<Output>)
    requires Adjusts(a, b, x) && Adjusts(b, c, y)
    ensures Adjusts(a, c, x + y)
  {
    hide Carried, PaidSinceFill;
    forall k ensures Carried(c, k) == PaidSinceFill(Carried(a, k), x + y, k) { PaidAppend(Carried(a, k), x, y, k); }
  }

  lemma {:induction false} NothingPaid(sum: int, outputs: seq<Output>, k: Key)
    requires forall o <- outputs :: !o.PositionChanged? && !o.FundingPaid?
    ensures PaidSinceFill(sum, outputs, k) == sum
    decreases |outputs|
  {
    if outputs != [] {
      assert outputs[0] in outputs;
      NothingPaid(sum, outputs[1..], k);
    }
  }

  lemma AdjustsStill(a: map<Key, Risk>, outputs: seq<Output>)
    requires forall o <- outputs :: !o.PositionChanged? && !o.FundingPaid?
    ensures Adjusts(a, a, outputs)
  {
    hide PaidSinceFill, Carried;
    forall k ensures Carried(a, k) == PaidSinceFill(Carried(a, k), outputs, k) { NothingPaid(Carried(a, k), outputs, k); }
  }

  // ---------- Trades ----------

  /** A fill leaves nothing of earlier payments. */
  lemma FillForgets(risks: map<Key, Risk>, key: Key, p: Position, mark: int, realized: int)
    ensures var x := (if realized != 0 then [AccountDelta(key, realized)] else []) + [PositionChanged(key, p, realized)];
            Adjusts(risks, risks[key := RiskOf(p, mark, 0)], x)
  {
    hide RiskOf, Adjustment;
    RiskOfAgrees(p, mark, 0);
    var changed := [PositionChanged(key, p, realized)];
    var credit := if realized != 0 then [AccountDelta(key, realized)] else [];
    AdjustsStill(risks, credit);
    forall k ensures Carried(risks[key := RiskOf(p, mark, 0)], k) == PaidSinceFill(Carried(risks, k), changed, k) {
      assert changed[1..] == [];
    }
    AdjustsTwice(risks, risks, risks[key := RiskOf(p, mark, 0)], credit, changed);
  }

  lemma SideAdjusts(l: Ledger, orderId: nat, fill: nat, price: int, marks: Marks)
    ensures var b := BookSide(l, orderId, fill, price, marks); Adjusts(l.risks, b.ledger.risks, b.outputs)
  {
    hide Adjusts, ApplyFill, RiskOf, AllocateMargin, RealizedPnl;
    var found := Find(l, orderId);
    if found.None? {
      AdjustsStill(l.risks, []);
    } else {
      var md := found.value;
      var key, signed := Key(md.userId, md.marketId), SignedFill(md.side, fill);
      var p := PositionAt(l.positions, key);
      FillForgets(l.risks, key, ApplyFill(p, md.leverage, signed, price, AllocateMargin(md, fill, price).0),
                  MarkFor(marks, md.marketId, price), RealizedPnl(p, signed, price));
    }
  }

  lemma TradeAdjusts(l: Ledger, makerId: nat, takerId: nat, fill: nat, price: int, marks: Marks, kind: CommandKind)
    ensures var b := BookTrade(l, makerId, takerId, fill, price, marks, kind); Adjusts(l.risks, b.ledger.risks, b.outputs)
  {
    hide Adjusts, BookSide, Settlements;
    var x := BookSide(l, makerId, fill, price, marks);
    var y := BookSide(x.ledger, takerId, fill, price, marks);
    var b := BookTrade(l, makerId, takerId, fill, price, marks, kind);
    var trade := [b.outputs[0]];
    AdjustsStill(l.risks, trade);
    SideAdjusts(l, makerId, fill, price, marks);
    SideAdjusts(x.ledger, takerId, fill, price, marks);
    AdjustsTwice(l.risks, l.risks, x.ledger.risks, trade, x.outputs);
    AdjustsTwice(l.risks, x.ledger.risks, y.ledger.risks, trade + x.outputs, y.outputs);
  }

  // ---------- Marks and payments ----------

  lemma RemarkCarries(st: State, m: nat, mark: int, k: Key)
    ensures Carried(Remark(st, m, mark), k) == Carried(st.risks, k)
  {
    hide RiskOf, Adjustment;
    if Open(st.positions, m, k) { RiskOfAgrees(st.positions[k], mark, Carried(st.risks, k)); }
  }

  lemma PaidAdjustment(p: Position, mark: int, adjustment: int, amount: int)
    ensures Adjustment(PaidRisk(p, mark, adjustment, amount)) == adjustment + amount
  {
    hide MaintenanceMargin, MarginRatio, Unrealized;
  }

  lemma PayCarries(st: State, m: nat, payments: map<Key, int>, k: Key)
    requires payments.Keys <= st.positions.Keys
    ensures Carried(PayRisks(st, m, payments), k) == Carried(st.risks, k) + if k in payments then payments[k] else 0
  {
    hide PaidRisk, Adjustment, SettlementMark;
    if k in payments {
      PaidAdjustment(st.positions[k], SettlementMark(st.positions[k], st.marks, m), Carried(st.risks, k), payments[k]);
    }
  }

  lemma ClericalAdjusts(a: State, b: State, x: seq<Output>)
    requires Clerical(a, b, x)
    ensures Adjusts(AccountsIn(a).risks, AccountsIn(b).risks, x)
  {
    hide Remark, PayRisks, Carried;
    if m: nat, interval: string, payments: map<Key, int> :| PaidOut(a, b, x, m, interval, payments) {
      forall k ensures Carried(b.risks, k) == PaidSinceFill(Carried(a.risks, k), x, k) {
        PayCarries(a, m, payments, k);
        assert x[1..] == [];
      }
    } else {
      AdjustsStill(a.risks, x);
      if b.risks != a.risks {
        var m: nat, mark: int :| Marked(a, b, m, mark);
        forall k ensures Carried(b.risks, k) == Carried(a.risks, k) { RemarkCarries(a, m, mark, k); }
      }
    }
  }

  // ---------- Runs ----------

  ghost function Adjusting(): Bearing {
    (a: Accounts, b: Accounts, x: seq<Output>) => Adjusts(a.risks, b.risks, x)
  }

  lemma AdjustsEverywhere()
    ensures Everywhere(Lifted(Adjusting()))
  {
    hide Adjusts, Everywhere, Clerical, Tradable, AcrossQuiet, Joins, BookTrade, AccountsIn, Lifted;
    var rel := Adjusting();
    AdjustsBears();
    forall a, b, x | Clerical(a, b, x) ensures rel(AccountsIn(a), AccountsIn(b), x) { ClericalAdjusts(a, b, x); }
    BearsEverywhere(rel);
  }

  lemma AdjustsBears()
    ensures Bears(Adjusting())
  {
    hide Adjusts, Tradable, BookTrade;
    var rel := Adjusting();
    forall a, b, c, x, y | rel(a, b, x) && rel(b, c, y) ensures rel(a, c, x + y) { AdjustsTwice(a.risks, b.risks, c.risks, x, y); }
    forall a, x | forall o <- x :: Quiet(o) ensures rel(a, a, x) { AdjustsStill(a.risks, x); }
    forall l: Ledger, o: OrderSnapshot, fill: nat, price: int, m: nat, marks: Marks, kind: CommandKind | Tradable(l, o, fill, price, m)
      ensures TradeBears(rel, l, o, fill, price, marks, kind)
    {
      TradableParts(l, o, fill, price, m);
      TradeAdjusts(l, o.orderId, l.pending.value.orderId, fill, price, marks, kind);
    }
  }

  /**
    Over any run: the part of a position's equity that is neither margin nor unrealized profit is what funding paid to it since
    its last announced fill, on top of what it was before the run if it was not filled.
   */
  lemma AdjustmentIsFunding(st: State, records: seq<Record>, ids: Record -> IdSource, k: Key)
    requires RuntimeInv(st)
    ensures var r := RuntimeRuns.Run(st, records, ids);
            k in r.state.risks ==>
              Adjustment(r.state.risks[k]) == PaidSinceFill(Carried(st.risks, k), r.outputs, k)
  {
    hide RuntimeInv, RuntimeRuns.Run, Elsewhere, AcrossOrders, PaidSinceFill, Adjustment;
    AdjustsEverywhere();
    RunRelated(Lifted(Adjusting()), st, records, ids);
    var r := RuntimeRuns.Run(st, records, ids);
    Unlifted(Adjusting(), st, r.state, r.outputs);
    assert Carried(r.state.risks, k) == PaidSinceFill(Carried(st.risks, k), r.outputs, k);
  }
}
