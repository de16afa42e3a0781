/**
  What a risk entry says about its position, and when: maintenance margin is a twentieth of the notional, the margin ratio is
  equity over it in basis points, and an open position is liquidatable exactly at or below maintenance, at the current mark.
 */
module RiskLaws {
  import opened Types
  import opened Accounting
  import opened LedgerSpec
  import opened LedgerLaws
  import opened RuntimeSpec
  import opened StoreLaws
  import opened RuntimeRuns
  import opened RuntimeSteps
  import opened Bookings
  import opened MarginLaws
  import opened AdjustmentLaws
  import opened FundingLaws

  // ---------- One entry ----------

  /** The ratio in basis points, rounded toward zero; none without a maintenance margin. */
  predicate InBasisPoints(ratio: int, equity: int, maintenance: int) {
    && (maintenance == 0 ==> ratio == 0)
    && (maintenance > 0 && equity >= 0 ==> Share(ratio, equity * 10_000, maintenance))
    && (maintenance > 0 && equity <= 0 ==> Share(-ratio, -equity * 10_000, maintenance))
  }

  /** A risk entry of a position, with what funding left in its equity. */
  predicate Sound(p: Position, r: Risk, funding: int) {
    && r.signed == p.signed && r.average == p.average && r.margin == p.margin && r.leverage == p.leverage
    && r.unrealized == (r.mark - p.average) * p.signed
    && r.equity == p.margin + r.unrealized + funding
    && (r.mark >= 0 ==> Share(r.maintenance, Abs(p.signed) * r.mark, 20) && r.maintenance >= 0)
    && InBasisPoints(r.ratio, r.equity, r.maintenance)
    && (r.status == Flat <==> p.signed == 0)
    && (r.status == Liquidatable <==> p.signed != 0 && r.equity <= r.maintenance)
  }

  lemma RatioLaw(equity: int, maintenance: int)
    ensures InBasisPoints(MarginRatio(equity, maintenance), equity, maintenance)
  {
    hide Share;
    if maintenance > 0 {
      if equity >= 0 { SharedOut(equity * 10_000, maintenance); }
      if equity <= 0 {
        SharedOut(-equity * 10_000, maintenance);
        Mirrored(equity * 10_000, maintenance);
        assert -equity * 10_000 == -(equity * 10_000);
      }
    }
  }

  lemma Mirrored(a: int, b: int)
    requires b > 0
    ensures TruncDiv(-a, b) == -TruncDiv(a, b)
  {
  }

  lemma SoundEntry(p: Position, r: Risk)
    requires RiskAgrees(p, r)
    ensures Sound(p, r, Adjustment(r))
  {
    hide Share, TruncDiv, MarginRatio, InBasisPoints;
    RatioLaw(r.equity, r.maintenance);
    if r.mark >= 0 {
      Products(Abs(p.signed), r.mark);
      SharedOut(Abs(p.signed) * r.mark, 20);
    }
  }

  // ---------- At which mark ----------

  /** Open positions are valued at their market's mark, where it has one. */
  ghost predicate Current(a: Accounts) {
    forall k <- a.positions :: a.positions[k].signed != 0 && k.marketId in a.marks ==>
      k in a.risks && a.risks[k].mark == a.marks[k.marketId]
  }

  lemma SideCurrent(l: Ledger, orderId: nat, fill: nat, price: int, marks: Marks)
    requires Current(AccountsOf(l, marks))
    ensures Current(AccountsOf(BookSide(l, orderId, fill, price, marks).ledger, marks))
  {
    hide ApplyFill, RealizedPnl, RiskOf, AllocateMargin;
    var found := Find(l, orderId);
    if found.Some? {
      var md := found.value;
      var p, taken := PositionAt(l.positions, Key(md.userId, md.marketId)), AllocateMargin(md, fill, price).0;
      RiskMark(ApplyFill(p, md.leverage, SignedFill(md.side, fill), price, taken), MarkFor(marks, md.marketId, price), 0);
    }
  }

  lemma TradeCurrent(l: Ledger, makerId: nat, takerId: nat, fill: nat, price: int, marks: Marks, kind: CommandKind)
    requires Current(AccountsOf(l, marks))
    ensures Current(AccountsOf(BookTrade(l, makerId, takerId, fill, price, marks, kind).ledger, marks))
  {
    hide Current, BookSide, Settlements;
    SideCurrent(l, makerId, fill, price, marks);
    SideCurrent(BookSide(l, makerId, fill, price, marks).ledger, takerId, fill, price, marks);
  }

  lemma ClericalCurrent(a: State, b: State, x: seq<Output>)
    requires Clerical(a, b, x) && Current(AccountsIn(a))
    ensures Current(AccountsIn(b))
  {
    hide Remark, PayRisks;
    if b.risks == a.risks && b.marks == a.marks {
    } else if m: nat, mark: int :| Marked(a, b, m, mark) {
      RemarkCurrent(a, m, mark);
    } else {
      var m: nat, interval: string, payments: map<Key, int> :| PaidOut(a, b, x, m, interval, payments);
      PaidCurrent(a, m, payments);
    }
  }

  lemma RemarkCurrent(a: State, m: nat, mark: int)
    requires Current(AccountsIn(a))
    ensures Current(Accounts(a.positions, Remark(a, m, mark), a.marks[m := mark]))
  {
    hide RiskOf, Adjustment;
    var risks := Remark(a, m, mark);
    forall k <- a.positions | a.positions[k].signed != 0 && k.marketId in a.marks[m := mark]
      ensures k in risks && risks[k].mark == a.marks[m := mark][k.marketId]
    {
      RiskMark(a.positions[k], mark, Carried(a.risks, k));
    }
  }

  lemma PaidCurrent(a: State, m: nat, payments: map<Key, int>)
    requires Current(AccountsIn(a)) && payments.Keys <= a.positions.Keys
    requires forall k <- payments :: k.marketId == m
    ensures Current(Accounts(a.positions, PayRisks(a, m, payments), a.marks))
  {
    hide PaidRisk, Adjustment;
    var risks := PayRisks(a, m, payments);
    forall k <- a.positions | a.positions[k].signed != 0 && k.marketId in a.marks
      ensures k in risks && risks[k].mark == a.marks[k.marketId]
    {
      if k in payments {
        PaidMark(a.positions[k], SettlementMark(a.positions[k], a.marks, m), Carried(a.risks, k), payments[k]);
      }
    }
  }

  lemma PaidMark(p: Position, mark: int, adjustment: int, amount: int)
    ensures PaidRisk(p, mark, adjustment, amount).mark == mark
  {
  }

  // ---------- Runs ----------

  ghost function KeepsCurrent(): Bearing {
    (a: Accounts, b: Accounts, x: seq<Output>) => Current(a) ==> Current(b)
  }

  lemma CurrentEverywhere()
    ensures Everywhere(Lifted(KeepsCurrent()))
  {
    hide Current, Everywhere, Clerical, Tradable, AcrossQuiet, Joins, BookTrade, AccountsIn, Lifted;
    var rel := KeepsCurrent();
    CurrentBears();
    forall a, b, x | Clerical(a, b, x) ensures rel(AccountsIn(a), AccountsIn(b), x) {
      if Current(AccountsIn(a)) { ClericalCurrent(a, b, x); }
    }
    BearsEverywhere(rel);
  }

  lemma CurrentBears()
    ensures Bears(KeepsCurrent())
  {
    hide Current, Tradable, BookTrade;
    var rel := KeepsCurrent();
    forall l: Ledger, o: OrderSnapshot, fill: nat, price: int, m: nat, marks: Marks, kind: CommandKind | Tradable(l, o, fill, price, m)
      ensures TradeBears(rel, l, o, fill, price, marks, kind)
    {
      TradableParts(l, o, fill, price, m);
      if Current(AccountsOf(l, marks)) { TradeCurrent(l, o.orderId, l.pending.value.orderId, fill, price, marks, kind); }
    }
  }

  /**
    Over any run: every position has a risk entry that is sound, with the funding paid since its last announced fill in its
    equity; and every open position of a marked market is valued at that market's mark.
   */
  lemma RisksSound(st: State, records: seq<Record>, ids: Record -> IdSource, k: Key)
    requires RuntimeInv(st) && Current(AccountsIn(st))
    ensures var r := RuntimeRuns.Run(st, records, ids);
            k in r.state.positions ==>
              && k in r.state.risks
              && Sound(r.state.positions[k], r.state.risks[k], PaidSinceFill(Carried(st.risks, k), r.outputs, k))
              && (r.state.positions[k].signed != 0 && k.marketId in r.state.marks ==>
                    r.state.risks[k].mark == r.state.marks[k.marketId])
  {
    hide RuntimeInv, RuntimeRuns.Run, Elsewhere, AcrossOrders, PaidSinceFill, Adjustment, Sound, RiskAgrees;
    CurrentEverywhere();
    RunRelated(Lifted(KeepsCurrent()), st, records, ids);
    var r := RuntimeRuns.Run(st, records, ids);
    Unlifted(KeepsCurrent(), st, r.state, r.outputs);
    assert Current(AccountsIn(r.state));
    AdjustmentIsFunding(st, records, ids, k);
    RisksOf(r.state);
    if k in r.state.positions { SoundEntry(r.state.positions[k], r.state.risks[k]); }
  }

  lemma RisksOf(st: State)
    requires RuntimeInv(st)
    ensures RisksOk(st.positions, st.risks)
  {
    hide StoreOk, ZeroSum, RisksOk;
  }
}
