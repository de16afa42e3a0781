/** Funding and marking: payments nearly cancel, and equity moves by exactly what is paid. */
module FundingLaws {
  import opened Types
  import opened Sums
  import opened Accounting
  import opened LedgerSpec
  import opened LedgerLaws
  import opened RuntimeSpec

  // ---------- Rounding over a whole market ----------

  ghost function Amounts(e: map<Key, int>, scale: int): map<Key, int>
    requires scale > 0
  {
    map k | k in e :: -TruncDiv(e[k], scale)
  }

  ghost function Gainers(e: map<Key, int>): set<Key> {
    set k | k in e && e[k] > 0
  }

  ghost function Losers(e: map<Key, int>): set<Key> {
    set k | k in e && e[k] < 0
  }

  lemma WithoutKey(e: map<Key, int>, k: Key)
    requires k in e
    ensures |Gainers(e)| == |Gainers(e - {k})| + if e[k] > 0 then 1 else 0
    ensures |Losers(e)| == |Losers(e - {k})| + if e[k] < 0 then 1 else 0
  {
    assert Gainers(e) == Gainers(e - {k}) + if e[k] > 0 then {k} else {};
    assert Losers(e) == Losers(e - {k}) + if e[k] < 0 then {k} else {};
  }

  /** Truncation leaves less than one unit per position, on the side of the position's sign. */
  lemma {:induction false} RoundingBound(e: map<Key, int>, scale: int)
    requires scale > 0
    ensures var d := scale * Sum(Amounts(e, scale)) + Sum(e);
            -(scale - 1) * |Losers(e)| <= d <= (scale - 1) * |Gainers(e)|
    decreases |e|
  {
    if e != map[] {
      var k := Pick(e);
      var a, e' := Amounts(e, scale), e - {k};
      assert Amounts(e', scale) == a - {k};
      SumSplit(e, k);
      SumSplit(a, k);
      WithoutKey(e, k);
      RoundingBound(e', scale);
      OneRounding(e[k], scale);
      BoundStep(scale, Sum(a - {k}), a[k], Sum(e'), e[k], |Gainers(e')|, |Losers(e')|);
    }
  }

  lemma OneRounding(x: int, scale: int)
    requires scale > 0
    ensures var d := scale * -TruncDiv(x, scale) + x;
            && (x > 0 ==> 0 <= d <= scale - 1)
            && (x < 0 ==> -(scale - 1) <= d <= 0)
            && (x == 0 ==> d == 0)
  {
    hide TruncDiv;
    TruncDivLaw(x, scale);
    assert scale * -TruncDiv(x, scale) == -(TruncDiv(x, scale) * scale);
  }

  lemma BoundStep(scale: int, rest: int, a: int, sum: int, x: int, gainers: nat, losers: nat)
    requires scale > 0
    requires -(scale - 1) * losers <= scale * rest + sum <= (scale - 1) * gainers
    requires x > 0 ==> 0 <= scale * a + x <= scale - 1
    requires x < 0 ==> -(scale - 1) <= scale * a + x <= 0
    requires x == 0 ==> scale * a + x == 0
    ensures var d := scale * (a + rest) + (x + sum);
            && -(scale - 1) * (losers + if x < 0 then 1 else 0) <= d
            && d <= (scale - 1) * (gainers + if x > 0 then 1 else 0)
  {
    assert scale * (a + rest) == scale * a + scale * rest;
    assert (scale - 1) * (gainers + 1) == (scale - 1) * gainers + (scale - 1);
    assert -(scale - 1) * (losers + 1) == -(scale - 1) * losers - (scale - 1);
  }

  /** Scaling every value scales the sum. */
  lemma {:induction false} SumScale(f: map<Key, int>, c: int)
    ensures Sum(map k | k in f :: f[k] * c) == Sum(f) * c
    decreases |f|
  {
    var g := map k | k in f :: f[k] * c;
    if f != map[] {
      var k := Pick(f);
      SumSplit(f, k);
      SumSplit(g, k);
      SumScale(f - {k}, c);
      assert g - {k} == map j | j in f - {k} :: (f - {k})[j] * c;
      assert (f[k] + Sum(f - {k})) * c == f[k] * c + Sum(f - {k}) * c;
    } else {
      assert g == map[];
    }
  }

  /** Entries of zero do not count. */
  lemma {:induction false} SumNonZero(f: map<Key, int>)
    ensures Sum(map k | k in f && f[k] != 0 :: f[k]) == Sum(f)
    decreases |f|
  {
    var g := map k | k in f && f[k] != 0 :: f[k];
    if f != map[] {
      var k := Pick(f);
      SumSplit(f, k);
      SumNonZero(f - {k});
      var g' := map j | j in f - {k} && (f - {k})[j] != 0 :: (f - {k})[j];
      if f[k] != 0 {
        SumSplit(g, k);
        assert g - {k} == g';
      } else {
        assert g == g';
      }
    } else {
      assert g == map[];
    }
  }

  // ---------- Funding payments ----------

  ghost function Longs(positions: map<Key, Position>, marketId: nat): set<Key> {
    set k | k in positions && k.marketId == marketId && positions[k].signed > 0
  }

  ghost function Shorts(positions: map<Key, Position>, marketId: nat): set<Key> {
    set k | k in positions && k.marketId == marketId && positions[k].signed < 0
  }

  /** What each holding of a market is exposed to, before division by the rate's scale. */
  ghost function Exposures(positions: map<Key, Position>, marketId: nat, factor: int): map<Key, int> {
    map k | k in Holdings(positions, marketId) :: Holdings(positions, marketId)[k] * factor
  }

  lemma PaymentsAreAmounts(st: State, marketId: nat, rate: FundingRate)
    requires rate.scale > 0 && marketId in st.marks
    ensures var a := Amounts(Exposures(st.positions, marketId, st.marks[marketId] * rate.rate), rate.scale);
            Payments(st, marketId, rate) == map k | k in a && a[k] != 0 :: a[k]
  {
    var mark := st.marks[marketId];
    var a := Amounts(Exposures(st.positions, marketId, mark * rate.rate), rate.scale);
    var payments := Payments(st, marketId, rate);
    forall k | k in st.positions && k.marketId == marketId
      ensures k in a && a[k] == Payment(st.positions[k], mark, rate)
    {
      Regroup(st.positions[k].signed, mark, rate.rate);
    }
    forall k ensures k in payments <==> k in a && a[k] != 0 {
      if k in st.positions && k.marketId == marketId && st.positions[k].signed == 0 { ZeroPays(rate.scale, mark, rate.rate); }
    }
  }

  lemma Regroup(s: int, m: int, r: int)
    ensures s * m * r == s * (m * r)
  {
  }

  lemma ZeroPays(scale: int, mark: int, rate: int)
    requires scale > 0
    ensures 0 * mark * rate == 0 && TruncDiv(0, scale) == 0
  {
  }

  lemma SidesOfExposure(positions: map<Key, Position>, marketId: nat, factor: int)
    ensures var e := Exposures(positions, marketId, factor);
            var most := Max(|Longs(positions, marketId)|, |Shorts(positions, marketId)|);
            |Gainers(e)| <= most && |Losers(e)| <= most
  {
    var e := Exposures(positions, marketId, factor);
    forall k <- e ensures e[k] == positions[k].signed * factor && k in positions && k.marketId == marketId { }
    forall k <- e ensures Sign(e[k]) == Sign(positions[k].signed) * Sign(factor) { SignProduct(positions[k].signed, factor); }
    if factor > 0 {
      assert Gainers(e) == Longs(positions, marketId);
      assert Losers(e) == Shorts(positions, marketId);
    } else if factor < 0 {
      assert Gainers(e) == Shorts(positions, marketId);
      assert Losers(e) == Longs(positions, marketId);
    } else {
      assert Gainers(e) == {} && Losers(e) == {};
    }
  }

  function Sign(x: int): int {
    if x > 0 then 1 else if x < 0 then -1 else 0
  }

  lemma SignProduct(a: int, b: int)
    ensures Sign(a * b) == Sign(a) * Sign(b)
  {
    if a > 0 && b > 0 { assert a * b > 0; }
    if a > 0 && b < 0 { assert a * -b > 0; }
    if a < 0 && b > 0 { assert -a * b > 0; }
    if a < 0 && b < 0 { assert -a * -b > 0; }
  }

  /**
    With a mark price, an interval's payments sum to less in size than the number of open positions on the larger side:
    rounding is all that does not cancel, because the positions themselves sum to zero.
   */
  lemma PaymentsNearlyCancel(st: State, marketId: nat, rate: FundingRate)
    requires rate.scale > 0 && marketId in st.marks && ZeroSum(st.positions)
    requires exists k :: Open(st.positions, marketId, k)
    ensures Abs(Sum(Payments(st, marketId, rate)))
            < Max(|Longs(st.positions, marketId)|, |Shorts(st.positions, marketId)|)
  {
    hide Payments, Amounts, Gainers, Losers, Longs, Shorts, Open;
    var factor := st.marks[marketId] * rate.rate;
    var e := Exposures(st.positions, marketId, factor);
    var a := Amounts(e, rate.scale);
    PaymentsAreAmounts(st, marketId, rate);
    SumNonZero(a);
    SumScale(Holdings(st.positions, marketId), factor);
    assert Net(st.positions, marketId) == 0;
    assert Sum(e) == 0;
    RoundingBound(e, rate.scale);
    SidesOfExposure(st.positions, marketId, factor);
    OpenSide(st, marketId);
    Divide(rate.scale, Sum(a), |Gainers(e)|, |Losers(e)|,
           Max(|Longs(st.positions, marketId)|, |Shorts(st.positions, marketId)|));
  }

  lemma OpenSide(st: State, marketId: nat)
    requires exists k :: Open(st.positions, marketId, k)
    ensures Max(|Longs(st.positions, marketId)|, |Shorts(st.positions, marketId)|) > 0
  {
    var k :| Open(st.positions, marketId, k);
    assert k in Longs(st.positions, marketId) || k in Shorts(st.positions, marketId);
  }

  lemma Divide(scale: int, sum: int, gainers: nat, losers: nat, most: int)
    requires scale > 0 && gainers <= most && losers <= most && most > 0
    requires -(scale - 1) * losers <= scale * sum <= (scale - 1) * gainers
    ensures Abs(sum) < most
  {
    var a, b, m := (scale - 1) * gainers, (scale - 1) * losers, (scale - 1) * most;
    Grows(scale - 1, gainers, most);
    Grows(scale - 1, losers, most);
    assert m == scale * most - most;
    NegatedLeft(scale - 1, losers);
    Negated(scale, sum);
    ScaleStrict(sum, most, scale);
    ScaleStrict(-sum, most, scale);
  }

  lemma Grows(k: int, a: int, b: int)
    requires k >= 0 && a <= b
    ensures k * a <= k * b
  {
  }

  lemma NegatedLeft(a: int, q: int)
    ensures -a * q == -(a * q)
  {
  }

  lemma ScaleStrict(a: int, b: int, scale: int)
    requires scale > 0
    ensures scale * a < scale * b ==> a < b
  {
    if a >= b { assert scale * a >= scale * b; }
  }

  // ---------- What marks and payments do to risk ----------

  /** A mark moves unrealized profit only: equity less margin and unrealized profit stays, and risks keep agreeing. */
  lemma MarkLaw(st: State, marketId: nat, mark: int)
    requires RisksOk(st.positions, st.risks)
    ensures var risks := Remark(st, marketId, mark);
            && RisksOk(st.positions, risks)
            && (forall k <- st.risks :: Adjustment(risks[k]) == Adjustment(st.risks[k]))
            && (forall k <- st.risks :: !Open(st.positions, marketId, k) ==> risks[k] == st.risks[k])
            && (forall k <- st.risks :: Open(st.positions, marketId, k) ==> risks[k].mark == mark)
  {
    hide RiskAgrees, RiskOf, Adjustment;
    var risks := Remark(st, marketId, mark);
    assert risks.Keys == st.risks.Keys;
    forall k <- st.risks
      ensures RiskAgrees(st.positions[k], risks[k]) && Adjustment(risks[k]) == Adjustment(st.risks[k])
      ensures Open(st.positions, marketId, k) ==> risks[k].mark == mark
    {
      if Open(st.positions, marketId, k) {
        RiskOfAgrees(st.positions[k], mark, Adjustment(st.risks[k]));
        RiskMark(st.positions[k], mark, Adjustment(st.risks[k]));
      }
    }
  }

  lemma RiskMark(p: Position, mark: int, adjustment: int)
    ensures RiskOf(p, mark, adjustment).mark == mark
  {
  }

  lemma PaidRiskLaw(p: Position, mark: int, adjustment: int, amount: int)
    ensures var r := PaidRisk(p, mark, adjustment, amount);
            RiskAgrees(p, r) && Adjustment(r) == adjustment + amount
  {
    hide MaintenanceMargin, MarginRatio, Unrealized;
  }

  /** A settlement moves each paid position's equity, beyond margin and unrealized profit, by exactly its payment. */
  lemma PayLaw(st: State, marketId: nat, payments: map<Key, int>)
    requires RisksOk(st.positions, st.risks) && payments.Keys <= st.positions.Keys
    ensures var risks := PayRisks(st, marketId, payments);
            && RisksOk(st.positions, risks)
            && (forall k <- st.risks :: Adjustment(risks[k]) == Adjustment(st.risks[k]) + if k in payments then payments[k] else 0)
            && (forall k <- st.risks :: k !in payments ==> risks[k] == st.risks[k])
  {
    hide RiskAgrees, PaidRisk, Adjustment;
    var risks := PayRisks(st, marketId, payments);
    assert risks.Keys == st.risks.Keys;
    forall k <- st.risks
      ensures RiskAgrees(st.positions[k], risks[k])
      ensures Adjustment(risks[k]) == Adjustment(st.risks[k]) + if k in payments then payments[k] else 0
    {
      if k in payments {
        PaidRiskLaw(st.positions[k], SettlementMark(st.positions[k], st.marks, marketId), Adjustment(st.risks[k]),
                    payments[k]);
      }
    }
  }
}
