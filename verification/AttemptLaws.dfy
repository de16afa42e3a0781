/**
  Whom automatic liquidation and deleveraging pick, in which order, and that they leave nobody out: stated on the fields of
  positions and risks, for every attempt and every counterparty.
 */
module AttemptLaws {
  import opened Types
  import opened CoreSpec
  import opened CoreLaws
  import opened Accounting
  import opened LedgerSpec
  import opened LedgerLaws
  import opened RuntimeSpec
  import opened StoreLaws
  import opened LiquidationLaws
  import opened RuntimeLaws

  // ---------- Automatic liquidation: who, and in which order ----------

  /** An open position of the market that its risk entry calls liquidatable. */
  ghost predicate Due(st: State, market: nat, k: Key) {
    && k.marketId == market && k in st.positions && st.positions[k].signed != 0
    && k in st.risks && st.risks[k].status == Liquidatable && st.risks[k].signed != 0
  }

  /** The size of a position at its mark, or at its average price without a positive mark. */
  function Exposure(p: Position, r: Risk): int {
    (if p.signed < 0 then -p.signed else p.signed) * (if r.mark > 0 then r.mark else p.average)
  }

  /** Lower margin ratio first; then lower equity, then larger exposure, then lower user id. */
  ghost predicate Urgent(st: State, a: Key, b: Key)
    requires a in st.positions && a in st.risks && b in st.positions && b in st.risks
  {
    var x, y, s, t := st.risks[a], st.risks[b], st.positions[a], st.positions[b];
    || x.ratio < y.ratio
    || (x.ratio == y.ratio && x.equity < y.equity)
    || (x.ratio == y.ratio && x.equity == y.equity && Exposure(s, x) > Exposure(t, y))
    || (x.ratio == y.ratio && x.equity == y.equity && Exposure(s, x) == Exposure(t, y) && a.userId < b.userId)
  }

  /** When the i-th attempt was made, every other due position that was not tried before it was less urgent. */
  ghost predicate MostUrgent(attempts: seq<Attempt>, i: nat, market: nat)
    requires i < |attempts|
  {
    var st, key := attempts[i].at, attempts[i].key;
    && Due(st, market, key)
    && forall k :: Due(st, market, k) && k != key && (forall j :: 0 <= j < i ==> attempts[j].key != k) ==> Urgent(st, key, k)
  }

  /** The request that an attempt makes: close the whole position, at no price of its own. */
  function Whole(key: Key, p: Position, ids: OrderIds): Liquidation {
    Liquidation(ids.commandId, ids.clientOrderId, ids.orderId, key, if p.signed < 0 then Sell else Buy,
                if p.signed < 0 then -p.signed else p.signed, 0)
  }

  /** Each attempt is a liquidation of the whole position in the state that the one before it left. */
  ghost predicate CarriedOut(st: State, attempts: seq<Attempt>, before: nat, ids: IdSource, end: State, outputs: seq<Output>)
    decreases |attempts|
  {
    if attempts == [] then end == st && outputs == []
    else
      var key := attempts[0].key;
      && attempts[0].at == st && CoreInv(st.core) && key in st.positions
      && var done := Liquidate(st, Whole(key, st.positions[key], ids(key, before + 1)));
         && done.outputs <= outputs
         && CarriedOut(done.state, attempts[1..], before + 1, ids, end, outputs[|done.outputs|..])
  }

  /** The candidates that are left to try: all due positions not tried yet, in the scan's order. */
  ghost predicate Waiting(st: State, cs: seq<Candidate>, market: nat, attempted: set<Key>) {
    && InOrder(AutoBefore, cs)
    && forall c :: c in cs <==> c.key in AutoKeys(st, market, attempted) && c == Candidate(c.key, st.positions[c.key], st.risks[c.key])
  }

  lemma ScanWaiting(st: State, market: nat, attempted: set<Key>)
    ensures var keys := AutoKeys(st, market, attempted);
            Waiting(st, Ranked(AutoBefore, keys, st.positions, st.risks), market, attempted)
  {
    AutoOrder();
    hide StrictOrder, Ranked, InOrder;
    RankedLaw(AutoBefore, AutoKeys(st, market, attempted), st.positions, st.risks);
  }

  lemma BeforeIsUrgent(st: State, a: Candidate, b: Candidate)
    requires AutoBefore(a, b) && a.key in st.positions && a.key in st.risks && b.key in st.positions && b.key in st.risks
    requires a == Candidate(a.key, st.positions[a.key], st.risks[a.key]) && b == Candidate(b.key, st.positions[b.key], st.risks[b.key])
    ensures Urgent(st, a.key, b.key)
  {
  }

  lemma FirstUrgent(st: State, cs: seq<Candidate>, market: nat, attempts: seq<Attempt>)
    requires cs != [] && Waiting(st, cs, market, Attempted(attempts))
    ensures var tried := attempts + [Attempt(cs[0].key, st)]; MostUrgent(tried, |attempts|, market)
  {
    hide AutoBefore, Urgent;
    var tried, key := attempts + [Attempt(cs[0].key, st)], cs[0].key;
    assert cs[0] in cs;
    forall k | Due(st, market, k) && k != key && (forall j :: 0 <= j < |attempts| ==> tried[j].key != k) ensures Urgent(st, key, k) {
      forall a | a in attempts ensures a.key != k { var j :| 0 <= j < |attempts| && attempts[j] == a; assert tried[j] == a; }
      var c := Candidate(k, st.positions[k], st.risks[k]);
      assert c in cs;
      var i :| 0 <= i < |cs| && cs[i] == c;
      BeforeIsUrgent(st, cs[0], c);
    }
  }

  lemma WaitingTail(st: State, st': State, cs: seq<Candidate>, market: nat, attempts: seq<Attempt>)
    requires cs != [] && Waiting(st, cs, market, Attempted(attempts))
    requires st'.positions == st.positions && st'.risks == st.risks
    ensures Waiting(st', cs[1..], market, Attempted(attempts + [Attempt(cs[0].key, st)]))
  {
    var tried := attempts + [Attempt(cs[0].key, st)];
    AutoOrder();
    OnceInOrder(AutoBefore, cs);
    hide AutoBefore, StrictOrder;
    TriedKeys(attempts, Attempt(cs[0].key, st));
    forall c ensures c in cs[1..] <==>
        c.key in AutoKeys(st', market, Attempted(tried)) && c == Candidate(c.key, st'.positions[c.key], st'.risks[c.key])
    {
      assert cs == [cs[0]] + cs[1..];
      assert cs[0] in cs;
    }
  }

  lemma TriedKeys(attempts: seq<Attempt>, a: Attempt)
    ensures Attempted(attempts + [a]) == Attempted(attempts) + {a.key}
  {
    assert a in attempts + [a];
    forall k | k in Attempted(attempts) ensures k in Attempted(attempts + [a]) {
      var b :| b in attempts && b.key == k;
      assert b in attempts + [a];
    }
  }

  lemma OnceInOrder(before: Order, cs: seq<Candidate>)
    requires StrictOrder(before) && InOrder(before, cs) && cs != []
    ensures cs[0] !in cs[1..] && InOrder(before, cs[1..])
  {
  }

  /** What a scan adds to the attempts: each the most urgent of its moment, carried out one after the other, none left out. */
  ghost predicate Tracked(st: State, attempts: seq<Attempt>, r: AutoResult, market: nat, ids: IdSource) {
    && attempts <= r.attempts
    && (forall i :: |attempts| <= i < |r.attempts| ==> MostUrgent(r.attempts, i, market))
    && CarriedOut(st, r.attempts[|attempts|..], |attempts|, ids, r.state, r.outputs)
    && (|r.attempts| >= 16 || forall k :: Due(r.state, market, k) ==> exists i :: 0 <= i < |r.attempts| && r.attempts[i].key == k)
  }

  lemma NothingTracked(st: State, attempts: seq<Attempt>, market: nat, ids: IdSource)
    requires |attempts| >= 16 || AutoKeys(st, market, Attempted(attempts)) == {}
    ensures Tracked(st, attempts, AutoResult(st, [], attempts), market, ids)
  {
    assert attempts[|attempts|..] == [];
    if |attempts| < 16 {
      forall k | Due(st, market, k) ensures exists i :: 0 <= i < |attempts| && attempts[i].key == k {
        assert k !in AutoKeys(st, market, Attempted(attempts));
      }
    }
  }

  lemma UrgentPrefix(a: seq<Attempt>, b: seq<Attempt>, i: nat, market: nat)
    requires a <= b && i < |a| && MostUrgent(a, i, market)
    ensures MostUrgent(b, i, market)
  {
    hide Urgent;
    var st, key := b[i].at, b[i].key;
    forall k | Due(st, market, k) && k != key && (forall j :: 0 <= j < i ==> b[j].key != k)
      ensures k in st.positions && k in st.risks && Urgent(st, key, k)
    {
      assert forall j :: 0 <= j < i ==> a[j].key == b[j].key;
    }
  }

  lemma TrackedOn(st: State, cs: seq<Candidate>, attempts: seq<Attempt>, r: AutoResult, market: nat, ids: IdSource)
    requires CoreInv(st.core) && cs != [] && Waiting(st, cs, market, Attempted(attempts))
    requires var tried := attempts + [Attempt(cs[0].key, st)];
             var done := Liquidate(st, AutoRequest(cs[0], ids(cs[0].key, |tried|)));
             Tracked(done.state, tried, r, market, ids)
    ensures var tried := attempts + [Attempt(cs[0].key, st)];
            var done := Liquidate(st, AutoRequest(cs[0], ids(cs[0].key, |tried|)));
            Tracked(st, attempts, r.(outputs := done.outputs + r.outputs), market, ids)
  {
    hide CoreInv, Liquidate, MostUrgent, Due, AutoKeys;
    var tried, n := attempts + [Attempt(cs[0].key, st)], |attempts|;
    FirstUrgent(st, cs, market, attempts);
    UrgentPrefix(tried, r.attempts, n, market);
    WholeRequest(st, cs, market, attempts, ids(cs[0].key, n + 1));
    var done := Liquidate(st, AutoRequest(cs[0], ids(cs[0].key, n + 1)));
    var added := r.attempts[n..];
    assert added[0] == tried[n] && added[1..] == r.attempts[n + 1..];
    assert (done.outputs + r.outputs)[|done.outputs|..] == r.outputs;
    assert CarriedOut(st, added, n, ids, r.state, done.outputs + r.outputs);
  }

  lemma WholeRequest(st: State, cs: seq<Candidate>, market: nat, attempts: seq<Attempt>, ids: OrderIds)
    requires cs != [] && Waiting(st, cs, market, Attempted(attempts))
    ensures cs[0].key in st.positions && AutoRequest(cs[0], ids) == Whole(cs[0].key, st.positions[cs[0].key], ids)
  {
    assert cs[0] in cs;
  }

  lemma {:induction false} ScanTracked(st: State, market: nat, ids: IdSource, attempts: seq<Attempt>)
    requires RuntimeInv(st)
    ensures CoreInv(st.core) && Tracked(st, attempts, Scan(st, market, ids, attempts), market, ids)
    decreases MAX_ATTEMPTS - |attempts|, 1
  {
    hide RuntimeInv, TryAll, Ranked, AutoKeys, CoreInv, Tracked, Waiting;
    InvCore(st);
    if |attempts| < MAX_ATTEMPTS {
      KeysListed(st, market, Attempted(attempts));
      ScanWaiting(st, market, Attempted(attempts));
      TryTracked(st, Ranked(AutoBefore, AutoKeys(st, market, Attempted(attempts)), st.positions, st.risks), market, ids, attempts);
    } else {
      NothingTracked(st, attempts, market, ids);
    }
  }

  lemma NobodyWaits(st: State, market: nat, attempts: seq<Attempt>)
    requires Waiting(st, [], market, Attempted(attempts))
    ensures AutoKeys(st, market, Attempted(attempts)) == {}
  {
    forall k | k in st.positions && k in st.risks ensures k !in AutoKeys(st, market, Attempted(attempts)) {
      assert Candidate(k, st.positions[k], st.risks[k]) !in [];
    }
  }

  lemma {:induction false} TryTracked(st: State, cs: seq<Candidate>, market: nat, ids: IdSource, attempts: seq<Attempt>)
    requires RuntimeInv(st) && Waiting(st, cs, market, Attempted(attempts))
    ensures CoreInv(st.core) && Tracked(st, attempts, TryAll(st, cs, market, ids, attempts), market, ids)
    decreases MAX_ATTEMPTS - |attempts|, 0
  {
    hide RuntimeInv, Tracked, Waiting, Scan, Liquidate, CoreInv, AutoRequest, AutoKeys;
    InvCore(st);
    if cs != [] && |attempts| < MAX_ATTEMPTS {
      var tried := attempts + [Attempt(cs[0].key, st)];
      var q := AutoRequest(cs[0], ids(cs[0].key, |tried|));
      LiquidateKeeps(st, q);
      var done := Liquidate(st, q);
      if done.outputs != [] {
        ScanTracked(done.state, market, ids, tried);
        TrackedOn(st, cs, attempts, Scan(done.state, market, ids, tried), market, ids);
      } else {
        WaitingTail(st, done.state, cs, market, attempts);
        TryTracked(done.state, cs[1..], market, ids, tried);
        TrackedOn(st, cs, attempts, TryAll(done.state, cs[1..], market, ids, tried), market, ids);
      }
    } else {
      if cs == [] { NobodyWaits(st, market, attempts); }
      NothingTracked(st, attempts, market, ids);
    }
  }

  /**
    Automatic liquidation tries, each time, the most urgent due position of the market that it has not tried: lower margin
    ratio, else lower equity, else larger exposure, else lower user id.  Each try liquidates the whole position in the state
    that the try before it left.  It stops only after sixteen tries, or when every position still due was tried.
   */
  lemma AutoTracked(st: State, market: nat, ids: IdSource)
    requires RuntimeInv(st)
    ensures CoreInv(st.core)
    ensures var r := AutoLiquidate(st, market, ids);
            && (forall i :: 0 <= i < |r.attempts| ==> MostUrgent(r.attempts, i, market))
            && CarriedOut(st, r.attempts, 0, ids, r.state, r.outputs)
            && (|r.attempts| >= 16 || forall k :: Due(r.state, market, k) ==> exists i :: 0 <= i < |r.attempts| && r.attempts[i].key == k)
  {
    hide RuntimeInv, CoreInv, Scan, MostUrgent, Due;
    ScanTracked(st, market, ids, []);
    var r := AutoLiquidate(st, market, ids);
    assert r.attempts[0..] == r.attempts;
  }

  /** Automatic liquidation of a market was carried out from one state to another, nobody left out. */
  ghost predicate Swept(st: State, market: nat, ids: IdSource, end: State, outputs: seq<Output>) {
    exists attempts: seq<Attempt> ::
      && (forall i :: 0 <= i < |attempts| ==> MostUrgent(attempts, i, market))
      && CarriedOut(st, attempts, 0, ids, end, outputs)
      && (|attempts| >= 16 || forall k :: Due(end, market, k) ==> exists i :: 0 <= i < |attempts| && attempts[i].key == k)
  }

  lemma AutoSwept(st: State, market: nat, ids: IdSource)
    requires RuntimeInv(st)
    ensures CoreInv(st.core)
    ensures var r := AutoLiquidate(st, market, ids); Swept(st, market, ids, r.state, r.outputs)
  {
    hide RuntimeInv, CoreInv, Scan, MostUrgent, Due, CarriedOut;
    AutoTracked(st, market, ids);
  }

  /** The markets were swept one after the other, by ascending id. */
  ghost predicate SweptAll(st: State, markets: set<nat>, ids: IdSource, end: State, outputs: seq<Output>)
    decreases |markets|
  {
    if markets == {} then end == st && outputs == []
    else
      exists m: nat, mid: State, x: seq<Output> ::
        && m in markets && (forall n <- markets :: m <= n)
        && Swept(st, m, ids, mid, x) && x <= outputs
        && SweptAll(mid, markets - {m}, ids, end, outputs[|x|..])
  }

  lemma {:induction false} MarketsSwept(st: State, markets: set<nat>, ids: IdSource)
    requires RuntimeInv(st)
    ensures CoreInv(st.core)
    ensures var r := ScanMarkets(st, markets, ids); SweptAll(st, markets, ids, r.state, r.outputs)
    decreases |markets|
  {
    hide RuntimeInv, CoreInv, AutoLiquidate, Swept, Least, FairAttempts;
    InvCore(st);
    if markets != {} {
      var m := Least(markets);
      var auto := AutoLiquidate(st, m, ids);
      AutoLaw(st, m, ids);
      AutoSwept(st, m, ids);
      MarketsSwept(auto.state, markets - {m}, ids);
      var rest := ScanMarkets(auto.state, markets - {m}, ids);
      assert (auto.outputs + rest.outputs)[|auto.outputs|..] == rest.outputs;
    }
  }

  /** At startup every market with a due position is swept, by ascending id. */
  lemma StartupSwept(st: State, ids: IdSource)
    requires RuntimeInv(st)
    ensures CoreInv(st.core)
    ensures var markets := set k | k in st.risks && Due(st, k.marketId, k) :: k.marketId;
            var r := StartupScan(st, ids); SweptAll(st, markets, ids, r.state, r.outputs)
  {
    hide CoreInv, ScanMarkets, SweptAll, StoreOk, ZeroSum;
    MarketsSwept(st, LiquidatableMarkets(st), ids);
    var markets := set k | k in st.risks && Due(st, k.marketId, k) :: k.marketId;
    assert markets == LiquidatableMarkets(st);
  }

  // ---------- Deleveraging: who, and in which order ----------

  /** A position of another user, on the other side of the market, that its risk entry shows in profit. */
  ghost predicate Counterparty(l: Ledger, key: Key, k: Key) {
    && k in l.positions && k in l.risks && k.marketId == key.marketId && k.userId != key.userId
    && var mine, theirs := PositionAt(l.positions, key).signed, l.positions[k].signed;
       (mine > 0 > theirs || theirs > 0 > mine) && l.risks[k].unrealized > 0
  }

  /** Higher profit first; then higher leverage, lower margin ratio, larger size, lower user id. */
  ghost predicate Preferred(l: Ledger, a: Key, b: Key)
    requires a in l.positions && a in l.risks && b in l.positions && b in l.risks
  {
    var x, y, s, t := l.risks[a], l.risks[b], Abs(l.positions[a].signed), Abs(l.positions[b].signed);
    || x.unrealized > y.unrealized
    || (x.unrealized == y.unrealized && x.leverage > y.leverage)
    || (x.unrealized == y.unrealized && x.leverage == y.leverage && x.ratio < y.ratio)
    || (x.unrealized == y.unrealized && x.leverage == y.leverage && x.ratio == y.ratio && s > t)
    || (x.unrealized == y.unrealized && x.leverage == y.leverage && x.ratio == y.ratio && s == t && a.userId < b.userId)
  }

  /** The candidates are exactly the counterparties, and stand in order of preference. */
  ghost predicate Preference(l: Ledger, key: Key, cs: seq<Candidate>) {
    && (forall c <- cs :: Counterparty(l, key, c.key) && c == Candidate(c.key, l.positions[c.key], l.risks[c.key]))
    && (forall k :: Counterparty(l, key, k) ==> exists i :: 0 <= i < |cs| && cs[i].key == k)
    && (forall i, j :: 0 <= i < j < |cs| ==> Counterparty(l, key, cs[i].key) && Counterparty(l, key, cs[j].key) ==>
                                               Preferred(l, cs[i].key, cs[j].key))
  }

  lemma CandidatesPreferred(l: Ledger, key: Key)
    ensures Preference(l, key, AdlCandidates(key, PositionAt(l.positions, key).signed, l.positions, l.risks))
  {
    AdlOrder();
    hide StrictOrder, Ranked, Abs;
    var signed := PositionAt(l.positions, key).signed;
    var keys := AdlKeys(key, signed, l.positions, l.risks);
    RankedLaw(AdlBefore, keys, l.positions, l.risks);
    var cs := AdlCandidates(key, signed, l.positions, l.risks);
    forall k | Counterparty(l, key, k) ensures exists i :: 0 <= i < |cs| && cs[i].key == k {
      assert k in keys;
      assert Candidate(k, l.positions[k], l.risks[k]) in cs;
    }
    forall i, j | 0 <= i < j < |cs| ensures Preferred(l, cs[i].key, cs[j].key) {
      assert cs[i] in cs && cs[j] in cs;
      assert AdlBefore(cs[i], cs[j]);
    }
  }

  lemma PreferredStrict(l: Ledger, a: Key, b: Key)
    requires a in l.positions && a in l.risks && b in l.positions && b in l.risks
    ensures Preferred(l, a, b) ==> !Preferred(l, b, a)
  {
    hide Abs;
  }

  lemma {:induction false} AvailablePrefix(cs: seq<Candidate>, i: nat, j: nat)
    requires i < j <= |cs|
    ensures AvailableLots(cs[..j]) >= AvailableLots(cs[..i]) + Abs(cs[i].position.signed)
    decreases i
  {
    if i == 0 {
      assert cs[..j][0] == cs[0] && cs[..0] == [];
    } else {
      assert cs[..j][1..] == cs[1..][..j - 1] && cs[..i][1..] == cs[1..][..i - 1];
      AvailablePrefix(cs[1..], i - 1, j - 1);
    }
  }

  /**
    Deleveraging a position takes from a counterparty only after it closed every counterparty that is preferred to it: higher
    profit, else higher leverage, else lower margin ratio, else larger size, else lower user id.
   */
  lemma DeleveragesInOrder(l: Ledger, key: Key, remaining: nat, price: int, marks: Marks, a: Key, b: Key)
    requires LedgerOk(l) && l.pending.Some? && KeyOf(l.pending.value) == key && remaining <= l.pending.value.remaining
    requires PositionAt(l.positions, key).signed != 0 && l.pending.value.side == CloseSide(PositionAt(l.positions, key).signed)
    requires Counterparty(l, key, a) && Counterparty(l, key, b) && Preferred(l, a, b)
    ensures var cs := AdlCandidates(key, PositionAt(l.positions, key).signed, l.positions, l.risks);
            var after := AdlFills(l, cs, remaining, price, marks).ledger.positions;
            PositionAt(after, b).signed != l.positions[b].signed ==> PositionAt(after, a).signed == 0
  {
    hide LedgerOk, Net, AdlFills, AdlCandidates, Preferred, Lined, AdlShare, SignedFill, Walked, Counterparty;
    CounterpartyHeld(l, key, a);
    CounterpartyHeld(l, key, b);
    var signed := PositionAt(l.positions, key).signed;
    var cs := AdlCandidates(key, signed, l.positions, l.risks);
    CandidatesPreferred(l, key);
    CandidatesLined(l, key, signed);
    AdlWalk(l, cs, remaining, price, marks);
    var i :| 0 <= i < |cs| && cs[i].key == a;
    var j :| 0 <= j < |cs| && cs[j].key == b;
    PreferredStrict(l, a, b);
    PreferredSelf(l, a);
    assert i < j;
    assert cs[i] in cs && cs[j] in cs;
    var l' := AdlFills(l, cs, remaining, price, marks).ledger;
    WalkedAt(l, l', cs, remaining, i);
    WalkedAt(l, l', cs, remaining, j);
    Drained(cs, i, j, remaining);
  }

  lemma WalkedAt(l: Ledger, l': Ledger, cs: seq<Candidate>, remaining: nat, i: nat)
    requires l.pending.Some? && Walked(l, l', cs, remaining) && i < |cs|
    ensures PositionAt(l'.positions, cs[i].key).signed
            == cs[i].position.signed + SignedFill(CloseSide(cs[i].position.signed), AdlShare(cs, i, remaining))
  {
    hide AdlShare, AvailableLots;
  }

  lemma CounterpartyHeld(l: Ledger, key: Key, k: Key)
    requires Counterparty(l, key, k)
    ensures k in l.positions && k in l.risks
  {
  }

  lemma PreferredSelf(l: Ledger, a: Key)
    requires a in l.positions && a in l.risks
    ensures !Preferred(l, a, a)
  {
  }

  lemma Drained(cs: seq<Candidate>, i: nat, j: nat, remaining: nat)
    requires i < j < |cs|
    ensures AdlShare(cs, j, remaining) > 0 ==> AdlShare(cs, i, remaining) == Abs(cs[i].position.signed)
    ensures SignedFill(CloseSide(cs[j].position.signed), AdlShare(cs, j, remaining)) == 0 <==> AdlShare(cs, j, remaining) == 0
    ensures cs[i].position.signed + SignedFill(CloseSide(cs[i].position.signed), Abs(cs[i].position.signed)) == 0
  {
    AvailablePrefix(cs, i, j);
  }
}
