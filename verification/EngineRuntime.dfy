/** The runtime object: fields updated in place by one method per kind of input. */
module EngineRuntimes {
  import opened Types
  import opened BookSpec
  import opened CoreSpec
  import opened CoreLaws
  import opened Accounting
  import opened LedgerSpec
  import opened LedgerLaws
  import opened RuntimeSpec
  import opened StoreLaws
  import opened LiquidationLaws
  import opened RuntimeLaws
  import opened RuntimeRuns

  // ---------- Rankings ----------

  lemma RankingTail(before: Order, cs: seq<Candidate>, x: Candidate)
    requires StrictOrder(before) && InOrder(before, cs) && cs != []
    ensures x in cs[1..] <==> x in cs && x != cs[0]
  {
    assert cs == [cs[0]] + cs[1..];
    if x in cs[1..] {
      var i :| 0 <= i < |cs[1..]| && cs[1..][i] == x;
      assert before(cs[0], cs[i + 1]);
    }
  }

  lemma SomeMember(cs: seq<Candidate>)
    requires cs != []
    ensures exists x :: x in cs
  {
    assert cs[0] in cs;
  }

  /** Two rankings of the same candidates are one. */
  lemma {:induction false} OneRanking(before: Order, a: seq<Candidate>, b: seq<Candidate>)
    requires StrictOrder(before) && InOrder(before, a) && InOrder(before, b) && forall x :: x in a <==> x in b
    ensures a == b
  {
    if a == [] {
      if b != [] { SomeMember(b); assert false; }
    } else {
      assert a[0] in b && b[0] in a;
      var i :| 0 <= i < |a| && a[i] == b[0];
      var j :| 0 <= j < |b| && b[j] == a[0];
      assert a[0] == b[0];
      forall x ensures x in a[1..] <==> x in b[1..] {
        RankingTail(before, a, x);
        RankingTail(before, b, x);
      }
      OneRanking(before, a[1..], b[1..]);
      assert a == [a[0]] + a[1..] && b == [b[0]] + b[1..];
    }
  }

  ghost function Eligible(eligible: Key -> bool, positions: map<Key, Position>): set<Key> {
    set k | k in positions && eligible(k)
  }

  /** Walk all positions, keep the eligible ones, rank them. */
  method Gather(before: Order, eligible: Key -> bool, positions: map<Key, Position>, risks: map<Key, Risk>)
    returns (cs: seq<Candidate>)
    requires StrictOrder(before)
    requires forall k :: eligible(k) ==> k in risks
    requires OneMarket(Eligible(eligible, positions))
    ensures cs == Ranked(before, Eligible(eligible, positions), positions, risks)
  {
    hide StrictOrder, InOrder, Ranked;
    cs := [];
    ghost var keys := Eligible(eligible, positions);
    EmptyRanking(before);
    var pending := positions.Keys;
    while pending != {}
      invariant pending <= positions.Keys
      invariant InOrder(before, cs)
      invariant forall c :: c in cs <==> c.key in keys - pending && c == Candidate(c.key, positions[c.key], risks[c.key])
    {
      SomeCandidate(pending);
      var k :| k in pending;
      if eligible(k) {
        var c := Candidate(k, positions[k], risks[k]);
        InsertRankedOrder(before, cs, c);
        forall x ensures x in InsertRanked(before, cs, c) <==> x in cs || x == c { InsertRankedMember(before, cs, c, x); }
        cs := InsertRanked(before, cs, c);
      }
      pending := pending - {k};
    }
    RankedLaw(before, keys, positions, risks);
    OneRanking(before, cs, Ranked(before, keys, positions, risks));
  }

  /** `goal` is `rest` with outputs in front. */
  ghost predicate Completes(goal: Booked, outputs: seq<Output>, rest: Booked) {
    goal == Booked(rest.ledger, outputs + rest.outputs)
  }

  lemma BookedFirst(goal: Booked, outputs: seq<Output>, l: Ledger, events: seq<EngineEvent>, i: nat, marks: Marks,
                    kind: CommandKind)
    requires i < |events| && Completes(goal, outputs, BookAll(l, events[i..], marks, kind))
    ensures var b := BookEvent(l, events[i], marks, kind);
            Completes(goal, outputs + b.outputs, BookAll(b.ledger, events[i + 1..], marks, kind))
  {
    hide BookEvent;
    assert events[i..][1..] == events[i + 1..];
  }

  lemma FilledFirst(goal: Booked, outputs: seq<Output>, l: Ledger, cs: seq<Candidate>, i: nat, remaining: nat, price: int,
                    marks: Marks)
    requires i < |cs| && remaining > 0 && l.pending.Some?
    requires Completes(goal, outputs, AdlFills(l, cs[i..], remaining, price, marks))
    ensures var fill: nat := Min(remaining, Abs(cs[i].position.signed));
            if fill == 0 then Completes(goal, outputs, AdlFills(l, cs[i + 1..], remaining, price, marks))
            else
              var one := AdlFill(l, cs[i], fill, price, marks);
              Completes(goal, outputs + one.outputs, AdlFills(one.ledger, cs[i + 1..], remaining - fill, price, marks))
  {
    hide AdlFill;
    assert cs[i..][1..] == cs[i + 1..];
  }

  /** `goal` is `rest` with outputs in front. */
  ghost predicate Resumes(goal: AutoResult, outputs: seq<Output>, rest: AutoResult) {
    goal == rest.(outputs := outputs + rest.outputs)
  }

  lemma ResumeScan(goal: AutoResult, outputs: seq<Output>, st: State, marketId: nat, ids: IdSource, attempts: seq<Attempt>)
    requires CoreInv(st.core) && |attempts| < MAX_ATTEMPTS
    requires Resumes(goal, outputs, Scan(st, marketId, ids, attempts))
    ensures var keys := AutoKeys(st, marketId, Attempted(attempts));
            Resumes(goal, outputs, TryAll(st, Ranked(AutoBefore, keys, st.positions, st.risks), marketId, ids, attempts))
  {
    hide CoreInv, TryAll, Ranked;
  }

  lemma ResumeTry(goal: AutoResult, outputs: seq<Output>, st: State, cs: seq<Candidate>, i: nat, marketId: nat,
                  ids: IdSource, attempts: seq<Attempt>)
    requires CoreInv(st.core) && |attempts| < MAX_ATTEMPTS && i < |cs|
    requires Resumes(goal, outputs, TryAll(st, cs[i..], marketId, ids, attempts))
    ensures var tried := attempts + [Attempt(cs[i].key, st)];
            var done := Liquidate(st, AutoRequest(cs[i], ids(cs[i].key, |tried|)));
            if done.outputs != [] then
              Resumes(goal, outputs + done.outputs, Scan(done.state, marketId, ids, tried))
            else
              Resumes(goal, outputs, TryAll(done.state, cs[i + 1..], marketId, ids, tried))
  {
    hide CoreInv, Scan, Liquidate, AutoRequest;
    assert cs[i..][1..] == cs[i + 1..] && cs[i..][0] == cs[i];
    var tried := attempts + [Attempt(cs[i].key, st)];
    var done := Liquidate(st, AutoRequest(cs[i], ids(cs[i].key, |tried|)));
    if done.outputs == [] {
      assert outputs + ([] + TryAll(done.state, cs[i + 1..], marketId, ids, tried).outputs)
             == outputs + TryAll(done.state, cs[i + 1..], marketId, ids, tried).outputs;
    }
  }

  lemma ResumeEnd(goal: AutoResult, outputs: seq<Output>, st: State, cs: seq<Candidate>, marketId: nat, ids: IdSource,
                  attempts: seq<Attempt>)
    requires CoreInv(st.core) && (cs == [] || |attempts| >= MAX_ATTEMPTS)
    requires Resumes(goal, outputs, TryAll(st, cs, marketId, ids, attempts))
             || (|attempts| >= MAX_ATTEMPTS && Resumes(goal, outputs, Scan(st, marketId, ids, attempts)))
    ensures goal.state == st && goal.outputs == outputs
  {
    hide CoreInv, Liquidate, Ranked;
  }

  lemma AttemptedMore(attempts: seq<Attempt>, a: Attempt)
    ensures Attempted(attempts + [a]) == Attempted(attempts) + {a.key}
  {
    forall k ensures k in Attempted(attempts + [a]) <==> k in Attempted(attempts) + {a.key} {
      if k == a.key { assert a in attempts + [a]; }
      if k in Attempted(attempts) {
        var x :| x in attempts && x.key == k;
        assert x in attempts + [a];
      }
    }
  }

  // ---------- The scan at startup, market by market ----------

  /** A step whose outputs come after others. */
  ghost function Ahead(outputs: seq<Output>, s: Step): Step {
    Step(s.state, outputs + s.outputs)
  }

  lemma AheadTwice(a: seq<Output>, b: seq<Output>, s: Step)
    ensures Ahead(a, Ahead(b, s)) == Ahead(a + b, s)
  {
    assert a + (b + s.outputs) == (a + b) + s.outputs;
  }

  lemma ScanUnfolds(st: State, markets: set<nat>, m: nat, ids: IdSource)
    requires CoreInv(st.core) && m in markets && forall x <- markets :: m <= x
    ensures var auto := RuntimeSpec.AutoLiquidate(st, m, ids);
            ScanMarkets(st, markets, ids) == Ahead(auto.outputs, ScanMarkets(auto.state, markets - {m}, ids))
  {
    hide CoreInv, RuntimeSpec.AutoLiquidate, Least;
    assert m == Least(markets);
  }

  lemma ScanEnds(st: State, ids: IdSource)
    requires CoreInv(st.core)
    ensures ScanMarkets(st, {}, ids) == Step(st, [])
  {
  }

  class EngineRuntime {
    var core: Core
    var metadata: map<nat, Metadata>
    var positions: map<Key, Position>
    var risks: map<Key, Risk>
    var marks: Marks
    var rates: map<nat, FundingRate>
    var settled: set<(nat, string)>
    var inputIds: map<string, int>
    var requestKeys: map<string, int>

    ghost function View(): State
      reads this
    {
      State(core, metadata, positions, risks, marks, rates, settled, inputIds, requestKeys)
    }

    ghost predicate Valid()
      reads this
    {
      RuntimeInv(View())
    }

    ghost function Books(pending: Option<Metadata>): Ledger
      reads this
    {
      Ledger(metadata, pending, positions, risks)
    }

    /** A runtime for the given symbols, with empty books. */
    constructor (configs: map<nat, SymbolConfig>)
      requires forall id <- configs :: configs[id].symbolId == id
      ensures Valid()
      ensures View() == State(Core(map id | id in configs :: EmptyBook(configs[id]), SequenceState(1, 1, 1),
                                   Idempotency(map[], map[], {})),
                              map[], map[], map[], map[], map[], {}, map[], map[])
    {
      core := Core(map id | id in configs :: EmptyBook(configs[id]), SequenceState(1, 1, 1), Idempotency(map[], map[], {}));
      metadata, positions, risks, marks, rates := map[], map[], map[], map[], map[];
      settled, inputIds, requestKeys := {}, map[], map[];
      new;
      FreshRuntime(View());
    }

    /** Translate the core's events, one by one, into position, risk and metadata updates. */
    method Translate(pending: Option<Metadata>, events: seq<EngineEvent>, kind: CommandKind)
      returns (after: Option<Metadata>, outputs: seq<Output>)
      modifies this`metadata, this`positions, this`risks
      ensures Booked(Books(after), outputs) == BookAll(old(Books(pending)), events, marks, kind)
    {
      hide BookAll, BookEvent;
      ghost var goal := BookAll(Books(pending), events, marks, kind);
      after, outputs := pending, [];
      assert events[0..] == events;
      for i := 0 to |events|
        invariant Completes(goal, outputs, BookAll(Books(after), events[i..], marks, kind))
      {
        BookedFirst(goal, outputs, Books(after), events, i, marks, kind);
        var b := BookEvent(Ledger(metadata, after, positions, risks), events[i], marks, kind);
        metadata, positions, risks, after := b.ledger.metadata, b.ledger.positions, b.ledger.risks, b.ledger.pending;
        outputs := outputs + b.outputs;
      }
      BookedNothing(Books(after), marks, kind);
      assert events[|events|..] == [];
    }

    /** Forget the metadata of completed orders. */
    method EraseCompleted(events: seq<EngineEvent>)
      modifies this`metadata
      ensures metadata == Cleanup(old(metadata), events)
    {
      assert events[0..] == events;
      for i := 0 to |events|
        invariant metadata - Completed(events[i..]) == old(metadata) - Completed(events)
      {
        assert events[i..][1..] == events[i + 1..];
        if events[i].OrderCancelled? || events[i].OrderFilled? {
          metadata := metadata - {events[i].orderId};
        }
      }
      assert events[|events|..] == [];
    }

    method AdlScan(key: Key, signed: int) returns (cs: seq<Candidate>)
      requires positions.Keys == risks.Keys
      ensures cs == AdlCandidates(key, signed, positions, risks)
    {
      hide StrictOrder, Ranked;
      AdlOrder();
      var ps, rs := positions, risks;
      var eligible := (k: Key) => k in ps && k.marketId == key.marketId && k.userId != key.userId
                                  && Opposing(signed, ps[k].signed) && k in rs && rs[k].unrealized > 0;
      assert Eligible(eligible, ps) == AdlKeys(key, signed, ps, rs);
      cs := Gather(AdlBefore, eligible, ps, rs);
    }

    /** Close the candidates in turn against the pending order until nothing is left. */
    method AppendAdlFills(pending: Option<Metadata>, cs: seq<Candidate>, open: nat, price: int)
      returns (after: Option<Metadata>, outputs: seq<Output>)
      requires pending.Some?
      modifies this`metadata, this`positions, this`risks
      ensures Booked(Books(after), outputs) == AdlFills(old(Books(pending)), cs, open, price, marks)
    {
      hide AdlFills, AdlFill;
      ghost var goal := AdlFills(Books(pending), cs, open, price, marks);
      var remaining: nat := open;
      after, outputs := pending, [];
      assert cs[0..] == cs;
      var i := 0;
      while i < |cs| && remaining > 0 && after.Some?
        invariant 0 <= i <= |cs|
        invariant Completes(goal, outputs, AdlFills(Books(after), cs[i..], remaining, price, marks))
      {
        FilledFirst(goal, outputs, Books(after), cs, i, remaining, price, marks);
        var fill: nat := Min(remaining, Abs(cs[i].position.signed));
        if fill > 0 {
          var one := AdlFill(Ledger(metadata, after, positions, risks), cs[i], fill, price, marks);
          metadata, positions, risks, after := one.ledger.metadata, one.ledger.positions, one.ledger.risks, one.ledger.pending;
          outputs := outputs + one.outputs;
          remaining := remaining - fill;
        }
        i := i + 1;
      }
      FilledNothing(Books(after), cs[i..], remaining, price, marks);
    }

    lemma Balanced()
      requires Valid()
      ensures CoreInv(core) && positions.Keys == risks.Keys && forall m <- rates :: rates[m].scale > 0
    {
      hide CoreInv, MetadataOk, Covered, ZeroSum;
    }

    /** Let the core process a command; returns its events. */
    method CoreProcess(command: EngineCommand) returns (events: seq<EngineEvent>)
      requires CoreInv(core)
      modifies this`core
      ensures CoreResult(core, events) == CoreStep(old(core), command)
    {
      hide CoreSpec.Process, CoreInv;
      ghost var result := CoreStep(core, command);
      var r := CoreSpec.Process(core, command);
      core, events := r.core, r.events;
    }

    /** Deleverage what the book left open, and report. */
    method FinishLiquidation(q: Liquidation, pending: Option<Metadata>, price: int, before: seq<Output>)
      returns (outputs: seq<Output>)
      requires positions.Keys == risks.Keys
      modifies this`metadata, this`positions, this`risks
      ensures Step(View(), outputs) == Deleverage(old(View()), old(Books(pending)), q, price, before)
    {
      hide AdlFills, AdlCandidates;
      var open := if pending.Some? && q.key in positions then Min(pending.value.remaining, Abs(positions[q.key].signed)) else 0;
      outputs := before;
      if open > 0 {
        var cs := AdlScan(q.key, PositionAt(positions, q.key).signed);
        var after, more := AppendAdlFills(pending, cs, open, price);
        outputs := outputs + more;
      }
      outputs := outputs + [LiquidationCompleted(q.key, Abs(PositionAt(positions, q.key).signed))];
    }

    /** The lots that deleveraging could close, counted up to a limit. */
    method AdlAvailable(q: Liquidation, signed: int, limit: nat) returns (available: nat)
      requires positions.Keys == risks.Keys && limit > 0
      ensures available == Min(limit, AvailableLots(AdlCandidates(q.key, signed, positions, risks)))
    {
      hide AdlCandidates;
      var cs := AdlScan(q.key, signed);
      available := 0;
      assert cs[0..] == cs;
      for i := 0 to |cs|
        invariant available < limit && available + AvailableLots(cs[i..]) == AvailableLots(cs)
      {
        assert cs[i..][1..] == cs[i + 1..];
        available := available + Abs(cs[i].position.signed);
        if available >= limit { return limit; }
      }
    }

    /** Close a position against the book, then against profitable counterparties. */
    method ExecuteLiquidation(q: Liquidation) returns (outputs: seq<Output>)
      requires Valid()
      modifies this
      ensures CoreInv(old(core)) && Step(View(), outputs) == Liquidate(old(View()), q)
      ensures Valid()
    {
      hide RuntimeInv, CoreSpec.Process, CoreInv, BookAll, Deleverage, CrossingLiquidity, AvailableLots, AdlCandidates,
        LiquidationMetadata, LiquidationOrder, Completed, LiquidationQuantity, HasTrade;
      Balanced();
      LiquidateKeeps(View(), q);
      if !MayLiquidate(State(core, metadata, positions, risks, marks, rates, settled, inputIds, requestKeys), q) {
        return [];
      }
      var p := positions[q.key];
      var quantity, price := LiquidationQuantity(q, p.signed), LiquidationPrice(q, p, marks);
      var crossing := CrossingLiquidity(core, q.key.marketId, CloseSide(p.signed), price);
      if quantity == 0 || price <= 0 { return []; }
      var available := AdlAvailable(q, p.signed, quantity);
      if !crossing && available == 0 { return []; }
      var pending := Some(LiquidationMetadata(q, p));
      outputs := [LiquidationStarted(q.key)];
      if !crossing {
        outputs := FinishLiquidation(q, pending, price, outputs);
        return;
      }
      var events := CoreProcess(Place(LiquidationOrder(q, p.signed, price)));
      if !HasTrade(events) && available == 0 { return []; }
      BookKeys(Books(pending), events, marks, LiquidationKind);
      var booked;
      pending, booked := Translate(pending, events, LiquidationKind);
      EraseCompleted(events);
      outputs := FinishLiquidation(q, pending, price, outputs + booked);
    }

    method AutoScan(marketId: nat, attempted: set<Key>) returns (cs: seq<Candidate>)
      requires positions.Keys == risks.Keys
      ensures AutoKeys(View(), marketId, attempted) <= positions.Keys && AutoKeys(View(), marketId, attempted) <= risks.Keys
      ensures cs == Ranked(AutoBefore, AutoKeys(View(), marketId, attempted), positions, risks)
    {
      hide StrictOrder, Ranked;
      AutoOrder();
      var ps, rs := positions, risks;
      var eligible := (k: Key) => k in rs && k.marketId == marketId && rs[k].status == Liquidatable && rs[k].signed != 0
                                  && k !in attempted && k in ps && ps[k].signed != 0;
      assert Eligible(eligible, ps) == AutoKeys(View(), marketId, attempted);
      cs := Gather(AutoBefore, eligible, ps, rs);
    }

    /** Liquidate what a trigger left below maintenance margin, rescanning after every liquidation that did something. */
    method AutoLiquidate(marketId: nat, ids: IdSource) returns (outputs: seq<Output>)
      requires Valid()
      modifies this
      ensures Valid() && CoreInv(old(core))
      ensures var r := RuntimeSpec.AutoLiquidate(old(View()), marketId, ids); View() == r.state && outputs == r.outputs
    {
      hide RuntimeInv, CoreInv, Scan, TryAll, Liquidate, AutoRequest, Ranked, Resumes, AutoKeys, Attempted;
      Balanced();
      ghost var goal := RuntimeSpec.AutoLiquidate(View(), marketId, ids);
      ghost var tried: seq<Attempt> := [];
      outputs := [];
      var attempted: set<Key>, attempts: nat, scanning := {}, 0, true;
      NoneTried(goal);
      while scanning && attempts < MAX_ATTEMPTS
        invariant Valid() && attempted == Attempted(tried) && attempts == |tried| <= MAX_ATTEMPTS
        invariant CoreInv(core)
        invariant scanning ==> Resumes(goal, outputs, Scan(View(), marketId, ids, tried))
        invariant !scanning ==> goal.state == View() && goal.outputs == outputs
        decreases MAX_ATTEMPTS - attempts, scanning
      {
        Balanced();
        var cs := AutoScan(marketId, attempted);
        ResumeScan(goal, outputs, View(), marketId, ids, tried);
        scanning := false;
        var i, before := 0, attempts;
        assert cs[0..] == cs;
        while i < |cs| && attempts < MAX_ATTEMPTS && !scanning
          invariant 0 <= i <= |cs| && Valid() && attempted == Attempted(tried) && attempts == |tried| <= MAX_ATTEMPTS
          invariant CoreInv(core) && attempts >= before && (scanning ==> attempts > before)
          invariant scanning ==> Resumes(goal, outputs, Scan(View(), marketId, ids, tried))
          invariant !scanning ==> Resumes(goal, outputs, TryAll(View(), cs[i..], marketId, ids, tried))
        {
          ResumeTry(goal, outputs, View(), cs, i, marketId, ids, tried);
          AttemptedMore(tried, Attempt(cs[i].key, View()));
          tried := tried + [Attempt(cs[i].key, View())];
          attempted := attempted + {cs[i].key};
          attempts := attempts + 1;
          var events := ExecuteLiquidation(AutoRequest(cs[i], ids(cs[i].key, attempts)));
          Balanced();
          assert events == [] ==> outputs + events == outputs;
          outputs := outputs + events;
          scanning := events != [];
          i := i + 1;
        }
        if !scanning { ResumeEnd(goal, outputs, View(), cs[i..], marketId, ids, tried); }
      }
      if scanning { ResumeEnd(goal, outputs, View(), [], marketId, ids, tried); }
    }

    /** Walk the risk entries and collect the markets with liquidatable positions. */
    method LiquidatableScan() returns (markets: set<nat>)
      ensures markets == LiquidatableMarkets(View())
    {
      markets := {};
      var pending := risks.Keys;
      while pending != {}
        invariant pending <= risks.Keys
        invariant forall m :: m in markets <==>
                    exists k <- risks.Keys - pending :: k.marketId == m && risks[k].status == Liquidatable && risks[k].signed != 0
      {
        SomeCandidate(pending);
        var k :| k in pending;
        if risks[k].status == Liquidatable && risks[k].signed != 0 { markets := markets + {k.marketId}; }
        pending := pending - {k};
        assert risks.Keys - pending == risks.Keys - (pending + {k}) + {k};
      }
    }

    /** The scan at startup: automatic liquidation of each such market, by ascending id. */
    method EvaluateAll(ids: IdSource) returns (outputs: seq<Output>)
      requires Valid()
      modifies this
      ensures Valid() && CoreInv(old(core))
      ensures var r := StartupScan(old(View()), ids); View() == r.state && outputs == r.outputs
    {
      hide Valid, CoreInv, RuntimeSpec.AutoLiquidate, LiquidatableMarkets, Least, ScanMarkets;
      Balanced();
      ghost var goal := ScanMarkets(View(), LiquidatableMarkets(View()), ids);
      var markets := LiquidatableScan();
      outputs := [];
      while markets != {}
        invariant Valid() && CoreInv(core)
        invariant goal == Ahead(outputs, ScanMarkets(View(), markets, ids))
        decreases |markets|
      {
        ghost var least := Least(markets);
        var m :| m in markets && forall x <- markets :: m <= x;
        ScanUnfolds(View(), markets, m, ids);
        var events := AutoLiquidate(m, ids);
        Balanced();
        AheadTwice(outputs, events, ScanMarkets(View(), markets - {m}, ids));
        outputs := outputs + events;
        markets := markets - {m};
      }
      ScanEnds(View(), ids);
    }

    /** Re-mark the open positions of a market, one by one. */
    method RemarkRisks(marketId: nat, mark: int)
      modifies this`risks
      ensures risks == Remark(old(View()), marketId, mark)
    {
      hide RiskOf, Adjustment;
      ghost var was := View();
      var pending := positions.Keys;
      while pending != {}
        invariant pending <= positions.Keys
        invariant forall k :: k in risks <==> k in was.risks || (k !in pending && Open(positions, marketId, k))
        invariant forall k <- risks :: risks[k] == if k !in pending && Open(positions, marketId, k)
                                                   then RiskOf(positions[k], mark, Carried(was.risks, k)) else was.risks[k]
      {
        SomeCandidate(pending);
        var k :| k in pending;
        if k.marketId == marketId && positions[k].signed != 0 {
          risks := risks[k := RiskOf(positions[k], mark, Carried(risks, k))];
        }
        pending := pending - {k};
      }
    }

    method UpdateMark(marketId: nat, mark: int, ids: IdSource) returns (outputs: seq<Output>)
      requires Valid()
      modifies this
      ensures Valid() && CoreInv(old(core))
      ensures Step(View(), outputs) == RuntimeSpec.UpdateMark(old(View()), marketId, mark, ids)
    {
      hide RuntimeInv, CoreInv, Remark, RuntimeSpec.AutoLiquidate;
      Balanced();
      MarkedInv(View(), marketId, mark);
      marks := marks[marketId := mark];
      RemarkSame(old(View()), View(), marketId, mark);
      RemarkRisks(marketId, mark);
      var more := AutoLiquidate(marketId, ids);
      outputs := [MarkUpdated(marketId, mark)] + more;
    }

    /** Pay one position, if it is open in the market and its amount is not zero. */
    method PayOne(k: Key, marketId: nat, rate: FundingRate) returns (amount: int)
      requires rate.scale > 0 && k in positions
      modifies this`risks
      ensures amount == if Open(positions, marketId, k)
                        then Payment(positions[k], SettlementMark(positions[k], marks, marketId), rate) else 0
      ensures risks == if amount == 0 then old(risks)
                       else old(risks)[k := PaidRisk(positions[k], SettlementMark(positions[k], marks, marketId),
                                                     Carried(old(risks), k), amount)]
    {
      amount := 0;
      if k.marketId == marketId && positions[k].signed != 0 {
        var mark := SettlementMark(positions[k], marks, marketId);
        amount := Payment(positions[k], mark, rate);
        if amount != 0 {
          risks := risks[k := PaidRisk(positions[k], mark, Carried(risks, k), amount)];
        }
      }
    }

    /** Pay the open positions of a market, one by one. */
    method PayPositions(marketId: nat, rate: FundingRate) returns (payments: map<Key, int>)
      requires rate.scale > 0
      modifies this`risks
      ensures payments == Payments(old(View()), marketId, rate)
      ensures risks == PayRisks(old(View()), marketId, payments)
    {
      hide RiskOf, Adjustment, Payment, PaidRisk, SettlementMark, PayRisks;
      ghost var was := View();
      ghost var all := Payments(was, marketId, rate);
      NobodyPaid(was, marketId);
      var pending := positions.Keys;
      payments := map[];
      while pending != {}
        invariant pending <= positions.Keys
        invariant forall k :: k in payments <==> k in all && k !in pending
        invariant forall k <- payments :: payments[k] == all[k]
        invariant PaidSoFar(was, marketId, payments)
      {
        SomeCandidate(pending);
        var k :| k in pending;
        PaidMore(was, marketId, payments, k);
        var amount := PayOne(k, marketId, rate);
        if amount != 0 { payments := payments[k := amount]; }
        pending := pending - {k};
      }
      assert payments == all;
    }

    /** The risks are as they were, but for the positions paid so far. */
    ghost predicate PaidSoFar(was: State, marketId: nat, payments: map<Key, int>)
      reads this
    {
      && payments.Keys <= positions.Keys && positions == was.positions && marks == was.marks
      && risks == PayRisks(was, marketId, payments)
    }

    method SettleFunding(marketId: nat, interval: string, rate: FundingRate, ids: IdSource) returns (outputs: seq<Output>)
      requires Valid() && rate.scale > 0
      modifies this
      ensures Valid() && CoreInv(old(core))
      ensures Step(View(), outputs) == RuntimeSpec.SettleFunding(old(View()), marketId, interval, rate, ids)
    {
      hide RuntimeInv, CoreInv, Payments, PayRisks, RuntimeSpec.AutoLiquidate;
      Balanced();
      PaidInv(View(), marketId, interval, rate);
      var payments := PayPositions(marketId, rate);
      settled := settled + {(marketId, interval)};
      var more := AutoLiquidate(marketId, ids);
      outputs := [FundingPaid(marketId, interval, payments)] + more;
    }

    /** The lots that an order filled as taker. */
    method FilledQuantity(events: seq<EngineEvent>, orderId: nat) returns (filled: nat)
      ensures filled == FilledBy(events, orderId)
    {
      filled := 0;
      assert events[0..] == events;
      for i := 0 to |events|
        invariant filled + FilledBy(events[i..], orderId) == FilledBy(events, orderId)
      {
        assert events[i..][1..] == events[i + 1..];
        if events[i].TradeExecuted? && events[i].takerOrderId == orderId {
          filled := filled + events[i].quantity;
        }
      }
    }

    /** Run an order that reached the core: match, book, store its metadata, forget completed orders. */
    method RunPlacement(i: Input, c: PlaceOrderCommand) returns (outputs: seq<Output>, traded: bool)
      requires Valid() && i.PlaceInput? && CoreOrder(View(), i) == Some(c) && Mappable(c)
      modifies this`core, this`metadata, this`positions, this`risks
      ensures Valid() && CoreInv(old(core)) && RunOrder(old(View()), i, c) == Some(Step(View(), outputs))
      ensures traded == Traded(old(View()), c)
    {
      hide RuntimeInv, CoreInv, CoreSpec.Process, BookAll, Completed, IsAccepted, HasTrade, FilledBy, Mappable, CoreOrder,
        Moved;
      Balanced();
      RunOrderLaw(View(), i, c);
      var events := CoreProcess(Place(c));
      var accepted := IsAccepted(events);
      var pending, booked := Translate(Some(PlaceMetadata(i)), events, PlaceKind);
      if accepted {
        metadata := metadata[c.orderId := pending.value];
      }
      EraseCompleted(events);
      outputs := booked;
      assert booked + [] == booked;
      if i.reduceOnly && accepted {
        var filled := FilledQuantity(events, c.orderId);
        var expired := i.order.quantity - filled;
        if expired > 0 {
          outputs := outputs + [OrderExpired(c.orderId, expired, pending.value.remainingReserved)];
        }
        metadata := metadata - {c.orderId};
      }
      traded := HasTrade(events);
    }

    method PlaceOrder(i: Input, ids: IdSource) returns (ok: bool, outputs: seq<Output>)
      requires Valid() && i.PlaceInput?
      modifies this
      ensures Valid() && CoreInv(old(core))
      ensures var r := RuntimeSpec.PlaceOrder(old(View()), i, ids);
              if ok then r == Some(Step(View(), outputs)) else r == None && View() == old(View())
    {
      hide RuntimeInv, CoreInv, RunOrder, RuntimeSpec.AutoLiquidate, Traded, Mappable, CoreOrder;
      Balanced();
      var c := CoreOrder(State(core, metadata, positions, risks, marks, rates, settled, inputIds, requestKeys), i);
      if c.None? {
        return true, if i.reserved > 0 then [ReservationReleased(i.order.orderId, i.reserved)] else [];
      }
      if !Mappable(c.value) { return false, []; }
      ok := true;
      var traded;
      outputs, traded := RunPlacement(i, c.value);
      if traded {
        var more := AutoLiquidate(c.value.symbolId, ids);
        outputs := outputs + more;
      }
    }

    method CancelOrder(c: CancelOrderCommand) returns (outputs: seq<Output>)
      requires Valid()
      modifies this`core, this`metadata, this`positions, this`risks
      ensures Valid() && CoreInv(old(core)) && Step(View(), outputs) == RuntimeSpec.CancelOrder(old(View()), c)
    {
      hide RuntimeInv, CoreInv, CoreSpec.Process, BookAll, Completed, IsCancelled;
      Balanced();
      CancelLaw(View(), c);
      var events := CoreProcess(Cancel(c));
      var pending;
      pending, outputs := Translate(None, events, CancelKind);
      EraseCompleted(events);
    }

    method MarkInput(r: Record)
      modifies this`inputIds
      ensures View() == MarkInputDone(old(View()), r)
    {
      if r.input.inputId.Some? && r.input.inputId.value !in inputIds {
        inputIds := inputIds[r.input.inputId.value := r.offset];
      }
    }

    method MarkRequest(r: Record)
      requires r.input.PlaceInput? || r.input.CancelInput? || r.input.LiquidateInput?
      modifies this`inputIds, this`requestKeys
      ensures View() == MarkDone(old(View()), r)
    {
      MarkInput(r);
      if r.input.requestKey !in requestKeys {
        requestKeys := requestKeys[r.input.requestKey := r.offset];
      }
    }

    /** One record of the input log. */
    method Process(r: Record, ids: IdSource) returns (status: Status, outputs: seq<Output>)
      requires Valid()
      modifies this
      ensures Valid() && CoreInv(old(core)) && (forall m <- old(rates) :: old(rates)[m].scale > 0)
      ensures Outcome(View(), status, outputs) == RuntimeSpec.Process(old(View()), r, ids)
    {
      hide RuntimeInv, CoreInv, RuntimeSpec.PlaceOrder, RuntimeSpec.CancelOrder, Liquidate, RuntimeSpec.UpdateMark,
        MarkDone, MarkInputDone, RuntimeSpec.SettleFunding;
      Balanced();
      ProcessLaw(View(), r, ids);
      var duplicate := DuplicateOf(State(core, metadata, positions, risks, marks, rates, settled, inputIds, requestKeys),
                                   r.input);
      if duplicate.Some? { return Duplicate(duplicate.value), []; }
      status, outputs := Accepted, [];
      match r.input
      case PlaceInput(_, _, _, _, _, _) =>
        var ok;
        ok, outputs := PlaceOrder(r.input, ids);
        if !ok { return Failed, []; }
        MarkRequest(r);
      case CancelInput(_, _, c) =>
        if c.orderId == 0 || c.symbolId == 0 { return Failed, []; }
        outputs := CancelOrder(c);
        MarkRequest(r);
      case LiquidateInput(_, _, q) =>
        outputs := ExecuteLiquidation(q);
        MarkRequest(r);
      case MarkInput(_, marketId, mark) =>
        outputs := UpdateMark(marketId, mark, ids);
        MarkInput(r);
      case RateInput(_, marketId, rate) =>
        if rate.scale <= 0 { return Failed, []; }
        rates := rates[marketId := rate];
        outputs := [RateUpdated(marketId, rate.interval)];
        MarkInput(r);
      case TickInput(_, marketId, interval) =>
        if (marketId, interval) !in settled {
          if marketId !in rates || rates[marketId].interval != interval {
            status := Rejected;
          } else {
            outputs := SettleFunding(marketId, interval, rates[marketId], ids);
          }
        }
        MarkInput(r);
    }
  }

  /** Booking gives every position a risk entry and every risk entry a position. */
  lemma {:induction false} BookKeys(l: Ledger, events: seq<EngineEvent>, marks: Marks, kind: CommandKind)
    requires l.positions.Keys == l.risks.Keys
    ensures var l' := BookAll(l, events, marks, kind).ledger; l'.positions.Keys == l'.risks.Keys
    decreases |events|
  {
    hide BookEvent;
    if events != [] {
      EventKeys(l, events[0], marks, kind);
      BookKeys(BookEvent(l, events[0], marks, kind).ledger, events[1..], marks, kind);
    }
  }

  lemma EventKeys(l: Ledger, e: EngineEvent, marks: Marks, kind: CommandKind)
    requires l.positions.Keys == l.risks.Keys
    ensures var l' := BookEvent(l, e, marks, kind).ledger; l'.positions.Keys == l'.risks.Keys
  {
    hide BookSide, Settlements;
    if e.TradeExecuted? {
      SideKeys(l, e.makerOrderId, e.quantity, e.price, marks);
      SideKeys(BookSide(l, e.makerOrderId, e.quantity, e.price, marks).ledger, e.takerOrderId, e.quantity, e.price, marks);
    }
  }

  lemma SideKeys(l: Ledger, orderId: nat, fill: nat, price: int, marks: Marks)
    requires l.positions.Keys == l.risks.Keys
    ensures var l' := BookSide(l, orderId, fill, price, marks).ledger; l'.positions.Keys == l'.risks.Keys
  {
    hide ApplyFill, RiskOf, AllocateMargin, RealizedPnl;
  }

  /** Re-marking does not look at the marks themselves. */
  lemma NobodyPaid(st: State, marketId: nat)
    ensures PayRisks(st, marketId, map[]) == st.risks
  {
  }

  /** Paying one more position changes its risk only. */
  lemma PaidMore(st: State, marketId: nat, payments: map<Key, int>, k: Key)
    requires k in st.positions && k !in payments && payments.Keys <= st.positions.Keys
    ensures var risks := PayRisks(st, marketId, payments);
            && Carried(risks, k) == Carried(st.risks, k)
            && forall amount: int ::
                 PayRisks(st, marketId, payments[k := amount])
                 == risks[k := PaidRisk(st.positions[k], SettlementMark(st.positions[k], st.marks, marketId), Carried(st.risks, k), amount)]
  {
    hide PaidRisk, SettlementMark, Adjustment;
  }

  lemma RemarkSame(a: State, b: State, marketId: nat, mark: int)
    requires a.positions == b.positions && a.risks == b.risks
    ensures Remark(a, marketId, mark) == Remark(b, marketId, mark)
  {
  }

  lemma NoneTried(goal: AutoResult)
    ensures Attempted([]) == {} && Resumes(goal, [], goal)
  {
  }

  lemma BookedNothing(l: Ledger, marks: Marks, kind: CommandKind)
    ensures BookAll(l, [], marks, kind) == Booked(l, [])
  {
  }

  lemma FilledNothing(l: Ledger, cs: seq<Candidate>, remaining: nat, price: int, marks: Marks)
    requires cs == [] || remaining == 0 || l.pending.None?
    ensures AdlFills(l, cs, remaining, price, marks) == Booked(l, [])
  {
  }
}
