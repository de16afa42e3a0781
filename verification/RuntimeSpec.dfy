/**
  The runtime as a value: the core, the ledger, marks, funding and the requests already processed.  `Process` is one
  input record; parsing, payload decoration, replies and clocks are not part of it.
 */
module RuntimeSpec {
  import opened Types
  import opened BookSpec
  import opened CoreSpec
  import opened CoreLaws
  import opened Accounting
  import opened LedgerSpec

  datatype FundingRate = FundingRate(interval: string, rate: int, scale: int)

  datatype State = State(
    core: Core,
    metadata: map<nat, Metadata>,
    positions: map<Key, Position>,
    risks: map<Key, Risk>,
    marks: Marks,
    rates: map<nat, FundingRate>,
    settled: set<(nat, string)>,
    inputIds: map<string, int>,
    requestKeys: map<string, int>)

  datatype Liquidation = Liquidation(
    commandId: nat, clientOrderId: nat, orderId: nat, key: Key, side: Side, quantity: int, price: int)

  datatype Input =
    | PlaceInput(inputId: Option<string>, requestKey: string, order: PlaceOrderCommand, reduceOnly: bool, reserved: int,
                 leverage: int)
    | CancelInput(inputId: Option<string>, requestKey: string, cancel: CancelOrderCommand)
    | LiquidateInput(inputId: Option<string>, requestKey: string, liquidation: Liquidation)
    | MarkInput(inputId: Option<string>, marketId: nat, mark: int)
    | RateInput(inputId: Option<string>, marketId: nat, rate: FundingRate)
    | TickInput(inputId: Option<string>, marketId: nat, interval: string)

  datatype Record = Record(offset: int, input: Input)

  /** The ids derived for the n-th automatic liquidation a record triggers, for a given position. */
  datatype OrderIds = OrderIds(commandId: nat, clientOrderId: nat, orderId: nat)
  type IdSource = (Key, nat) -> OrderIds

  /** `Failed` is an exception before any state was touched. */
  datatype Status = Accepted | Duplicate(originalOffset: int) | Rejected | Failed

  datatype Outcome = Outcome(state: State, status: Status, outputs: seq<Output>)

  datatype Step = Step(state: State, outputs: seq<Output>)

  ghost function CoreStep(core: Core, command: EngineCommand): (r: CoreResult)
    requires CoreInv(core)
    ensures CoreInv(r.core) && SaneBooks(core.books) && r == CoreSpec.Process(core, command)
  {
    ProcessKeeps(core, command);
    CoreSpec.Process(core, command)
  }

  function LedgerOf(st: State, pending: Option<Metadata>): Ledger {
    Ledger(st.metadata, pending, st.positions, st.risks)
  }

  /** The state after booking, with completed orders forgotten. */
  function Settle(st: State, core: Core, l: Ledger, events: seq<EngineEvent>): State {
    st.(core := core, metadata := Cleanup(l.metadata, events), positions := l.positions, risks := l.risks)
  }

  predicate HasTrade(events: seq<EngineEvent>) {
    exists i :: 0 <= i < |events| && events[i].TradeExecuted?
  }

  // ---------- Placing and cancelling ----------

  /** What an order must be to reach the core at all. */
  predicate Mappable(c: PlaceOrderCommand) {
    c.orderId > 0 && c.symbolId > 0 && c.quantity > 0 && c.price >= 0 && (c.orderType == Limit ==> c.price > 0)
  }

  /** A reduce-only order may close at most the position it reduces. */
  function ReduceOnlyQuantity(positions: map<Key, Position>, key: Key, side: Side, quantity: nat): Option<nat> {
    var signed := PositionAt(positions, key).signed;
    if (side == Buy && signed < 0) || (side == Sell && signed > 0) then Some(Min(quantity, Abs(signed))) else None
  }

  function PlaceMetadata(i: Input): Metadata
    requires i.PlaceInput?
  {
    var c := i.order;
    Metadata(c.orderId, c.symbolId, c.userId, c.side, c.quantity, c.quantity, i.reduceOnly, i.reserved, i.reserved,
             i.leverage)
  }

  /** The order as the core sees it: reduce-only orders are capped and never rest. */
  function CoreOrder(st: State, i: Input): Option<PlaceOrderCommand>
    requires i.PlaceInput?
  {
    var c := i.order;
    if !i.reduceOnly then Some(c)
    else
      var capped := ReduceOnlyQuantity(st.positions, Key(c.userId, c.symbolId), c.side, c.quantity);
      if capped.None? then None else Some(c.(quantity := capped.value, timeInForce := IOC))
  }

  function FilledBy(events: seq<EngineEvent>, orderId: nat): nat {
    if events == [] then 0
    else (if events[0].TradeExecuted? && events[0].takerOrderId == orderId then events[0].quantity else 0)
         + FilledBy(events[1..], orderId)
  }

  /** Run an order that reached the core; None if its metadata could not be stored. */
  ghost function RunOrder(st: State, i: Input, c: PlaceOrderCommand): (r: Option<Step>)
    requires CoreInv(st.core) && i.PlaceInput?
    ensures r.Some? ==> CoreInv(r.value.state.core)
  {
    var core := CoreStep(st.core, Place(c));
    var booked := BookAll(LedgerOf(st, Some(PlaceMetadata(i))), core.events, st.marks, PlaceKind);
    var l := booked.ledger;
    if !IsAccepted(core.events) then Some(Step(Settle(st, core.core, l, core.events), booked.outputs))
    else if l.pending.None? || c.orderId in l.metadata then None
    else
      var stored := l.(metadata := l.metadata[c.orderId := l.pending.value]);
      var settled := Settle(st, core.core, stored, core.events);
      if !i.reduceOnly then Some(Step(settled, booked.outputs))
      else
        var expired := i.order.quantity - FilledBy(core.events, c.orderId);
        Some(Step(settled.(metadata := settled.metadata - {c.orderId}),
                  booked.outputs + if expired > 0
                                   then [OrderExpired(c.orderId, expired, l.pending.value.remainingReserved)] else []))
  }

  ghost function Traded(st: State, c: PlaceOrderCommand): bool
    requires CoreInv(st.core)
  {
    HasTrade(CoreStep(st.core, Place(c)).events)
  }

  ghost function PlaceOrder(st: State, i: Input, ids: IdSource): (r: Option<Step>)
    requires CoreInv(st.core) && i.PlaceInput?
    ensures r.Some? ==> CoreInv(r.value.state.core)
  {
    var c := CoreOrder(st, i);
    if c.None? then
      Some(Step(st, if i.reserved > 0 then [ReservationReleased(i.order.orderId, i.reserved)] else []))
    else if !Mappable(c.value) then None
    else
      var placed := RunOrder(st, i, c.value);
      if placed.None? || !Traded(st, c.value) then placed
      else
        var auto := AutoLiquidate(placed.value.state, c.value.symbolId, ids);
        Some(Step(auto.state, placed.value.outputs + auto.outputs))
  }

  ghost function CancelOrder(st: State, c: CancelOrderCommand): (r: Step)
    requires CoreInv(st.core)
    ensures CoreInv(r.state.core)
  {
    var core := CoreStep(st.core, Cancel(c));
    var booked := BookAll(LedgerOf(st, None), core.events, st.marks, CancelKind);
    Step(Settle(st, core.core, booked.ledger, core.events), booked.outputs)
  }

  // ---------- Ranking ----------

  /** A position and its risk as a scan found them. */
  datatype Candidate = Candidate(key: Key, position: Position, risk: Risk)

  /** Deleverage first: higher profit, higher leverage, lower margin ratio, larger exposure, lower user id. */
  predicate AdlBefore(a: Candidate, b: Candidate) {
    if a.risk.unrealized != b.risk.unrealized then a.risk.unrealized > b.risk.unrealized
    else if a.risk.leverage != b.risk.leverage then a.risk.leverage > b.risk.leverage
    else if a.risk.ratio != b.risk.ratio then a.risk.ratio < b.risk.ratio
    else if Abs(a.position.signed) != Abs(b.position.signed) then Abs(a.position.signed) > Abs(b.position.signed)
    else a.key.userId < b.key.userId
  }

  function Notional(c: Candidate): int {
    Abs(c.position.signed) * if c.risk.mark > 0 then c.risk.mark else c.position.average
  }

  /** Liquidate first: lower margin ratio, lower equity, larger notional, lower user id. */
  predicate AutoBefore(a: Candidate, b: Candidate) {
    if a.risk.ratio != b.risk.ratio then a.risk.ratio < b.risk.ratio
    else if a.risk.equity != b.risk.equity then a.risk.equity < b.risk.equity
    else if Notional(a) != Notional(b) then Notional(a) > Notional(b)
    else a.key.userId < b.key.userId
  }

  type Order = (Candidate, Candidate) -> bool

  function InsertRanked(before: Order, cs: seq<Candidate>, c: Candidate): seq<Candidate> {
    if cs == [] || before(c, cs[0]) then [c] + cs else [cs[0]] + InsertRanked(before, cs[1..], c)
  }

  lemma SomeCandidate(keys: set<Key>)
    requires keys != {}
    ensures exists k :: k in keys
  {
    if forall k :: k !in keys { assert false; }
  }

  ghost function PickKey(keys: set<Key>): (k: Key)
    requires keys != {}
    ensures k in keys
  {
    SomeCandidate(keys);
    var k :| k in keys;
    k
  }

  /** The candidates for a set of keys, best first. */
  ghost function Ranked(before: Order, keys: set<Key>, positions: map<Key, Position>, risks: map<Key, Risk>)
    : seq<Candidate>
    requires keys <= positions.Keys && keys <= risks.Keys
  {
    if keys == {} then []
    else
      var k := PickKey(keys);
      InsertRanked(before, Ranked(before, keys - {k}, positions, risks), Candidate(k, positions[k], risks[k]))
  }

  // ---------- Deleveraging ----------

  predicate Opposing(a: int, b: int) {
    (a > 0 && b < 0) || (a < 0 && b > 0)
  }

  ghost function AdlKeys(key: Key, signed: int, positions: map<Key, Position>, risks: map<Key, Risk>): set<Key> {
    set k | k in positions && k.marketId == key.marketId && k.userId != key.userId
            && Opposing(signed, positions[k].signed) && k in risks && risks[k].unrealized > 0
  }

  /** Profitable positions of other users on the other side of the market, ranked. */
  ghost function AdlCandidates(key: Key, signed: int, positions: map<Key, Position>, risks: map<Key, Risk>)
    : seq<Candidate>
  {
    Ranked(AdlBefore, AdlKeys(key, signed, positions, risks), positions, risks)
  }

  function AvailableLots(cs: seq<Candidate>): nat {
    if cs == [] then 0 else Abs(cs[0].position.signed) + AvailableLots(cs[1..])
  }

  /** An order id not in use. */
  function FreeId(n: nat, used: set<nat>): (id: nat)
    ensures id >= n && id !in used
    decreases |used|
  {
    if n in used then FreeId(n + 1, used - {n}) else n
  }

  function CloseSide(signed: int): Side {
    if signed > 0 then Sell else Buy
  }

  /** One deleveraging fill: a counterparty order is made up, traded against the pending order, and forgotten. */
  function AdlFill(l: Ledger, c: Candidate, fill: nat, price: int, marks: Marks): Booked
    requires l.pending.Some?
  {
    var id := FreeId(1, l.metadata.Keys + {l.pending.value.orderId});
    var md := Metadata(id, c.key.marketId, c.key.userId, CloseSide(c.position.signed), fill, fill, true, 0, 0,
                       c.position.leverage);
    var booked := BookTrade(l.(metadata := l.metadata[id := md]), id, l.pending.value.orderId, fill, price, marks, AdlKind);
    Booked(booked.ledger.(metadata := booked.ledger.metadata - {id}), booked.outputs)
  }

  /** Walk the ranking, closing each counterparty in turn until nothing is left to close. */
  function AdlFills(l: Ledger, cs: seq<Candidate>, remaining: nat, price: int, marks: Marks): Booked
    decreases |cs|
  {
    if cs == [] || remaining == 0 || l.pending.None? then Booked(l, [])
    else
      var fill: nat := Min(remaining, Abs(cs[0].position.signed));
      if fill == 0 then AdlFills(l, cs[1..], remaining, price, marks)
      else
        var one := AdlFill(l, cs[0], fill, price, marks);
        var rest := AdlFills(one.ledger, cs[1..], remaining - fill, price, marks);
        Booked(rest.ledger, one.outputs + rest.outputs)
  }

  // ---------- Liquidation ----------

  predicate SideMatches(side: Side, signed: int) {
    (side == Buy && signed > 0) || (side == Sell && signed < 0)
  }

  /** Whether a position may be liquidated. */
  predicate MayLiquidate(st: State, q: Liquidation) {
    && q.key in st.positions && SideMatches(q.side, st.positions[q.key].signed)
    && q.key in st.risks
    && (st.risks[q.key].status == Liquidatable || st.risks[q.key].equity <= st.risks[q.key].maintenance)
  }

  function LiquidationQuantity(q: Liquidation, signed: int): nat {
    if q.quantity <= 0 then Abs(signed) else Min(q.quantity, Abs(signed))
  }

  function LiquidationPrice(q: Liquidation, p: Position, marks: Marks): int {
    if q.price > 0 then q.price
    else if q.key.marketId in marks && marks[q.key.marketId] > 0 then marks[q.key.marketId]
    else p.average
  }

  /** Whether the book holds an order that the liquidation order would reach. */
  predicate CrossingLiquidity(core: Core, marketId: nat, side: Side, price: int) {
    && price > 0 && marketId > 0 && marketId in core.books
    && var q := core.books[marketId].SideQueue(side.Opposite());
       q != [] && LevelLots(q, q[0].price) != 0 && Crosses(side.Opposite(), price, q[0].price)
  }

  function LiquidationOrder(q: Liquidation, signed: int, price: int): PlaceOrderCommand {
    PlaceOrderCommand(q.commandId, q.clientOrderId, q.orderId, q.key.userId, q.key.marketId, CloseSide(signed), Limit,
                      IOC, price, LiquidationQuantity(q, signed))
  }

  function LiquidationMetadata(q: Liquidation, p: Position): Metadata {
    var quantity := LiquidationQuantity(q, p.signed);
    Metadata(q.orderId, q.key.marketId, q.key.userId, CloseSide(p.signed), quantity, quantity, true, 0, 0, p.leverage)
  }

  /** Deleverage what the book left open, then report. */
  ghost function Deleverage(st: State, l: Ledger, q: Liquidation, price: int, before: seq<Output>): Step {
    var open := if l.pending.Some? && q.key in l.positions
                then Min(l.pending.value.remaining, Abs(l.positions[q.key].signed)) else 0;
    var signed := PositionAt(l.positions, q.key).signed;
    var adl := if open > 0 then AdlFills(l, AdlCandidates(q.key, signed, l.positions, l.risks), open, price, st.marks)
               else Booked(l, []);
    Step(st.(metadata := adl.ledger.metadata, positions := adl.ledger.positions, risks := adl.ledger.risks),
         before + adl.outputs
         + [LiquidationCompleted(q.key, Abs(PositionAt(adl.ledger.positions, q.key).signed))])
  }

  /** Close a position against the book and, for what the book leaves open, against profitable counterparties. */
  ghost function Liquidate(st: State, q: Liquidation): (r: Step)
    requires CoreInv(st.core)
    ensures CoreInv(r.state.core)
  {
    if !MayLiquidate(st, q) then Step(st, [])
    else
      var p := st.positions[q.key];
      var quantity, price := LiquidationQuantity(q, p.signed), LiquidationPrice(q, p, st.marks);
      var crossing := CrossingLiquidity(st.core, q.key.marketId, CloseSide(p.signed), price);
      var available := AvailableLots(AdlCandidates(q.key, p.signed, st.positions, st.risks));
      if quantity == 0 || price <= 0 || (!crossing && available == 0) then Step(st, [])
      else
        var pending := LiquidationMetadata(q, p);
        if !crossing then Deleverage(st, LedgerOf(st, Some(pending)), q, price, [LiquidationStarted(q.key)])
        else
          var core := CoreStep(st.core, Place(LiquidationOrder(q, p.signed, price)));
          if !HasTrade(core.events) && available == 0 then Step(st.(core := core.core), [])
          else
            var booked := BookAll(LedgerOf(st, Some(pending)), core.events, st.marks, LiquidationKind);
            var settled := Settle(st, core.core, booked.ledger, core.events);
            Deleverage(settled, LedgerOf(settled, booked.ledger.pending), q, price,
                       [LiquidationStarted(q.key)] + booked.outputs)
  }

  // ---------- Automatic liquidation ----------

  const MAX_ATTEMPTS: nat := 16

  /** One attempted liquidation, with the state it was attempted in. */
  datatype Attempt = Attempt(key: Key, at: State)

  datatype AutoResult = AutoResult(state: State, outputs: seq<Output>, attempts: seq<Attempt>)

  ghost function Attempted(attempts: seq<Attempt>): set<Key> {
    set a | a in attempts :: a.key
  }

  ghost function AutoKeys(st: State, marketId: nat, attempted: set<Key>): set<Key> {
    set k | k in st.risks && k.marketId == marketId && st.risks[k].status == Liquidatable && st.risks[k].signed != 0
            && k !in attempted && k in st.positions && st.positions[k].signed != 0
  }

  function AutoRequest(c: Candidate, ids: OrderIds): Liquidation {
    Liquidation(ids.commandId, ids.clientOrderId, ids.orderId, c.key, if c.position.signed >= 0 then Buy else Sell,
                Abs(c.position.signed), 0)
  }

  /** Scan for positions below maintenance margin that were not tried yet. */
  ghost function Scan(st: State, marketId: nat, ids: IdSource, attempts: seq<Attempt>): (r: AutoResult)
    requires CoreInv(st.core)
    ensures CoreInv(r.state.core)
    decreases MAX_ATTEMPTS - |attempts|, 1
  {
    if |attempts| >= MAX_ATTEMPTS then AutoResult(st, [], attempts)
    else
      TryAll(st, Ranked(AutoBefore, AutoKeys(st, marketId, Attempted(attempts)), st.positions, st.risks), marketId, ids,
             attempts)
  }

  /** Try the candidates in turn; the first that gets anywhere starts a new scan. */
  ghost function TryAll(st: State, cs: seq<Candidate>, marketId: nat, ids: IdSource, attempts: seq<Attempt>)
    : (r: AutoResult)
    requires CoreInv(st.core)
    ensures CoreInv(r.state.core)
    decreases MAX_ATTEMPTS - |attempts|, 0
  {
    if cs == [] || |attempts| >= MAX_ATTEMPTS then AutoResult(st, [], attempts)
    else
      var tried := attempts + [Attempt(cs[0].key, st)];
      var done := Liquidate(st, AutoRequest(cs[0], ids(cs[0].key, |tried|)));
      var rest := if done.outputs != [] then Scan(done.state, marketId, ids, tried)
                  else TryAll(done.state, cs[1..], marketId, ids, tried);
      rest.(outputs := done.outputs + rest.outputs)
  }

  ghost function AutoLiquidate(st: State, marketId: nat, ids: IdSource): (r: AutoResult)
    requires CoreInv(st.core)
    ensures CoreInv(r.state.core)
  {
    Scan(st, marketId, ids, [])
  }

  /** The markets where a risk entry says that an open position is liquidatable. */
  ghost function LiquidatableMarkets(st: State): set<nat> {
    set k | k in st.risks && st.risks[k].status == Liquidatable && st.risks[k].signed != 0 :: k.marketId
  }

  /** Counting up from a lower bound to the first member. */
  ghost function LeastFrom(s: set<nat>, n: nat, some: nat): (m: nat)
    requires some in s && n <= some && forall x <- s :: n <= x
    ensures m in s && forall x <- s :: m <= x
    decreases some - n
  {
    if n in s then n else LeastFrom(s, n + 1, some)
  }

  lemma SomeId(s: set<nat>)
    requires s != {}
    ensures exists m :: m in s
  {
    if forall m :: m !in s { assert false; }
  }

  ghost function Least(s: set<nat>): (m: nat)
    requires s != {}
    ensures m in s && forall x <- s :: m <= x
  {
    SomeId(s);
    var some :| some in s;
    LeastFrom(s, 0, some)
  }

  /** Automatic liquidation of some markets, by ascending id. */
  ghost function ScanMarkets(st: State, markets: set<nat>, ids: IdSource): (r: Step)
    requires CoreInv(st.core)
    ensures CoreInv(r.state.core)
    decreases |markets|
  {
    if markets == {} then Step(st, [])
    else
      var m := Least(markets);
      var auto := AutoLiquidate(st, m, ids);
      var rest := ScanMarkets(auto.state, markets - {m}, ids);
      Step(rest.state, auto.outputs + rest.outputs)
  }

  /** The scan at startup: every market that has a liquidatable position when it begins. */
  ghost function StartupScan(st: State, ids: IdSource): (r: Step)
    requires CoreInv(st.core)
    ensures CoreInv(r.state.core)
  {
    ScanMarkets(st, LiquidatableMarkets(st), ids)
  }

  // ---------- Marks and funding ----------

  ghost predicate Open(positions: map<Key, Position>, marketId: nat, k: Key) {
    k in positions && k.marketId == marketId && positions[k].signed != 0
  }

  function Carried(risks: map<Key, Risk>, k: Key): int {
    if k in risks then Adjustment(risks[k]) else 0
  }

  /** Re-mark every open position of a market, carrying its funding adjustment. */
  ghost function Remark(st: State, marketId: nat, mark: int): map<Key, Risk> {
    map k | k in st.risks.Keys + st.positions.Keys && (k in st.risks || Open(st.positions, marketId, k)) ::
      if Open(st.positions, marketId, k) then RiskOf(st.positions[k], mark, Carried(st.risks, k)) else st.risks[k]
  }

  ghost function UpdateMark(st: State, marketId: nat, mark: int, ids: IdSource): (r: Step)
    requires CoreInv(st.core)
    ensures CoreInv(r.state.core)
  {
    var marked := st.(marks := st.marks[marketId := mark], risks := Remark(st, marketId, mark));
    var auto := AutoLiquidate(marked, marketId, ids);
    Step(auto.state, [MarkUpdated(marketId, mark)] + auto.outputs)
  }

  /** What a position receives for an interval; longs pay shorts at a positive rate. */
  function Payment(p: Position, mark: int, rate: FundingRate): int
    requires rate.scale > 0
  {
    -TruncDiv(p.signed * mark * rate.rate, rate.scale)
  }

  function SettlementMark(p: Position, marks: Marks, marketId: nat): int {
    MarkFor(marks, marketId, p.average)
  }

  /** The payments of an interval: every open position of the market whose amount is not zero. */
  ghost function Payments(st: State, marketId: nat, rate: FundingRate): map<Key, int>
    requires rate.scale > 0
  {
    map k | k in st.positions && Open(st.positions, marketId, k)
            && Payment(st.positions[k], SettlementMark(st.positions[k], st.marks, marketId), rate) != 0 ::
      Payment(st.positions[k], SettlementMark(st.positions[k], st.marks, marketId), rate)
  }

  function PaidRisk(p: Position, mark: int, adjustment: int, amount: int): Risk {
    var r := RiskOf(p, mark, adjustment);
    var equity := r.equity + amount;
    r.(equity := equity, ratio := MarginRatio(equity, r.maintenance), status := StatusFor(r.signed, equity, r.maintenance))
  }

  ghost function PayRisks(st: State, marketId: nat, payments: map<Key, int>): map<Key, Risk> {
    map k | k in st.risks.Keys + payments.Keys && (k in st.risks || (k in payments && k in st.positions)) ::
      if k in payments && k in st.positions then
        PaidRisk(st.positions[k], SettlementMark(st.positions[k], st.marks, marketId), Carried(st.risks, k), payments[k])
      else st.risks[k]
  }

  ghost function SettleFunding(st: State, marketId: nat, interval: string, rate: FundingRate, ids: IdSource): (r: Step)
    requires CoreInv(st.core) && rate.scale > 0
    ensures CoreInv(r.state.core)
  {
    var payments := Payments(st, marketId, rate);
    var paid := st.(risks := PayRisks(st, marketId, payments), settled := st.settled + {(marketId, interval)});
    var auto := AutoLiquidate(paid, marketId, ids);
    Step(auto.state, [FundingPaid(marketId, interval, payments)] + auto.outputs)
  }

  // ---------- One record ----------

  /** Remember a processed input; the first entry for an id stays. */
  function Remember(m: map<string, int>, id: string, offset: int): map<string, int> {
    if id in m then m else m[id := offset]
  }

  function MarkInputDone(st: State, r: Record): (st': State)
    ensures st'.core == st.core
  {
    if r.input.inputId.None? then st
    else st.(inputIds := Remember(st.inputIds, r.input.inputId.value, r.offset))
  }

  function MarkDone(st: State, r: Record): (done: State)
    requires r.input.PlaceInput? || r.input.CancelInput? || r.input.LiquidateInput?
    ensures done.core == st.core
  {
    var st' := MarkInputDone(st, r);
    st'.(requestKeys := Remember(st'.requestKeys, r.input.requestKey, r.offset))
  }

  /** The offset at which an equal input was processed before, if it was. */
  function DuplicateOf(st: State, i: Input): Option<int> {
    if i.inputId.Some? && i.inputId.value in st.inputIds then Some(st.inputIds[i.inputId.value])
    else if (i.PlaceInput? || i.CancelInput? || i.LiquidateInput?) && i.requestKey in st.requestKeys then
      Some(st.requestKeys[i.requestKey])
    else None
  }

  /** Process one record. */
  ghost function Process(st: State, r: Record, ids: IdSource): (o: Outcome)
    requires CoreInv(st.core) && (forall m <- st.rates :: st.rates[m].scale > 0)
    ensures CoreInv(o.state.core)
  {
    hide CoreInv, PlaceOrder, CancelOrder, Liquidate, UpdateMark, Tick, DuplicateOf, MarkDone, MarkInputDone;
    var duplicate := DuplicateOf(st, r.input);
    if duplicate.Some? then Outcome(st, Duplicate(duplicate.value), [])
    else
      match r.input
      case PlaceInput(_, _, _, _, _, _) =>
        var placed := PlaceOrder(st, r.input, ids);
        if placed.None? then Outcome(st, Failed, [])
        else Outcome(MarkDone(placed.value.state, r), Accepted, placed.value.outputs)
      case CancelInput(_, _, c) =>
        if c.orderId == 0 || c.symbolId == 0 then Outcome(st, Failed, [])
        else
          var cancelled := CancelOrder(st, c);
          Outcome(MarkDone(cancelled.state, r), Accepted, cancelled.outputs)
      case LiquidateInput(_, _, q) =>
        var done := Liquidate(st, q);
        Outcome(MarkDone(done.state, r), Accepted, done.outputs)
      case MarkInput(_, marketId, mark) =>
        var done := UpdateMark(st, marketId, mark, ids);
        Outcome(MarkInputDone(done.state, r), Accepted, done.outputs)
      case RateInput(_, marketId, rate) =>
        if rate.scale <= 0 then Outcome(st, Failed, [])
        else
          Outcome(MarkInputDone(st.(rates := st.rates[marketId := rate]), r), Accepted,
                  [RateUpdated(marketId, rate.interval)])
      case TickInput(_, marketId, interval) => Tick(st, r, ids)
  }

  /** A settlement tick: paid intervals are left alone, unknown ones are rejected. */
  ghost function Tick(st: State, r: Record, ids: IdSource): (o: Outcome)
    requires CoreInv(st.core) && (forall m <- st.rates :: st.rates[m].scale > 0) && r.input.TickInput?
    ensures CoreInv(o.state.core)
  {
    var marketId, interval := r.input.marketId, r.input.interval;
    if (marketId, interval) in st.settled then Outcome(MarkInputDone(st, r), Accepted, [])
    else if marketId !in st.rates || st.rates[marketId].interval != interval then
      Outcome(MarkInputDone(st, r), Rejected, [])
    else
      var done := SettleFunding(st, marketId, interval, st.rates[marketId], ids);
      Outcome(MarkInputDone(done.state, r), Accepted, done.outputs)
  }
}
