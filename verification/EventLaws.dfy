/**
  What the core's event stream tells those who follow it: numbers without gaps, every id accepted once, and for every resting
  order its size and what is left of it.
 */
module EventLaws {
  import opened Types
  import opened BookSpec
  import opened Queues
  import opened MatchLaws
  import opened BookLaws
  import opened CoreSpec
  import opened CoreLaws
  import RuntimeSpec
  import opened StoreLaws
  import opened PlacementLaws
  import opened CancelLaws
  import CoreRuns

  // ---------- Numbers ----------

  function TradeIdOf(e: EngineEvent): seq<nat> {
    if e.TradeExecuted? then [e.tradeId] else []
  }

  /** The trade ids of an event stream, in order. */
  function TradeIds(events: seq<EngineEvent>): seq<nat> {
    if events == [] then [] else TradeIdOf(events[0]) + TradeIds(events[1..])
  }

  /** Event ids, sequence numbers and trade ids count on from one state of the counters to another, without gaps. */
  ghost predicate Numbered(events: seq<EngineEvent>, s: SequenceState, s': SequenceState) {
    && (forall i :: 0 <= i < |events| ==> events[i].eventId == s.nextEventId + i && events[i].sequence == s.nextSequence + i)
    && (forall k :: 0 <= k < |TradeIds(events)| ==> TradeIds(events)[k] == s.nextTradeId + k)
    && s' == SequenceState(s.nextSequence + |events|, s.nextTradeId + |TradeIds(events)|, s.nextEventId + |events|)
  }

  lemma {:induction false} TradeIdsAppend(a: seq<EngineEvent>, b: seq<EngineEvent>)
    ensures TradeIds(a + b) == TradeIds(a) + TradeIds(b)
  {
    hide TradeIdOf;
    if a == [] {
      assert a + b == b;
    } else {
      assert (a + b)[1..] == a[1..] + b;
      TradeIdsAppend(a[1..], b);
    }
  }

  lemma NumberedOn(a: seq<EngineEvent>, b: seq<EngineEvent>, s: SequenceState, t: SequenceState, u: SequenceState)
    requires Numbered(a, s, t) && Numbered(b, t, u)
    ensures Numbered(a + b, s, u)
  {
    hide TradeIds;
    TradeIdsAppend(a, b);
    var ids := TradeIds(a + b);
    forall k | 0 <= k < |ids| ensures ids[k] == s.nextTradeId + k {
      if k >= |TradeIds(a)| { assert ids[k] == TradeIds(b)[k - |TradeIds(a)|]; }
    }
    forall i | 0 <= i < |a + b| ensures (a + b)[i].eventId == s.nextEventId + i && (a + b)[i].sequence == s.nextSequence + i {
      if i >= |a| { assert (a + b)[i] == b[i - |a|]; }
    }
  }

  lemma NothingNumbered(s: SequenceState)
    ensures Numbered([], s, s)
  {
  }

  lemma OneNumbered(e: EngineEvent, s: SequenceState)
    requires e.eventId == s.nextEventId && e.sequence == s.nextSequence && !e.TradeExecuted?
    ensures Numbered([e], s, NextEvent(s))
  {
    assert [e][1..] == [];
  }

  lemma FillNumbered(symbolId: nat, maker: OrderSnapshot, taker: Taker, fill: nat, total: nat, s: SequenceState)
    requires fill <= maker.remaining <= maker.original && fill <= taker.remaining <= taker.original
    ensures Numbered(FillEvents(symbolId, maker, taker, fill, total, s), s, AfterFill(s))
  {
    var e := FillEvents(symbolId, maker, taker, fill, total, s);
    var s1 := SequenceState(s.nextSequence + 1, s.nextTradeId + 1, s.nextEventId + 1);
    TradeNumbered(e[0], s);
    OneNumbered(e[1], s1);
    OneNumbered(e[2], NextEvent(s1));
    OneNumbered(e[3], NextEvent(NextEvent(s1)));
    hide FillEvents, Numbered;
    NumberedOn([e[2]], [e[3]], NextEvent(s1), NextEvent(NextEvent(s1)), AfterFill(s));
    NumberedOn([e[1]], [e[2]] + [e[3]], s1, NextEvent(s1), AfterFill(s));
    NumberedOn([e[0]], [e[1]] + ([e[2]] + [e[3]]), s, s1, AfterFill(s));
    assert e == [e[0]] + ([e[1]] + ([e[2]] + [e[3]]));
  }

  lemma TradeNumbered(e: EngineEvent, s: SequenceState)
    requires e.TradeExecuted? && e.eventId == s.nextEventId && e.sequence == s.nextSequence && e.tradeId == s.nextTradeId
    ensures Numbered([e], s, SequenceState(s.nextSequence + 1, s.nextTradeId + 1, s.nextEventId + 1))
  {
    assert [e][1..] == [];
  }

  lemma {:induction false} MatchNumbered(symbolId: nat, side: Side, q: Queue, taker: Taker, s: SequenceState, last: Option<int>)
    requires SaneQuantities(q) && taker.remaining <= taker.original
    ensures var m := Match(symbolId, side, q, taker, s, last); Numbered(m.events, s, m.sequences)
    decreases |q| + taker.remaining
  {
    hide LevelLots, SaneQuantities, ConsumeFront, FillEvents, Numbered, AfterFill;
    if Matchable(side, q, taker) {
      MatchUnfolds(symbolId, side, q, taker, s, last);
      var rest := Match(symbolId, side, FrontQueue(q, taker), FrontTaker(q, taker), AfterFill(s), Some(q[0].price));
      MatchNumbered(symbolId, side, FrontQueue(q, taker), FrontTaker(q, taker), AfterFill(s), Some(q[0].price));
      var fill := FrontFill(q, taker);
      FillNumbered(symbolId, q[0], taker, fill, LevelLots(q, q[0].price) - fill, s);
      NumberedOn(FillEvents(symbolId, q[0], taker, fill, LevelLots(q, q[0].price) - fill, s), rest.events, s, AfterFill(s),
                 rest.sequences);
      FollowingNumbers(symbolId, side, q, taker, s, last);
    } else {
      MatchStops(symbolId, side, q, taker, s, last);
      NothingNumbered(s);
    }
  }

  lemma FollowingNumbers(symbolId: nat, side: Side, q: Queue, taker: Taker, s: SequenceState, last: Option<int>)
    requires SaneQuantities(q) && taker.remaining <= taker.original && Matchable(side, q, taker)
    requires SaneQuantities(FrontQueue(q, taker)) && FrontTaker(q, taker).remaining <= taker.original
    ensures Match(symbolId, side, q, taker, s, last).sequences
            == Match(symbolId, side, FrontQueue(q, taker), FrontTaker(q, taker), AfterFill(s), Some(q[0].price)).sequences
  {
    hide LevelLots, FillEvents, AfterFill, ConsumeFront;
  }

  lemma PlaceNumbered(book: Book, s: SequenceState, c: PlaceOrderCommand)
    requires SaneQuantities(book.bids) && SaneQuantities(book.asks)
    ensures var r := ProcessPlace(book, s, c); Numbered(r.events, s, r.sequences)
  {
    hide SaneQuantities, Match, PlaceRejection, Insert, LevelLots, Numbered;
    var r, opp := ProcessPlace(book, s, c), c.side.Opposite();
    OneNumbered(r.events[0], s);
    if PlaceRejection(book, c).Some? {
      assert r.events == [r.events[0]];
    } else {
      var m := MatchOf(book, s, c);
      MatchNumbered(book.config.symbolId, opp, book.SideQueue(opp), Taker(c.orderId, MatchLimit(c), c.quantity, c.quantity), NextEvent(s),
                    book.lastTradePrice);
      NumberedOn([r.events[0]], m.events, s, NextEvent(s), m.sequences);
      var tail := r.events[1 + |m.events|..];
      assert r.events == [r.events[0]] + m.events + tail;
      if tail != [] {
        OneNumbered(tail[0], m.sequences);
        assert tail == [tail[0]];
        NumberedOn([r.events[0]] + m.events, tail, s, m.sequences, r.sequences);
      } else {
        assert [r.events[0]] + m.events + [] == [r.events[0]] + m.events;
      }
    }
  }

  lemma CancelNumbered(book: Book, s: SequenceState, c: CancelOrderCommand)
    ensures var r := ProcessCancel(book, s, c); Numbered(r.events, s, r.sequences)
  {
    hide FindId, CancelTarget, RemoveId, LevelLots, Numbered;
    var r := ProcessCancel(book, s, c);
    OneNumbered(r.events[0], s);
    if |r.events| == 1 {
      assert r.events == [r.events[0]];
    } else {
      OneNumbered(r.events[1], NextEvent(s));
      NumberedOn([r.events[0]], [r.events[1]], s, NextEvent(s), r.sequences);
      assert r.events == [r.events[0]] + [r.events[1]];
    }
  }

  lemma ProcessNumbered(core: Core, command: EngineCommand)
    requires CoreInv(core)
    ensures var r := RuntimeSpec.CoreStep(core, command); Numbered(r.events, core.sequences, r.core.sequences)
  {
    hide CoreInv, SaneQuantities, ProcessPlace, ProcessCancel, ValidatePlace, Numbered, IsAccepted, IsCancelled, RejectionIn;
    CoreSane(core);
    var s := core.sequences;
    forall a, b, u, k, reason ensures Numbered([Rejection(s, a, b, u, k, reason)], s, NextEvent(s)) {
      OneNumbered(Rejection(s, a, b, u, k, reason), s);
    }
    match command
    case Place(c) =>
      if c.symbolId in core.books {
        BookSaneAt(core, c.symbolId);
        PlaceNumbered(core.books[c.symbolId], s, c);
      }
    case Cancel(c) => if c.symbolId in core.books { CancelNumbered(core.books[c.symbolId], s, c); }
    case Malformed =>
  }

  /** Over any run events, sequence numbers and trades are numbered on without a gap. */
  lemma {:induction false} RunNumbered(core: Core, commands: seq<EngineCommand>)
    requires CoreInv(core)
    ensures var r := CoreRuns.Run(core, commands); Numbered(r.events, core.sequences, r.core.sequences)
    decreases |commands|
  {
    hide CoreInv, CoreSpec.Process, Numbered;
    if commands == [] {
      NothingNumbered(core.sequences);
    } else {
      ProcessNumbered(core, commands[0]);
      var first := RuntimeSpec.CoreStep(core, commands[0]);
      var rest := CoreRuns.Run(first.core, commands[1..]);
      RunNumbered(first.core, commands[1..]);
      NumberedOn(first.events, rest.events, core.sequences, first.core.sequences, rest.core.sequences);
    }
  }

  // ---------- Every id once ----------

  function AcceptedId(e: EngineEvent): seq<nat> {
    if e.OrderAccepted? then [e.orderId] else []
  }

  /** The order ids that are accepted, in order. */
  function AcceptedIds(events: seq<EngineEvent>): seq<nat> {
    if events == [] then [] else AcceptedId(events[0]) + AcceptedIds(events[1..])
  }

  lemma {:induction false} AcceptedAppend(a: seq<EngineEvent>, b: seq<EngineEvent>)
    ensures AcceptedIds(a + b) == AcceptedIds(a) + AcceptedIds(b)
  {
    hide AcceptedId;
    if a == [] {
      assert a + b == b;
    } else {
      assert (a + b)[1..] == a[1..] + b;
      AcceptedAppend(a[1..], b);
    }
  }

  lemma {:induction false} NoneAccepted(events: seq<EngineEvent>)
    requires forall e <- events :: !e.OrderAccepted?
    ensures AcceptedIds(events) == []
  {
    if events != [] {
      assert events[0] in events;
      NoneAccepted(events[1..]);
    }
  }

  /** New ids, each once, and remembered afterwards. */
  ghost predicate FreshOnce(accepted: seq<nat>, before: set<nat>, after: set<nat>) {
    && (forall i, j :: 0 <= i < j < |accepted| ==> accepted[i] != accepted[j])
    && (forall i :: 0 <= i < |accepted| ==> accepted[i] !in before && accepted[i] in after)
    && before <= after
  }

  lemma FreshOn(a: seq<nat>, b: seq<nat>, x: set<nat>, y: set<nat>, z: set<nat>)
    requires FreshOnce(a, x, y) && FreshOnce(b, y, z)
    ensures FreshOnce(a + b, x, z)
  {
  }

  lemma {:induction false} MatchAcceptsNone(symbolId: nat, side: Side, q: Queue, taker: Taker, s: SequenceState, last: Option<int>)
    requires SaneQuantities(q) && taker.remaining <= taker.original
    ensures forall e <- Match(symbolId, side, q, taker, s, last).events :: !e.OrderAccepted?
    decreases |q| + taker.remaining
  {
    hide LevelLots, SaneQuantities, ConsumeFront;
    if Matchable(side, q, taker) {
      MatchUnfolds(symbolId, side, q, taker, s, last);
      MatchAcceptsNone(symbolId, side, FrontQueue(q, taker), FrontTaker(q, taker), AfterFill(s), Some(q[0].price));
    } else {
      MatchStops(symbolId, side, q, taker, s, last);
    }
  }

  lemma PlaceAccepts(core: Core, c: PlaceOrderCommand)
    requires CoreInv(core)
    ensures AcceptedIds(RuntimeSpec.CoreStep(core, Place(c)).events) == if Verdict(core, c).None? then [c.orderId] else []
  {
    hide CoreInv, CoreSpec.Process, Verdict, SaneQuantities, Match, PlaceRejection, Insert, LevelLots, ValidatePlace;
    Decided(core, c);
    var events := RuntimeSpec.CoreStep(core, Place(c)).events;
    if Verdict(core, c).None? {
      AcceptableIff(core, c);
      AcceptedIff(core, c);
      BookSaneAt(core, c.symbolId);
      var book, opp := core.books[c.symbolId], c.side.Opposite();
      MatchAcceptsNone(book.config.symbolId, opp, book.SideQueue(opp), Taker(c.orderId, MatchLimit(c), c.quantity, c.quantity),
                       NextEvent(core.sequences), book.lastTradePrice);
      NoneAccepted(events[1..]);
    } else {
      NoneAccepted(events);
    }
  }

  lemma ProcessFresh(core: Core, command: EngineCommand)
    requires CoreInv(core)
    ensures var r := RuntimeSpec.CoreStep(core, command);
            FreshOnce(AcceptedIds(r.events), core.idempotency.orderIds, r.core.idempotency.orderIds)
  {
    hide CoreInv, ProcessPlace, ProcessCancel, ValidatePlace, SaneQuantities, Verdict, AcceptedIds, TurnedAway, TakenOut;
    CoreSane(core);
    var r := RuntimeSpec.CoreStep(core, command);
    match command
    case Place(c) =>
      PlaceAccepts(core, c);
      Remembering(core, c);
      if Verdict(core, c).None? { VerdictFresh(core, c); }
    case Cancel(c) => CancelFresh(core, c);
    case Malformed => NoneAccepted(r.events);
  }

  lemma VerdictFresh(core: Core, c: PlaceOrderCommand)
    requires Verdict(core, c).None?
    ensures c.orderId !in core.idempotency.orderIds && c.commandId !in core.idempotency.commands
  {
  }

  lemma CancelFresh(core: Core, c: CancelOrderCommand)
    requires CoreInv(core)
    ensures var r := RuntimeSpec.CoreStep(core, Cancel(c));
            AcceptedIds(r.events) == [] && r.core.idempotency.orderIds == core.idempotency.orderIds
  {
    hide CoreInv, FindId, CancelTarget, RemoveId, LevelLots, RejectionIn, Summary;
    CoreSane(core);
    NoneAccepted(RuntimeSpec.CoreStep(core, Cancel(c)).events);
  }

  /** Over any run no order id is accepted twice, nor one that was accepted before. */
  lemma {:induction false} AcceptedOnce(core: Core, commands: seq<EngineCommand>)
    requires CoreInv(core)
    ensures var r := CoreRuns.Run(core, commands);
            FreshOnce(AcceptedIds(r.events), core.idempotency.orderIds, r.core.idempotency.orderIds)
    decreases |commands|
  {
    hide CoreInv, CoreSpec.Process, AcceptedIds, FreshOnce;
    if commands == [] {
      NoneAccepted([]);
      NoneFresh(core.idempotency.orderIds);
    } else {
      ProcessFresh(core, commands[0]);
      var first := RuntimeSpec.CoreStep(core, commands[0]);
      var rest := CoreRuns.Run(first.core, commands[1..]);
      AcceptedOnce(first.core, commands[1..]);
      AcceptedAppend(first.events, rest.events);
      FreshOn(AcceptedIds(first.events), AcceptedIds(rest.events), core.idempotency.orderIds, first.core.idempotency.orderIds,
              rest.core.idempotency.orderIds);
    }
  }

  lemma NoneFresh(x: set<nat>)
    ensures FreshOnce([], x, x)
  {
  }

  /** The id of a command, unless it is malformed. */
  function CommandId(command: EngineCommand): Option<nat> {
    match command
    case Place(c) => Some(c.commandId)
    case Cancel(c) => Some(c.commandId)
    case Malformed => None
  }

  lemma ProcessRecalls(core: Core, command: EngineCommand)
    requires CoreInv(core)
    ensures var r := RuntimeSpec.CoreStep(core, command);
            && core.idempotency.commands.Keys <= r.core.idempotency.commands.Keys
            && (CommandId(command).Some? ==> CommandId(command).value in r.core.idempotency.commands)
  {
    hide CoreInv, ProcessPlace, ProcessCancel, ValidatePlace, SaneQuantities, Verdict, MayCancel;
    CoreSane(core);
    match command
    case Place(c) =>
      Remembering(core, c);
      RepeatVerdict(core, c);
    case Cancel(c) => CancelRemembered(core, c);
    case Malformed =>
  }

  lemma RepeatVerdict(core: Core, c: PlaceOrderCommand)
    ensures Verdict(core, c) == Some(DuplicateCommand) <==> c.commandId in core.idempotency.commands
  {
  }

  lemma {:induction false} RunRecalls(core: Core, commands: seq<EngineCommand>)
    requires CoreInv(core)
    ensures var known := CoreRuns.Run(core, commands).core.idempotency.commands;
            && core.idempotency.commands.Keys <= known.Keys
            && (forall x <- commands :: CommandId(x).Some? ==> CommandId(x).value in known)
    decreases |commands|
  {
    hide CoreInv, CoreSpec.Process;
    if commands != [] {
      ProcessRecalls(core, commands[0]);
      RunRecalls(RuntimeSpec.CoreStep(core, commands[0]).core, commands[1..]);
    }
  }

  /** Over any run a command takes effect at most once: a repeat changes no book and is answered as a repeat. */
  lemma HandledOnce(core: Core, commands: seq<EngineCommand>, again: EngineCommand)
    requires CoreInv(core) && CommandId(again).Some? && exists x <- commands :: CommandId(x) == CommandId(again)
    ensures var end := CoreRuns.Run(core, commands).core;
            var r := RuntimeSpec.CoreStep(end, again);
            && r.core.books == end.books && r.core.idempotency == end.idempotency
            && |r.events| == 1 && r.events[0].OrderRejected? && r.events[0].reason == DuplicateCommand
  {
    hide CoreInv, SaneQuantities, CoreRuns.Run;
    RunRecalls(core, commands);
    CoreSane(CoreRuns.Run(core, commands).core);
  }

  // ---------- Following orders ----------

  /** What a follower knows of an order: its size and what is left of it. */
  datatype Known = Known(size: nat, left: nat)

  type Follower = map<nat, Known>

  /** A follower takes an event in. */
  function Follow(f: Follower, e: EngineEvent): Follower {
    match e
    case OrderAccepted(_, _, id, _, _, _, _, _, quantity) => f[id := Known(quantity, quantity)]
    case OrderPartial(_, _, id, filled, remaining) => f[id := Known(filled + remaining, remaining)]
    case OrderFilled(_, _, id) => f - {id}
    case OrderCancelled(_, _, id, _) => f - {id}
    case _ => f
  }

  function FollowAll(f: Follower, events: seq<EngineEvent>): Follower
    decreases |events|
  {
    if events == [] then f else FollowAll(Follow(f, events[0]), events[1..])
  }

  lemma {:induction false} FollowOn(f: Follower, a: seq<EngineEvent>, b: seq<EngineEvent>)
    ensures FollowAll(f, a + b) == FollowAll(FollowAll(f, a), b)
    decreases |a|
  {
    hide Follow;
    if a == [] {
      assert a + b == b;
    } else {
      assert (a + b)[1..] == a[1..] + b;
      FollowOn(Follow(f, a[0]), a[1..], b);
    }
  }

  /** The follower knows every order of a queue. */
  ghost predicate KnowsQueue(f: Follower, q: Queue) {
    forall o <- q :: o.orderId in f && f[o.orderId] == Known(o.original, o.remaining)
  }

  /** A follower of all markets knows every resting order, and no id rests in two markets. */
  ghost predicate Knows(f: Follower, core: Core) {
    && (forall m <- core.books :: KnowsQueue(f, Resting(core.books[m])))
    && (forall m <- core.books, n <- core.books, o: OrderSnapshot, p: OrderSnapshot ::
          m != n && o in Resting(core.books[m]) && p in Resting(core.books[n]) ==> o.orderId != p.orderId)
  }

  /** Events touch the follower only at some ids. */
  ghost predicate SameBut(f: Follower, f': Follower, ids: set<nat>) {
    forall id :: id !in ids ==> (id in f' <==> id in f) && (id in f ==> f'[id] == f[id])
  }

  ghost function IdsOf(q: Queue): set<nat> {
    set o | o in q :: o.orderId
  }

  lemma FollowFill(f: Follower, symbolId: nat, maker: OrderSnapshot, taker: Taker, fill: nat, total: nat, s: SequenceState)
    requires fill <= maker.remaining <= maker.original && fill <= taker.remaining <= taker.original && maker.orderId != taker.orderId
    ensures var f' := FollowAll(f, FillEvents(symbolId, maker, taker, fill, total, s));
            && SameBut(f, f', {maker.orderId, taker.orderId})
            && (maker.orderId in f' <==> fill < maker.remaining) && (taker.orderId in f' <==> fill < taker.remaining)
            && (fill < maker.remaining ==> f'[maker.orderId] == Known(maker.original, maker.remaining - fill))
            && (fill < taker.remaining ==> f'[taker.orderId] == Known(taker.original, taker.remaining - fill))
  {
    var e := FillEvents(symbolId, maker, taker, fill, total, s);
    var f1, f2 := Follow(f, e[1]), Follow(Follow(f, e[1]), e[2]);
    assert e[1..] == [e[1], e[2], e[3]] && [e[1], e[2], e[3]][1..] == [e[2], e[3]] && [e[2], e[3]][1..] == [e[3]] && [e[3]][1..] == [];
    assert FollowAll(f2, [e[3]]) == f2;
    assert FollowAll(f1, [e[2], e[3]]) == f2;
    assert FollowAll(f, [e[1], e[2], e[3]]) == f2;
    assert FollowAll(f, e) == f2;
  }

  /** What following a match leaves: every order still in the queue known, and the taker as long as some of it is open. */
  ghost predicate Followed(f: Follower, f': Follower, q: Queue, left: Queue, taker: Taker, taker': Taker) {
    && KnowsQueue(f', left)
    && SameBut(f, f', IdsOf(q) + {taker.orderId})
    && (taker'.remaining > 0 ==> taker.orderId in f' && f'[taker.orderId] == Known(taker.original, taker'.remaining))
  }

  lemma FrontFollowed(f: Follower, symbolId: nat, q: Queue, taker: Taker, total: nat, s: SequenceState)
    requires SaneQuantities(q) && q != [] && taker.remaining <= taker.original && taker.remaining > 0
    requires UniqueIds(q) && !HasId(q, taker.orderId) && KnowsQueue(f, q)
    ensures FrontFill(q, taker) <= q[0].remaining <= q[0].original && FrontFill(q, taker) <= taker.remaining
    ensures Followed(f, FollowAll(f, FillEvents(symbolId, q[0], taker, FrontFill(q, taker), total, s)), q, FrontQueue(q, taker), taker,
                     FrontTaker(q, taker))
  {
    hide FollowAll, FillEvents;
    var fill := FrontFill(q, taker);
    SaneFront(q);
    FollowFill(f, symbolId, q[0], taker, fill, total, s);
    var f', q' := FollowAll(f, FillEvents(symbolId, q[0], taker, fill, total, s)), FrontQueue(q, taker);
    assert q[0] in q;
    forall o | o in q' ensures o.orderId in f' && f'[o.orderId] == Known(o.original, o.remaining) {
      var i :| 0 <= i < |q'| && q'[i] == o;
      var k := if fill == q[0].remaining then i + 1 else i;
      assert k > 0 ==> q[k] == o && q[k] in q && q[k].orderId != q[0].orderId;
      assert q[k].orderId != taker.orderId;
    }
  }

  lemma FollowedOn(f: Follower, f1: Follower, f2: Follower, q: Queue, q1: Queue, q2: Queue, taker: Taker, t1: Taker, t2: Taker)
    requires Followed(f, f1, q, q1, taker, t1) && Followed(f1, f2, q1, q2, t1, t2)
    requires t1.orderId == taker.orderId && t1.original == taker.original && IdsOf(q1) <= IdsOf(q)
    ensures Followed(f, f2, q, q2, taker, t2)
  {
    hide KnowsQueue, IdsOf;
  }

  lemma FrontIdsIn(q: Queue, taker: Taker)
    requires q != []
    ensures IdsOf(FrontQueue(q, taker)) <= IdsOf(q)
  {
    var q' := FrontQueue(q, taker);
    assert q[0] in q;
    forall o | o in q' ensures o.orderId in IdsOf(q) { assert o in q || o.orderId == q[0].orderId; }
  }

  lemma {:induction false} MatchFollowed(f: Follower, symbolId: nat, side: Side, q: Queue, taker: Taker, s: SequenceState,
                                         last: Option<int>)
    requires SaneQuantities(q) && taker.remaining <= taker.original && UniqueIds(q) && !HasId(q, taker.orderId) && KnowsQueue(f, q)
    requires taker.remaining > 0 ==> taker.orderId in f && f[taker.orderId] == Known(taker.original, taker.remaining)
    ensures var m := Match(symbolId, side, q, taker, s, last); Followed(f, FollowAll(f, m.events), q, m.queue, taker, m.taker)
    decreases |q| + taker.remaining
  {
    hide LevelLots, SaneQuantities, ConsumeFront, FillEvents, FollowAll, KnowsQueue, UniqueIds, HasId, IdsOf, Followed;
    if Matchable(side, q, taker) {
      MatchUnfolds(symbolId, side, q, taker, s, last);
      var q', taker', fill := FrontQueue(q, taker), FrontTaker(q, taker), FrontFill(q, taker);
      var rest := Match(symbolId, side, q', taker', AfterFill(s), Some(q[0].price));
      var e := FillEvents(symbolId, q[0], taker, fill, LevelLots(q, q[0].price) - fill, s);
      var f' := FollowAll(f, e);
      FrontFollowed(f, symbolId, q, taker, LevelLots(q, q[0].price) - fill, s);
      FollowedParts(f, f', q, q', taker, taker');
      FrontIds(q, fill);
      MatchFollowed(f', symbolId, side, q', taker', AfterFill(s), Some(q[0].price));
      FollowOn(f, e, rest.events);
      FrontIdsIn(q, taker);
      FollowedOn(f, f', FollowAll(f', rest.events), q, q', rest.queue, taker, taker', rest.taker);
    } else {
      MatchStops(symbolId, side, q, taker, s, last);
      FollowNothing(f);
      FollowedNothing(f, q, taker);
    }
  }

  lemma FollowedParts(f: Follower, f': Follower, q: Queue, left: Queue, taker: Taker, taker': Taker)
    requires Followed(f, f', q, left, taker, taker')
    ensures KnowsQueue(f', left)
    ensures taker'.remaining > 0 ==> taker.orderId in f' && f'[taker.orderId] == Known(taker.original, taker'.remaining)
  {
    hide KnowsQueue, SameBut;
  }

  lemma FollowNothing(f: Follower)
    ensures FollowAll(f, []) == f
  {
  }

  lemma FollowedNothing(f: Follower, q: Queue, taker: Taker)
    requires KnowsQueue(f, q)
    requires taker.remaining > 0 ==> taker.orderId in f && f[taker.orderId] == Known(taker.original, taker.remaining)
    ensures Followed(f, f, q, q, taker, taker)
  {
    hide KnowsQueue;
  }

  // ---------- Commands, followed ----------

  /** Events after which the follower differs only at a new id and at ids of one market, and knows that market. */
  ghost predicate Told(f: Follower, f': Follower, core: Core, after: Core, market: nat, id: nat)
    requires market in core.books && market in after.books
  {
    && KnowsQueue(f', Resting(after.books[market]))
    && SameBut(f, f', IdsOf(Resting(core.books[market])) + {id})
    && IdsOf(Resting(after.books[market])) <= IdsOf(Resting(core.books[market])) + {id}
  }

  lemma KnownElsewhere(f: Follower, f': Follower, core: Core, after: Core, market: nat, id: nat)
    requires CoreInv(core) && Knows(f, core) && market in core.books && market in after.books && Told(f, f', core, after, market, id)
    requires after.books == core.books[market := after.books[market]]
    requires forall m <- core.books :: m != market ==> id !in IdsOf(Resting(core.books[m]))
    ensures Knows(f', after)
  {
    hide CoreInv, KnowsQueue, SameBut, IdsOf;
    forall m <- after.books ensures KnowsQueue(f', Resting(after.books[m])) {
      if m != market { OtherKnown(f, f', core, market, m, id); }
    }
    forall m <- after.books, n <- after.books, o: OrderSnapshot, p: OrderSnapshot |
      m != n && o in Resting(after.books[m]) && p in Resting(after.books[n])
      ensures o.orderId != p.orderId
    {
      if m == market {
        ApartStill(f, core, after, market, n, id, o, p);
      } else if n == market {
        ApartStill(f, core, after, market, m, id, p, o);
      }
    }
  }

  lemma OtherKnown(f: Follower, f': Follower, core: Core, market: nat, m: nat, id: nat)
    requires Knows(f, core) && market in core.books && m in core.books && m != market && id !in IdsOf(Resting(core.books[m]))
    requires SameBut(f, f', IdsOf(Resting(core.books[market])) + {id})
    ensures KnowsQueue(f', Resting(core.books[m]))
  {
    forall o | o in Resting(core.books[m]) ensures o.orderId in f' && f'[o.orderId] == Known(o.original, o.remaining) {
      assert o.orderId in IdsOf(Resting(core.books[m]));
      OnlyThere(f, core, market, m, o);
    }
  }

  lemma ApartStill(f: Follower, core: Core, after: Core, market: nat, n: nat, id: nat, o: OrderSnapshot, p: OrderSnapshot)
    requires Knows(f, core) && market in core.books && n in core.books && n != market && market in after.books
    requires o in Resting(after.books[market]) && p in Resting(core.books[n]) && id !in IdsOf(Resting(core.books[n]))
    requires IdsOf(Resting(after.books[market])) <= IdsOf(Resting(core.books[market])) + {id}
    ensures o.orderId != p.orderId
  {
    hide KnowsQueue;
    assert o.orderId in IdsOf(Resting(after.books[market])) && p.orderId in IdsOf(Resting(core.books[n]));
    if o.orderId != id { OnlyThere(f, core, market, n, p); }
  }

  lemma OnlyThere(f: Follower, core: Core, market: nat, m: nat, o: OrderSnapshot)
    requires Knows(f, core) && market in core.books && m in core.books && m != market && o in Resting(core.books[m])
    ensures o.orderId !in IdsOf(Resting(core.books[market]))
  {
  }

  lemma PlaceTold(f: Follower, core: Core, c: PlaceOrderCommand)
    requires CoreInv(core) && Acceptable(core, c) && KnowsQueue(f, Resting(core.books[c.symbolId]))
    ensures var r := RuntimeSpec.CoreStep(core, Place(c));
            c.symbolId in r.core.books && Told(f, FollowAll(f, r.events), core, r.core, c.symbolId, c.orderId)
  {
    hide CoreInv, SaneQuantities, PlaceRejection, ValidatePlace, Match, FollowAll, Insert, Suffix, Taken, UniqueIds, HasId, LevelLots,
      Followed, KnowsQueue, SameBut, IdsOf, ProcessPlace;
    AcceptedIff(core, c);
    PlacedSides(core, c);
    NeverResting(core, c);
    OpponentsSorted(core, c);
    SidesUnique(core, c);
    BookSaneAt(core, c.symbolId);
    ConfigOf(core, c.symbolId);
    var book, s, opp := core.books[c.symbolId], core.sequences, c.side.Opposite();
    var q, own, m := Opponents(core, c), Peers(core, c), MatchOf(book, s, c);
    var taker := Taker(c.orderId, MatchLimit(c), c.quantity, c.quantity);
    var f0 := f[c.orderId := Known(c.quantity, c.quantity)];
    StartFollowed(f, book, c, q, own);
    MatchFollowed(f0, book.config.symbolId, opp, q, taker, NextEvent(s), book.lastTradePrice);
    PlaceFollowed(f, book, s, c);
    var r := RuntimeSpec.CoreStep(core, Place(c));
    SidesTold(f, FollowAll(f0, m.events), core, r.core, c, m);
  }

  lemma SidesUnique(core: Core, c: PlaceOrderCommand)
    requires CoreInv(core) && c.symbolId in core.books
    ensures UniqueIds(Opponents(core, c))
    ensures forall x <- Peers(core, c), y <- Opponents(core, c) :: x.orderId != y.orderId
  {
    hide Sorted, SaneQuantities, ValidSymbolPrice, CoreLaws.Remembered;
  }

  lemma StartFollowed(f: Follower, book: Book, c: PlaceOrderCommand, q: Queue, own: Queue)
    requires KnowsQueue(f, Resting(book)) && !HasId(q, c.orderId) && !HasId(own, c.orderId)
    requires q == book.SideQueue(c.side.Opposite()) && own == book.SideQueue(c.side)
    ensures var f0 := f[c.orderId := Known(c.quantity, c.quantity)]; KnowsQueue(f0, q) && KnowsQueue(f0, own)
  {
    forall o | o in q ensures o in Resting(book) && o.orderId != c.orderId { var i :| 0 <= i < |q| && q[i] == o; }
    forall o | o in own ensures o in Resting(book) && o.orderId != c.orderId { var i :| 0 <= i < |own| && own[i] == o; }
  }

  /** Following a placement is following its acceptance and then its match. */
  lemma PlaceFollowed(f: Follower, book: Book, s: SequenceState, c: PlaceOrderCommand)
    requires SaneQuantities(book.bids) && SaneQuantities(book.asks) && PlaceRejection(book, c).None?
    ensures FollowAll(f, ProcessPlace(book, s, c).events)
            == FollowAll(f[c.orderId := Known(c.quantity, c.quantity)], MatchOf(book, s, c).events)
  {
    hide MatchOf, PlaceRejection, SaneQuantities, Insert, LevelLots;
    var events, m := ProcessPlace(book, s, c).events, MatchOf(book, s, c);
    var tail := events[1 + |m.events|..];
    assert events[1..] == m.events + tail;
    var f0 := f[c.orderId := Known(c.quantity, c.quantity)];
    FollowOn(f0, m.events, tail);
    if tail != [] { assert tail[1..] == []; }
  }

  /** The two sides of the market after an accepted order, to the follower. */
  lemma SidesTold(f: Follower, f': Follower, core: Core, after: Core, c: PlaceOrderCommand, m: MatchResult)
    requires c.symbolId in core.books && c.symbolId in after.books
    requires var q, taker := Opponents(core, c), Taker(c.orderId, MatchLimit(c), c.quantity, c.quantity);
             && Followed(f[c.orderId := Known(c.quantity, c.quantity)], f', q, m.queue, taker, m.taker)
             && KnowsQueue(f[c.orderId := Known(c.quantity, c.quantity)], Peers(core, c))
             && (forall x <- Peers(core, c), y <- q :: x.orderId != y.orderId) && !HasId(Peers(core, c), c.orderId)
             && Suffix(m.queue, q) && Opponents(after, c) == m.queue
    requires Peers(after, c) == if CanRest(c) && m.taker.remaining > 0
                                then Insert(c.side, Peers(core, c), RestingSnapshot(c, m.taker.remaining, core.sequences.nextSequence))
                                else Peers(core, c)
    ensures Told(f, f', core, after, c.symbolId, c.orderId)
  {
    hide Insert, Suffix, HasId;
    var q, own, o := Opponents(core, c), Peers(core, c), RestingSnapshot(c, m.taker.remaining, core.sequences.nextSequence);
    var before, now := Resting(core.books[c.symbolId]), Resting(after.books[c.symbolId]);
    assert forall x :: x in before <==> x in q || x in own;
    assert forall x :: x in now <==> x in Opponents(after, c) || x in Peers(after, c);
    forall x | x in own ensures x.orderId != c.orderId && x.orderId in f' && f'[x.orderId] == Known(x.original, x.remaining) {
      OwnId(own, x, c.orderId);
    }
    forall x | x in now
      ensures x.orderId in f' && f'[x.orderId] == Known(x.original, x.remaining)
      ensures x.orderId in IdsOf(before) + {c.orderId}
    {
      InsertMember(c.side, own, o, x);
      LeftFrom(m.queue, q, x);
    }
  }

  lemma OwnId(own: Queue, x: OrderSnapshot, id: nat)
    requires x in own && !HasId(own, id)
    ensures x.orderId != id
  {
    var i :| 0 <= i < |own| && own[i] == x;
  }

  lemma CancelTold(f: Follower, core: Core, c: CancelOrderCommand, o: OrderSnapshot)
    requires CoreInv(core) && c.symbolId in core.books && KnowsQueue(f, Resting(core.books[c.symbolId]))
    requires o in Resting(core.books[c.symbolId]) && TakenOut(core, c, RuntimeSpec.CoreStep(core, Cancel(c)), o)
    ensures var r := RuntimeSpec.CoreStep(core, Cancel(c));
            c.symbolId in r.core.books && Told(f, FollowAll(f, r.events), core, r.core, c.symbolId, o.orderId)
  {
    hide CoreInv, CoreSpec.Process, RemoveId, UniqueIds;
    var r := RuntimeSpec.CoreStep(core, Cancel(c));
    RestingFacts(core, c.symbolId);
    assert r.events[1..] == [r.events[1]] && [r.events[1]][1..] == [];
    assert FollowAll(f - {o.orderId}, [r.events[1]]) == f - {o.orderId};
    assert FollowAll(f, r.events) == f - {o.orderId};
    forall x | x in Resting(core.books[c.symbolId]) && x != o ensures x.orderId != o.orderId {
      if x.orderId == o.orderId { TheOneWithId(Resting(core.books[c.symbolId]), o, x); }
    }
  }

  lemma QuietFollowed(f: Follower, events: seq<EngineEvent>)
    requires |events| == 1 && events[0].OrderRejected?
    ensures FollowAll(f, events) == f
  {
    assert events[1..] == [];
  }

  lemma PlaceKnown(f: Follower, core: Core, c: PlaceOrderCommand)
    requires CoreInv(core) && Knows(f, core)
    ensures var r := RuntimeSpec.CoreStep(core, Place(c)); Knows(FollowAll(f, r.events), r.core)
  {
    hide CoreInv, CoreSpec.Process, FollowAll, PlaceRejection, ValidatePlace, SaneQuantities, ProcessPlace, Told, KnowsQueue;
    PlaceCases(core, c);
    AcceptedIff(core, c);
    var r := RuntimeSpec.CoreStep(core, Place(c));
    if Acceptable(core, c) {
      PlaceTold(f, core, c);
      NowhereElse(core, c);
      KnownElsewhere(f, FollowAll(f, r.events), core, r.core, c.symbolId, c.orderId);
    } else {
      QuietFollowed(f, r.events);
    }
  }

  lemma NowhereElse(core: Core, c: PlaceOrderCommand)
    requires CoreInv(core) && Acceptable(core, c)
    ensures forall m <- core.books :: c.orderId !in IdsOf(Resting(core.books[m]))
  {
    hide PlaceRejection, BookInv, ValidSymbolPrice, ValidSymbolQuantity;
    forall m <- core.books ensures c.orderId !in IdsOf(Resting(core.books[m])) { assert BookOk(core.books[m], m, core.idempotency); }
  }

  lemma CancelKnown(f: Follower, core: Core, c: CancelOrderCommand)
    requires CoreInv(core) && Knows(f, core)
    ensures var r := RuntimeSpec.CoreStep(core, Cancel(c)); Knows(FollowAll(f, r.events), r.core)
  {
    hide CoreInv, CoreSpec.Process, FollowAll, Told, KnowsQueue, Named, RemoveId;
    CancelsIff(core, c);
    var r := RuntimeSpec.CoreStep(core, Cancel(c));
    if MayCancel(core, c) {
      var o :| Named(Resting(core.books[c.symbolId]), c, o) && TakenOut(core, c, r, o);
      NamedOwner(Resting(core.books[c.symbolId]), c, o);
      CancelTold(f, core, c, o);
      forall m <- core.books | m != c.symbolId ensures o.orderId !in IdsOf(Resting(core.books[m])) {
        forall x | x in Resting(core.books[m]) ensures x.orderId != o.orderId { OnlyThere(f, core, c.symbolId, m, x); MemberId(core, c.symbolId, o); }
      }
      KnownElsewhere(f, FollowAll(f, r.events), core, r.core, c.symbolId, o.orderId);
    } else {
      QuietFollowed(f, r.events);
    }
  }

  lemma MemberId(core: Core, market: nat, o: OrderSnapshot)
    requires market in core.books && o in Resting(core.books[market])
    ensures o.orderId in IdsOf(Resting(core.books[market]))
  {
  }

  lemma ProcessKnown(f: Follower, core: Core, command: EngineCommand)
    requires CoreInv(core) && Knows(f, core)
    ensures var r := RuntimeSpec.CoreStep(core, command); Knows(FollowAll(f, r.events), r.core)
  {
    hide CoreInv, ProcessPlace, ProcessCancel, ValidatePlace, SaneQuantities, Knows, FollowAll;
    CoreSane(core);
    match command
    case Place(c) => PlaceKnown(f, core, c);
    case Cancel(c) => CancelKnown(f, core, c);
    case Malformed =>
      var r := RuntimeSpec.CoreStep(core, command);
      QuietFollowed(f, r.events);
      KnownStill(f, core, r.core);
  }

  lemma KnownStill(f: Follower, core: Core, after: Core)
    requires Knows(f, core) && after.books == core.books
    ensures Knows(f, after)
  {
  }

  /**
    Over any run, whoever follows the events and knew every resting order, its size and what was left of it, knows so of every
    order that rests at the end; and no id ever rests in two markets if none did.
   */
  lemma {:induction false} FollowersKnow(f: Follower, core: Core, commands: seq<EngineCommand>)
    requires CoreInv(core) && Knows(f, core)
    ensures var r := CoreRuns.Run(core, commands); Knows(FollowAll(f, r.events), r.core)
    decreases |commands|
  {
    hide CoreInv, CoreSpec.Process, Knows, Follow;
    if commands != [] {
      ProcessKnown(f, core, commands[0]);
      var first := RuntimeSpec.CoreStep(core, commands[0]);
      var rest := CoreRuns.Run(first.core, commands[1..]);
      FollowersKnow(FollowAll(f, first.events), first.core, commands[1..]);
      FollowOn(f, first.events, rest.events);
    }
  }
}
