/** What the greedy match does to the opposing queue, the taker and the event stream. */
module MatchLaws {
  import opened Types
  import opened BookSpec

  lemma SaneRest(q: Queue, fill: nat)
    requires SaneQuantities(q) && q != [] && fill <= q[0].remaining
    ensures SaneQuantities(ConsumeFront(q, fill))
  {
  }

  /** `left` is what is left of `q`: a suffix whose first order may have given up some lots. */
  ghost predicate Suffix(left: Queue, q: Queue) {
    && |left| <= |q|
    && (left != [] ==>
          var k := |q| - |left|;
          && 0 < left[0].remaining <= q[k].remaining
          && left[0] == q[k].(remaining := left[0].remaining)
          && left[1..] == q[k + 1..])
  }

  lemma SuffixStep(left: Queue, q: Queue, fill: nat)
    requires q != [] && fill <= q[0].remaining && Suffix(left, ConsumeFront(q, fill))
    ensures Suffix(left, q)
  {
    var c := ConsumeFront(q, fill);
    if left != [] {
      var k := |c| - |left|;
      if fill == q[0].remaining {
        assert c[k + 1..] == q[k + 2..];
      } else if k == 0 {
        assert c[1..] == q[1..];
      } else {
        assert c[k + 1..] == q[k + 1..];
      }
    }
  }

  /** Matching eats the queue from its front and leaves the rest as it was. */
  lemma {:induction false} MatchLeavesSuffix(symbolId: nat, side: Side, q: Queue, taker: Taker, s: SequenceState,
                                             last: Option<int>)
    requires SaneQuantities(q) && taker.remaining <= taker.original
    ensures var m := Match(symbolId, side, q, taker, s, last);
            && Suffix(m.queue, q) && SaneQuantities(m.queue)
            && m.taker == taker.(remaining := m.taker.remaining) && m.taker.remaining <= taker.remaining
    decreases |q| + taker.remaining
  {
    hide FillEvents, LevelLots, Suffix;
    if Matchable(side, q, taker) {
      var fill: nat := Min(taker.remaining, q[0].remaining);
      SaneRest(q, fill);
      MatchLeavesSuffix(symbolId, side, ConsumeFront(q, fill), taker.(remaining := taker.remaining - fill),
                        AfterFill(s), Some(q[0].price));
      SuffixStep(Match(symbolId, side, ConsumeFront(q, fill), taker.(remaining := taker.remaining - fill),
                       AfterFill(s), Some(q[0].price)).queue, q, fill);
    } else {
      SuffixSelf(q);
    }
  }

  lemma SuffixSelf(q: Queue)
    requires SaneQuantities(q)
    ensures Suffix(q, q)
  {
  }

  /** No id or client id appears that was not there before. */
  lemma SuffixIds(left: Queue, q: Queue, id: nat)
    requires Suffix(left, q)
    ensures HasId(left, id) ==> HasId(q, id)
    ensures HasClient(left, id) ==> HasClient(q, id)
  {
    var k := |q| - |left|;
    forall i | 0 <= i < |left|
      ensures left[i].orderId == q[i + k].orderId && left[i].clientOrderId == q[i + k].clientOrderId
    {
      if i > 0 { assert left[i] == left[1..][i - 1]; }
    }
    if HasId(left, id) { var i :| 0 <= i < |left| && left[i].orderId == id; assert q[i + k].orderId == id; }
    if HasClient(left, id) {
      var i :| 0 <= i < |left| && left[i].clientOrderId == id;
      assert q[i + k].clientOrderId == id;
    }
  }

  // ---------- One fill, and the rest ----------

  lemma SaneFront(q: Queue)
    requires SaneQuantities(q) && q != []
    ensures 0 < q[0].remaining <= q[0].original
  {
  }

  /** What the taker takes from the front of the queue. */
  function FrontFill(q: Queue, taker: Taker): nat
    requires q != []
  {
    Min(taker.remaining, q[0].remaining)
  }

  function FrontQueue(q: Queue, taker: Taker): Queue
    requires q != []
  {
    ConsumeFront(q, FrontFill(q, taker))
  }

  function FrontTaker(q: Queue, taker: Taker): Taker
    requires q != []
  {
    taker.(remaining := taker.remaining - FrontFill(q, taker))
  }

  /** The first fill takes something, and uses up the front order or the taker. */
  lemma FirstFill(side: Side, q: Queue, taker: Taker)
    requires SaneQuantities(q) && taker.remaining <= taker.original && Matchable(side, q, taker)
    ensures var q', taker', fill := FrontQueue(q, taker), FrontTaker(q, taker), FrontFill(q, taker);
            && 0 < fill <= q[0].remaining <= q[0].original && fill <= taker.remaining
            && (fill < q[0].remaining ==> taker'.remaining == 0)
            && SaneQuantities(q') && |q'| + taker'.remaining < |q| + taker.remaining
            && LevelLots(q, q[0].price) >= fill
  {
    hide LevelLots, SaneQuantities;
    SaneFront(q);
    SaneRest(q, FrontFill(q, taker));
    FrontLots(q);
  }

  /** A match is its first fill, and the match that remains. */
  lemma MatchUnfolds(symbolId: nat, side: Side, q: Queue, taker: Taker, s: SequenceState, last: Option<int>)
    requires SaneQuantities(q) && taker.remaining <= taker.original && Matchable(side, q, taker)
    ensures var q', taker', fill := FrontQueue(q, taker), FrontTaker(q, taker), FrontFill(q, taker);
            && 0 < fill <= q[0].remaining <= q[0].original && fill <= taker.remaining
            && (fill < q[0].remaining ==> taker'.remaining == 0)
            && SaneQuantities(q') && |q'| + taker'.remaining < |q| + taker.remaining
            && LevelLots(q, q[0].price) >= fill
            && var m, rest := Match(symbolId, side, q, taker, s, last), Match(symbolId, side, q', taker', AfterFill(s), Some(q[0].price));
               && m.queue == rest.queue && m.taker == rest.taker && rest.taker.remaining <= taker'.remaining
               && m.events == FillEvents(symbolId, q[0], taker, fill, LevelLots(q, q[0].price) - fill, s) + rest.events
  {
    hide LevelLots, FillEvents, SaneQuantities, Suffix, ConsumeFront, AfterFill;
    FirstFill(side, q, taker);
    MatchLeavesSuffix(symbolId, side, FrontQueue(q, taker), FrontTaker(q, taker), AfterFill(s), Some(q[0].price));
  }

  lemma MatchStops(symbolId: nat, side: Side, q: Queue, taker: Taker, s: SequenceState, last: Option<int>)
    requires SaneQuantities(q) && taker.remaining <= taker.original && !Matchable(side, q, taker)
    ensures Match(symbolId, side, q, taker, s, last) == MatchResult(q, taker, s, [], last)
  {
  }

  // ---------- Price-time priority ----------

  datatype Fill = Fill(makerOrderId: nat, takerOrderId: nat, price: int, quantity: nat)

  /** The trades in an event stream, in order. */
  function Trades(events: seq<EngineEvent>): seq<Fill> {
    if events == [] then []
    else if events[0].TradeExecuted? then
      [Fill(events[0].makerOrderId, events[0].takerOrderId, events[0].price, events[0].quantity)] + Trades(events[1..])
    else Trades(events[1..])
  }

  function Traded(fills: seq<Fill>): nat {
    if fills == [] then 0 else fills[0].quantity + Traded(fills[1..])
  }

  lemma {:induction false} TradesAppend(a: seq<EngineEvent>, b: seq<EngineEvent>)
    ensures Trades(a + b) == Trades(a) + Trades(b)
  {
    if a == [] {
      assert a + b == b;
    } else {
      assert (a + b)[1..] == a[1..] + b;
      TradesAppend(a[1..], b);
    }
  }

  lemma FillTrades(symbolId: nat, maker: OrderSnapshot, taker: Taker, fill: nat, total: nat, s: SequenceState)
    requires fill <= maker.remaining <= maker.original && fill <= taker.remaining <= taker.original
    ensures Trades(FillEvents(symbolId, maker, taker, fill, total, s))
            == [Fill(maker.orderId, taker.orderId, maker.price, fill)]
  {
    var e := FillEvents(symbolId, maker, taker, fill, total, s);
    assert e[1..] == [e[1], e[2], e[3]] && [e[1], e[2], e[3]][1..] == [e[2], e[3]] && [e[2], e[3]][1..] == [e[3]];
    assert Trades([e[3]]) == [];
    assert Trades([e[2], e[3]]) == Trades([e[3]]);
    assert Trades([e[1], e[2], e[3]]) == Trades([e[2], e[3]]);
  }

  /**
    The trades of a match, one unfolding: the first fills the best order, the rest are the match that follows.
   */
  lemma MatchTrades(symbolId: nat, side: Side, q: Queue, taker: Taker, s: SequenceState, last: Option<int>)
    requires SaneQuantities(q) && taker.remaining <= taker.original
    ensures Matchable(side, q, taker) ==>
              var fill: nat := Min(taker.remaining, q[0].remaining);
              && SaneQuantities(ConsumeFront(q, fill))
              && Trades(Match(symbolId, side, q, taker, s, last).events)
                 == [Fill(q[0].orderId, taker.orderId, q[0].price, fill)]
                    + Trades(Match(symbolId, side, ConsumeFront(q, fill), taker.(remaining := taker.remaining - fill),
                                   AfterFill(s), Some(q[0].price)).events)
    ensures !Matchable(side, q, taker) ==> Trades(Match(symbolId, side, q, taker, s, last).events) == []
  {
    hide FillEvents, LevelLots, ConsumeFront, SaneQuantities, Trades, AfterFill;
    if Matchable(side, q, taker) {
      var fill: nat := Min(taker.remaining, q[0].remaining);
      SaneRest(q, fill);
      SaneFront(q);
      FrontLots(q);
      FillTrades(symbolId, q[0], taker, fill, LevelLots(q, q[0].price) - fill, s);
      TradesAppend(FillEvents(symbolId, q[0], taker, fill, LevelLots(q, q[0].price) - fill, s),
                   Match(symbolId, side, ConsumeFront(q, fill), taker.(remaining := taker.remaining - fill),
                         AfterFill(s), Some(q[0].price)).events);
    } else {
      NoTrades();
    }
  }

  lemma NoTrades()
    ensures Trades([]) == []
  {
  }

  /**
    Price-time priority, with no reference to how the loop runs.  The k-th trade is with the k-th order of the queue,
    at that order's price, for as much as it has or as the orders ahead of it left wanting; and the trades stop
    exactly where the queue ends, the limit is no longer reached, or the orders ahead cover the quantity.
   */
  ghost predicate FillsInPriority(side: Side, q: Queue, taker: Taker, t: seq<Fill>) {
    && |t| <= |q|
    && (forall k :: 0 <= k < |t| ==> FillAt(side, q, taker, k, t[k]))
    && (|t| == |q| || !Crosses(side, taker.limit, q[|t|].price) || Lots(q[..|t|]) >= taker.remaining)
  }

  ghost predicate FillAt(side: Side, q: Queue, taker: Taker, k: nat, f: Fill)
    requires k < |q|
  {
    && Crosses(side, taker.limit, q[k].price)
    && Lots(q[..k]) < taker.remaining
    && f == Fill(q[k].orderId, taker.orderId, q[k].price, Min(q[k].remaining, taker.remaining - Lots(q[..k])))
  }

  /** A first fill that empties the best order, and then the fills of the rest. */
  lemma FillsCons(side: Side, q: Queue, taker: Taker, t: seq<Fill>)
    requires q != [] && Crosses(side, taker.limit, q[0].price) && q[0].remaining < taker.remaining
    requires FillsInPriority(side, q[1..], taker.(remaining := taker.remaining - q[0].remaining), t)
    ensures FillsInPriority(side, q, taker, [Fill(q[0].orderId, taker.orderId, q[0].price, q[0].remaining)] + t)
  {
    var t' := [Fill(q[0].orderId, taker.orderId, q[0].price, q[0].remaining)] + t;
    var taker' := taker.(remaining := taker.remaining - q[0].remaining);
    forall k | 0 <= k < |t'|
      ensures FillAt(side, q, taker, k, t'[k])
    {
      if k > 0 {
        PrefixLots(q, k);
        assert FillAt(side, q[1..], taker', k - 1, t[k - 1]);
      }
    }
    PrefixLots(q, |t'|);
  }

  lemma PrefixLots(q: Queue, k: nat)
    requires 0 < k <= |q|
    ensures Lots(q[..k]) == q[0].remaining + Lots(q[1..][..k - 1])
  {
    assert q[..k][1..] == q[1..][..k - 1];
  }

  /** The trades of a match follow price-time priority over the opposing queue. */
  lemma {:induction false} PriceTimePriority(symbolId: nat, side: Side, q: Queue, taker: Taker, s: SequenceState,
                                             last: Option<int>)
    requires SaneQuantities(q) && taker.remaining <= taker.original
    ensures FillsInPriority(side, q, taker, Trades(Match(symbolId, side, q, taker, s, last).events))
    decreases |q|
  {
    hide Match, LevelLots, SaneQuantities, Trades, AfterFill;
    MatchTrades(symbolId, side, q, taker, s, last);
    if Matchable(side, q, taker) {
      SaneFront(q);
      var fill: nat := Min(taker.remaining, q[0].remaining);
      var taker' := taker.(remaining := taker.remaining - fill);
      if taker'.remaining == 0 {
        MatchTrades(symbolId, side, ConsumeFront(q, fill), taker', AfterFill(s), Some(q[0].price));
        PrefixLots(q, 1);
      } else {
        PriceTimePriority(symbolId, side, q[1..], taker', AfterFill(s), Some(q[0].price));
        FillsCons(side, q, taker, Trades(Match(symbolId, side, q[1..], taker', AfterFill(s), Some(q[0].price)).events));
      }
    }
  }

  /** Lots traded are lots the taker gave up and lots the queue gave up: as many as wanted, or as many as are reachable. */
  lemma {:induction false} MatchConserves(symbolId: nat, side: Side, q: Queue, taker: Taker, s: SequenceState,
                                          last: Option<int>)
    requires SaneQuantities(q) && taker.remaining <= taker.original
    ensures var m := Match(symbolId, side, q, taker, s, last);
            && Traded(Trades(m.events)) == Min(taker.remaining, CrossingLots(side, q, taker.limit))
            && m.taker.remaining == taker.remaining - Traded(Trades(m.events))
            && Lots(m.queue) == Lots(q) - Traded(Trades(m.events))
    decreases |q| + taker.remaining
  {
    hide LevelLots, SaneQuantities, Trades, AfterFill, FillEvents, ConsumeFront, Match;
    MatchTrades(symbolId, side, q, taker, s, last);
    if Matchable(side, q, taker) {
      var q', taker', fill := FrontQueue(q, taker), FrontTaker(q, taker), FrontFill(q, taker);
      MatchUnfolds(symbolId, side, q, taker, s, last);
      MatchConserves(symbolId, side, q', taker', AfterFill(s), Some(q[0].price));
      ConsumeLots(side, q, fill, taker.limit);
    } else {
      MatchStops(symbolId, side, q, taker, s, last);
    }
  }

  lemma ConsumeLots(side: Side, q: Queue, fill: nat, limit: int)
    requires q != [] && fill <= q[0].remaining
    ensures Lots(ConsumeFront(q, fill)) == Lots(q) - fill
    ensures Crosses(side, limit, q[0].price) ==>
              CrossingLots(side, ConsumeFront(q, fill), limit) == CrossingLots(side, q, limit) - fill
  {
    if fill < q[0].remaining { assert ConsumeFront(q, fill)[1..] == q[1..]; }
  }

  /** When the loop ends the taker is done, or the queue's front is out of its reach. */
  lemma {:induction false} MatchEnds(symbolId: nat, side: Side, q: Queue, taker: Taker, s: SequenceState,
                                     last: Option<int>)
    requires SaneQuantities(q) && taker.remaining <= taker.original
    ensures var m := Match(symbolId, side, q, taker, s, last);
            m.taker.remaining == 0 || m.queue == [] || !Crosses(side, taker.limit, m.queue[0].price)
    decreases |q| + taker.remaining
  {
    hide LevelLots, AfterFill, FillEvents;
    if Matchable(side, q, taker) {
      var fill: nat := Min(taker.remaining, q[0].remaining);
      SaneRest(q, fill);
      MatchEnds(symbolId, side, ConsumeFront(q, fill), taker.(remaining := taker.remaining - fill), AfterFill(s),
                Some(q[0].price));
    }
  }
}
