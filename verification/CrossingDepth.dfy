/** How many lots a limit reaches: the level-by-level sum agrees with the order-by-order one. */
module CrossingDepth {
  import opened Types
  import opened BookSpec
  import opened Queues
  import opened PriceLevels
  import opened SideBooks
  import opened FarPrices
  import opened RingLadder

  /** Level totals summed over a list of prices, best first, up to the first that the limit does not reach. */
  ghost function CrossingByLevel(side: Side, q: Queue, prices: seq<int>, limit: int): nat {
    if prices == [] || !Crosses(side, limit, prices[0]) then 0
    else LevelLots(q, prices[0]) + CrossingByLevel(side, q, prices[1..], limit)
  }

  ghost predicate BestFirst(side: Side, prices: seq<int>) {
    forall i, j :: 0 <= i < j < |prices| ==> Better(side, prices[i], prices[j])
  }

  ghost predicate PricesOf(q: Queue, prices: seq<int>) {
    && (forall i :: 0 <= i < |q| ==> q[i].price in prices)
    && (forall p <- prices :: AtPrice(q, p) != [])
  }

  /** The front level of a sorted queue is its prefix. */
  lemma {:induction false} SplitFront(side: Side, q: Queue, p: int) returns (rest: Queue)
    requires Sorted(side, q)
    requires forall i :: 0 <= i < |q| ==> !Better(side, q[i].price, p)
    ensures q == AtPrice(q, p) + rest
    ensures forall i :: 0 <= i < |rest| ==> rest[i].price != p && rest[i] in q
    ensures Sorted(side, rest)
  {
    if q == [] || q[0].price != p {
      rest := q;
      AtPriceEmpty(q, p);
    } else {
      rest := SplitFront(side, q[1..], p);
      assert q == [q[0]] + q[1..];
    }
  }

  lemma {:induction false} CrossingPrefix(side: Side, a: Queue, b: Queue, p: int, limit: int)
    requires forall i :: 0 <= i < |a| ==> a[i].price == p
    ensures Crosses(side, limit, p) ==> CrossingLots(side, a + b, limit) == Lots(a) + CrossingLots(side, b, limit)
    ensures !Crosses(side, limit, p) && a != [] ==> CrossingLots(side, a + b, limit) == 0
  {
    if a == [] {
      assert a + b == b;
    } else {
      assert (a + b)[1..] == a[1..] + b;
      CrossingPrefix(side, a[1..], b, p, limit);
    }
  }

  /** Summing by level over the sorted prices is summing order by order. */
  lemma {:induction false} LevelsAgree(side: Side, q: Queue, prices: seq<int>, limit: int)
    requires Sorted(side, q) && BestFirst(side, prices) && PricesOf(q, prices)
    ensures CrossingByLevel(side, q, prices, limit) == CrossingLots(side, q, limit)
    decreases |prices|
  {
    if prices == [] {
    } else {
      var p := prices[0];
      assert prices == [p] + prices[1..];
      var rest := SplitFront(side, q, p);
      var front := AtPrice(q, p);
      forall i | 0 <= i < |front| ensures front[i].price == p { AtPriceMember(q, p, front[i]); }
      CrossingPrefix(side, front, rest, p, limit);
      forall r | r != p ensures AtPrice(rest, r) == AtPrice(q, r) { OtherLevels(front, rest, p, r); }
      forall i | 0 <= i < |rest| ensures rest[i].price in prices[1..] { assert rest[i] in q; }
      LevelsAgree(side, rest, prices[1..], limit);
      SameLevels(side, q, rest, prices[1..], limit);
    }
  }

  lemma OtherLevels(front: Queue, rest: Queue, p: int, r: int)
    requires r != p && forall i :: 0 <= i < |front| ==> front[i].price == p
    ensures AtPrice(front + rest, r) == AtPrice(rest, r)
  {
    AtPriceAppend(front, rest, r);
    AtPriceEmpty(front, r);
  }

  lemma {:induction false} SameLevels(side: Side, a: Queue, b: Queue, prices: seq<int>, limit: int)
    requires forall p <- prices :: AtPrice(a, p) == AtPrice(b, p)
    ensures CrossingByLevel(side, a, prices, limit) == CrossingByLevel(side, b, prices, limit)
  {
    if prices != [] { SameLevels(side, a, b, prices[1..], limit); }
  }

  // ---------- The sorted levels of a side ----------

  ghost predicate LevelsBestFirst(side: Side, levels: seq<PriceLevel>) {
    forall i, j :: 0 <= i < j < |levels| ==> Better(side, levels[i].price, levels[j].price)
  }

  /** Put a level into its place in a best-first list. */
  method InsertLevel(side: Side, levels: seq<PriceLevel>, level: PriceLevel) returns (r: seq<PriceLevel>)
    requires LevelsBestFirst(side, levels)
    requires forall l <- levels :: l.price != level.price
    ensures LevelsBestFirst(side, r)
    ensures forall l :: l in r <==> l in levels || l == level
  {
    var i := 0;
    while i < |levels| && Better(side, levels[i].price, level.price)
      invariant 0 <= i <= |levels|
      invariant forall k :: 0 <= k < i ==> Better(side, levels[k].price, level.price)
    {
      i := i + 1;
    }
    r := levels[..i] + [level] + levels[i..];
    InsertedLevel(side, levels, level, i);
  }

  lemma InsertedLevel(side: Side, levels: seq<PriceLevel>, level: PriceLevel, i: nat)
    requires LevelsBestFirst(side, levels) && i <= |levels|
    requires forall l <- levels :: l.price != level.price
    requires forall k :: 0 <= k < i ==> Better(side, levels[k].price, level.price)
    requires i < |levels| ==> !Better(side, levels[i].price, level.price)
    ensures LevelsBestFirst(side, levels[..i] + [level] + levels[i..])
    ensures forall l :: l in levels[..i] + [level] + levels[i..] <==> l in levels || l == level
  {
    var r := levels[..i] + [level] + levels[i..];
    forall k | i <= k < |levels| ensures Better(side, level.price, levels[k].price) { assert levels[k] in levels; }
    assert forall k :: 0 <= k < i ==> r[k] == levels[k];
    assert r[i] == level;
    assert forall k :: i < k < |r| ==> r[k] == levels[k - 1];
    forall l | l in levels ensures l in r {
      var k :| 0 <= k < |levels| && levels[k] == l;
      assert r[if k < i then k else k + 1] == l;
    }
  }

  /** r lists only kept levels. */
  ghost predicate OnlyKept(book: SideBook, r: seq<PriceLevel>)
    reads book`levels
  {
    forall l <- r :: l.price in book.levels && book.levels[l.price] == l
  }

  method ActiveLevelsSorted(book: SideBook) returns (r: seq<PriceLevel>)
    requires book.Valid()
    ensures LevelsBestFirst(book.side, r)
    ensures OnlyKept(book, r) && forall p <- book.levels :: book.levels[p] in r
  {
    hide SideBook.Spelled, SideBook.Kept, SideBook.NoEmptyLevel, LadderTick;
    book.LevelsInUse();
    var ring := book.ring;
    r := [];
    for i := 0 to ring.slots.Length
      invariant LevelsBestFirst(book.side, r) && OnlyKept(book, r)
      invariant forall p <- book.levels :: book.levels[p] in r <==>
                  book.InRing(p) && ring.SlotOf(LadderTick(p, ring.tickSize)) < i
    {
      if ring.slots[i] != null && !ring.slots[i].Empty() {
        r := InsertLevel(book.side, r, ring.slots[i]);
      }
    }
    var rest := book.far.levels.Keys;
    while rest != {}
      invariant rest <= book.far.levels.Keys
      invariant LevelsBestFirst(book.side, r) && OnlyKept(book, r)
      invariant forall p <- book.levels :: book.levels[p] in r <==> p !in rest
    {
      SomeKey(rest);
      var p :| p in rest;
      if !book.far.levels[p].Empty() {
        r := InsertLevel(book.side, r, book.far.levels[p]);
      }
      rest := rest - {p};
    }
  }

  // ---------- Available lots ----------

  ghost function PricesIn(levels: seq<PriceLevel>): (r: seq<int>)
    ensures |r| == |levels| && forall i :: 0 <= i < |r| ==> r[i] == levels[i].price
  {
    if levels == [] then [] else [levels[0].price] + PricesIn(levels[1..])
  }

  lemma PricesOfLevels(book: SideBook, r: seq<PriceLevel>)
    requires book.Valid() && LevelsBestFirst(book.side, r)
    requires OnlyKept(book, r) && forall p <- book.levels :: book.levels[p] in r
    ensures BestFirst(book.side, PricesIn(r)) && PricesOf(book.view, PricesIn(r))
    ensures forall l <- r :: l.totalQuantity == LevelLots(book.view, l.price)
  {
    hide SideBook.Housed, AtPrice, Lots, PricesIn;
    var prices := PricesIn(r);
    forall i | 0 <= i < |book.view| ensures book.view[i].price in prices {
      var l := book.levels[book.view[i].price];
      var k :| 0 <= k < |r| && r[k] == l;
      assert prices[k] == l.price;
    }
    forall p <- prices ensures AtPrice(book.view, p) != [] {
      var k :| 0 <= k < |prices| && prices[k] == p;
      assert r[k] in r && r[k].Linked();
    }
    forall l <- r ensures l.totalQuantity == LevelLots(book.view, l.price) { assert l.Linked(); }
  }

  /**
    The level-by-level sum that stops early, and saturates where 64 bits would overflow, reaches `stopAt` exactly
    when the orders the limit crosses hold at least that many lots.
   */
  method AvailableCrossingLots(book: SideBook, limit: int, stopAt: nat) returns (total: nat)
    requires book.Valid() && stopAt < LOTS_LIMIT
    requires forall p <- book.levels :: book.levels[p].totalQuantity < LOTS_LIMIT
    ensures total >= stopAt <==> CrossingLots(book.side, book.view, limit) >= stopAt
    ensures total < LOTS_LIMIT
  {
    hide SideBook.Shelved, SideBook.NoEmptyLevel, AtPrice, Lots, PricesIn, LevelLots, CrossingLots;
    var levels := ActiveLevelsSorted(book);
    PricesOfLevels(book, levels);
    ghost var prices := PricesIn(levels);
    BookSorted(book);
    LevelsAgree(book.side, book.view, prices, limit);
    total := 0;
    var i := 0;
    while i < |levels|
      invariant 0 <= i <= |levels| && total < LOTS_LIMIT
      invariant CrossingByLevel(book.side, book.view, prices, limit)
                == total + CrossingByLevel(book.side, book.view, prices[i..], limit)
    {
      var level := levels[i];
      if !Crosses(book.side, limit, level.price) {
        return;
      }
      var lots := level.totalQuantity;
      assert prices[i..][1..] == prices[i + 1..];
      if LOTS_LIMIT - 1 - total < lots {
        return LOTS_LIMIT - 1;
      }
      total := total + lots;
      if total >= stopAt {
        return;
      }
      i := i + 1;
    }
  }

  lemma BookSorted(book: SideBook)
    requires book.Valid()
    ensures Sorted(book.side, book.view)
  {
  }
}
