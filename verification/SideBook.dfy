/** One side of the book: near levels in the ring, far levels in the map, and a cached best level. */
module SideBooks {
  import opened Types
  import opened BookSpec
  import opened Queues
  import opened PriceLevels
  import opened RingLadder
  import opened FarPrices

  class SideBook {
    const side: Side
    const ring: RingPriceLadder
    const far: FarPriceMap
    var cachedBestLevel: PriceLevel?
    ghost var view: Queue                    // the side's orders, best price first, then arrival
    ghost var levels: map<int, PriceLevel>   // every level kept, by price
    ghost var orders: set<Order>             // every resting order

    ghost function Repr(): set<object>
      reads this`levels, this`orders
    {
      {this, ring, far, ring.slots, ring.activeSlotBitmap} + levels.Values + orders
    }

    predicate GoodPrice(p: int) {
      p > 0 && ring.tickSize > 0 && p % ring.tickSize == 0
    }

    predicate InRing(p: int) {
      ring.ContainsTick(LadderTick(p, ring.tickSize))
    }

    /** Each level lives in exactly one store: its own slot of the ring, or the far map. */
    ghost predicate Housed()
      requires ring.Shaped()
      reads this`levels, ring`headIndex, ring.slots, far
    {
      && (forall p :: p in levels ==> GoodPrice(p))
      && (forall p :: p in levels && InRing(p) ==> ring.LevelAt(p) == levels[p])
      && (forall p :: p in levels && !InRing(p) ==> p in far.levels && far.levels[p] == levels[p])
      && (forall i :: 0 <= i < ring.capacity && ring.slots[i] != null ==>
            var p := ring.slots[i].price;
            p in levels && InRing(p) && ring.SlotOf(LadderTick(p, ring.tickSize)) == i)
      && (forall p :: p in far.levels ==> p in levels && !InRing(p))
    }

    /** Every level stands under its own price, and its orders are ours. */
    ghost predicate Owned()
      reads this`levels, this`orders, levels.Values`queue, orders`priceLevel
    {
      && (forall p, o :: p in levels && o in levels[p].queue ==> o in orders && o.priceLevel == levels[p])
      && (forall o :: o in orders ==> o.price in levels && o in levels[o.price].queue)
      && (forall p :: p in levels ==> levels[p].price == p)
    }

    /** Every level is well linked. */
    ghost predicate Chains()
      reads this`levels, this`orders, levels.Values, orders
      requires Owned()
    {
      forall p :: p in levels ==> levels[p].Linked()
    }

    ghost predicate Kept()
      reads this`levels, this`orders, levels.Values, orders
    {
      Owned() && Chains()
    }

    /** The levels, best price first, spell out `view`. */
    ghost predicate Spelled()
      reads this`levels, this`view, levels.Values
    {
      && (forall p :: p in levels ==> levels[p].values == AtPrice(view, p))
      && Sorted(side, view) && UniqueIds(view)
      && (forall i :: 0 <= i < |view| ==> view[i].price in levels && view[i].side == side)
    }

    /** Everything but the bitmap and the cached best. */
    ghost predicate Shelved()
      reads this`levels, this`view, this`orders, ring`headIndex, ring.slots, far, levels.Values, orders
    {
      ring.Shaped() && Housed() && Kept() && Spelled()
    }

    ghost predicate Stored()
      reads this`levels, this`view, this`orders, ring`headIndex, ring.slots, ring.activeSlotBitmap, far,
            levels.Values, orders
    {
      ring.side == side && far.side == side && ring.Valid() && Shelved()
    }

    /** The cached level is the one of the best order, null when there is none. */
    ghost predicate Cached()
      reads this`view, this`levels, this`cachedBestLevel
    {
      if view == [] then cachedBestLevel == null
      else view[0].price in levels && cachedBestLevel == levels[view[0].price]
    }

    ghost predicate NoEmptyLevel()
      reads this`levels, levels.Values`queue
    {
      forall p :: p in levels ==> levels[p].queue != []
    }

    ghost predicate Valid()
      reads Repr()
    {
      Stored() && NoEmptyLevel() && Cached()
    }

    constructor (side: Side, tickSize: int, baseTick: int, capacity: nat)
      ensures Valid() && fresh(Repr())
      ensures this.side == side && ring.tickSize == tickSize && view == [] && levels == map[] && orders == {}
    {
      hide Valid, Repr;
      var r := new RingPriceLadder(side, tickSize, baseTick, capacity);
      var f := new FarPriceMap(side);
      this.side, ring, far, cachedBestLevel := side, r, f, null;
      view, levels, orders := [], map[], {};
      new;
      BareValid();
      BareRepr();
    }

    lemma BareRepr()
      requires levels == map[] && orders == {}
      ensures Repr() == {this, ring, far, ring.slots, ring.activeSlotBitmap}
    {
    }

    /** A side with empty stores is in order. */
    lemma BareValid()
      requires view == [] && levels == map[] && orders == {} && cachedBestLevel == null && far.levels == map[]
      requires ring.side == side && far.side == side && ring.Valid()
      requires forall i :: 0 <= i < ring.capacity ==> ring.slots[i] == null
      ensures Valid()
    {
      hide RingPriceLadder.Covered;
    }

    /** The cached level leads to the front order. */
    lemma FrontCached()
      requires Valid()
      ensures view == [] ==> cachedBestLevel == null
      ensures view != [] ==>
                && view[0].price in levels && cachedBestLevel == levels[view[0].price] && cachedBestLevel.price == view[0].price
                && cachedBestLevel.head != null && IsFront(cachedBestLevel.head)
    {
      hide Housed;
      if view != [] { FrontOfLevel(view); }
    }

    /** The best level on this side, null when the side is empty. */
    method BestLevel() returns (level: PriceLevel?)
      requires Valid()
      ensures Valid()
      ensures view == [] ==> level == null
      ensures view != [] ==> view[0].price in levels && level == cachedBestLevel == levels[view[0].price]
    {
      hide Valid, IsFront;
      FrontCached();
      if cachedBestLevel == null || cachedBestLevel.Empty() {
        return null;
      }
      return cachedBestLevel;
    }

    /** The order object at the front of the queue. */
    ghost predicate IsFront(order: Order)
      reads this`view, this`levels, this`orders, levels.Values, order
    {
      && view != [] && order in orders && order.Snapshot() == view[0]
      && view[0].price in levels && order.priceLevel == levels[view[0].price]
      && levels[view[0].price].queue != [] && order == levels[view[0].price].queue[0]
    }

    method BestOrder() returns (order: Order?)
      requires Valid()
      ensures Valid()
      ensures view == [] ==> order == null
      ensures view != [] ==> order != null && IsFront(order)
    {
      hide Valid, IsFront;
      var level := BestLevel();
      FrontCached();
      if level == null {
        return null;
      }
      return level.head;
    }

    method PriceCrosses(incoming: int) returns (crosses: bool)
      requires Valid()
      ensures Valid()
      ensures crosses <==> view != [] && Crosses(side, incoming, view[0].price)
    {
      hide Valid, IsFront;
      var level := BestLevel();
      FrontCached();
      if level == null {
        return false;
      }
      return Crosses(side, incoming, level.price);
    }

    /** The best order, if an incoming price reaches it. */
    method CrossingOrder(incoming: int) returns (order: Order?)
      requires Valid()
      ensures Valid()
      ensures order != null <==> view != [] && Crosses(side, incoming, view[0].price)
      ensures order != null ==> IsFront(order)
    {
      hide Valid;
      var crosses := PriceCrosses(incoming);
      if !crosses {
        return null;
      }
      order := BestOrder();
    }

    /** A kept level that no kept level beats is the one of the front order. */
    lemma FrontIsBest(p: int)
      requires Shelved() && NoEmptyLevel()
      requires p in levels && forall q :: q in levels ==> !Better(side, q, p)
      ensures view != [] && view[0].price == p
    {
      var o := AtPrice(view, p)[0];
      AtPriceMember(view, p, o);
      var k :| 0 <= k < |view| && view[k] == o;
      assert view[0].price in levels;
    }

    /** What the ring's scan in price order finds is the best of the ring's levels. */
    lemma RingScan()
      requires Shelved() && ring.capacity > 0
      ensures var best := BestByScan(side, ring.slots[..], ring.headIndex);
              if best == null then forall p :: p in levels ==> !InRing(p)
              else best.price in levels && InRing(best.price) && levels[best.price] == best
                   && forall p :: p in levels && InRing(p) ==> !Better(side, p, best.price)
    {
      var s, head, n := ring.slots[..], ring.headIndex, ring.capacity;
      if ring.tickSize <= 0 {
        LastInNone(Rotated(s, head), 0, n);
        FirstInNone(Rotated(s, head), 0, n);
      } else {
        forall k | 0 <= k < n && Rotated(s, head)[k] != null
          ensures Rotated(s, head)[k].price == ring.tickSize * (ring.baseTick + k)
        {
          SlotPrice(k);
        }
        ScanFindsBest(side, s, head, ring.tickSize, ring.baseTick);
        assert forall p :: p in levels && InRing(p) ==>
                 s[ring.SlotOf(LadderTick(p, ring.tickSize))] == levels[p];
      }
    }

    /** The k-th tick of the ladder holds only the price at that tick. */
    lemma SlotPrice(k: nat)
      requires Shelved() && ring.tickSize > 0 && k < ring.capacity
      requires Rotated(ring.slots[..], ring.headIndex)[k] != null
      ensures Rotated(ring.slots[..], ring.headIndex)[k].price == ring.tickSize * (ring.baseTick + k)
    {
      hide Kept, Spelled, LadderTick;
      var head, n := ring.headIndex, ring.capacity;
      var i := if head + k < n then head + k else head + k - n;
      assert Rotated(ring.slots[..], head)[k] == ring.slots[i];
      var p := ring.slots[i].price;
      TickOfSlot(head, n, k, LadderTick(p, ring.tickSize) - ring.baseTick, i);
      ExactTick(p, ring.tickSize);
    }

    function BetterLevel(ringBest: PriceLevel?, farBest: PriceLevel?): PriceLevel? {
      if ringBest == null then farBest
      else if farBest == null then ringBest
      else if Better(side, ringBest.price, farBest.price) then ringBest else farBest
    }

    /** The better of the two stores' best levels is the front order's. */
    lemma BestOfStores(ringBest: PriceLevel?, farBest: PriceLevel?)
      requires far.side == side && Shelved() && NoEmptyLevel()
      requires ringBest == if ring.capacity == 0 then null else BestByScan(side, ring.slots[..], ring.headIndex)
      requires farBest == null ==> forall p <- far.levels :: far.levels[p].Empty()
      requires farBest != null ==> exists best :: far.IsBest(best) && far.levels[best] == farBest
      ensures var c := BetterLevel(ringBest, farBest);
              if c == null then view == []
              else view != [] && view[0].price == c.price && c.price in levels && c == levels[c.price]
    {
      hide Kept, Spelled, NoEmptyLevel, BestByScan;
      LevelsInUse();
      if view != [] { FrontLevel(); }
      if ring.capacity > 0 { RingScan(); }
      var c := BetterLevel(ringBest, farBest);
      if c != null {
        forall q | q in levels
          ensures !Better(side, q, c.price)
        {
          assert InRing(q) || q in far.levels;
        }
        FrontIsBest(c.price);
      }
    }

    lemma LevelsInUse()
      requires Kept() && NoEmptyLevel()
      ensures forall p :: p in levels ==> levels[p].price == p && !levels[p].Empty()
    {
    }

    /** The ring's scan and the far map's scan together find the front of the queue. */
    method RefreshCachedBest()
      requires Stored() && NoEmptyLevel()
      modifies this`cachedBestLevel, ring.activeSlotBitmap
      ensures Valid()
    {
      hide Shelved, NoEmptyLevel, BestByScan;
      var ringBest := ring.AdvanceBestAfterEmpty();
      var farBest := far.BestLevel();
      BestOfStores(ringBest, farBest);
      if ringBest == null {
        cachedBestLevel := farBest;
      } else if farBest == null {
        cachedBestLevel := ringBest;
      } else {
        cachedBestLevel := if Better(side, ringBest.price, farBest.price) then ringBest else farBest;
      }
    }

    /** Two prices of the ladder share a slot only if they are the same price. */
    lemma SameSlot(p: int, q: int)
      requires ring.Shaped() && GoodPrice(p) && GoodPrice(q) && InRing(p) && InRing(q)
      requires ring.SlotOf(LadderTick(p, ring.tickSize)) == ring.SlotOf(LadderTick(q, ring.tickSize))
      ensures p == q
    {
      var head, n := ring.headIndex, ring.capacity;
      var a, b := LadderTick(p, ring.tickSize) - ring.baseTick, LadderTick(q, ring.tickSize) - ring.baseTick;
      RingOffset(head, b, n);
      TickOfSlot(head, n, b, a, ring.SlotOf(LadderTick(p, ring.tickSize)));
      ExactTick(p, ring.tickSize);
      ExactTick(q, ring.tickSize);
    }

    lemma SlotsOfOthers(p: int)
      requires ring.Shaped() && Housed() && GoodPrice(p) && InRing(p)
      ensures forall q :: q in levels && InRing(q) && q != p ==>
                ring.SlotOf(LadderTick(q, ring.tickSize)) != ring.SlotOf(LadderTick(p, ring.tickSize))
      ensures ring.LevelAt(p) != null ==> p in levels
    {
      forall q | q in levels && InRing(q) && q != p
        ensures ring.SlotOf(LadderTick(q, ring.tickSize)) != ring.SlotOf(LadderTick(p, ring.tickSize))
      {
        if ring.SlotOf(LadderTick(q, ring.tickSize)) == ring.SlotOf(LadderTick(p, ring.tickSize)) {
          SameSlot(q, p);
        }
      }
      if ring.LevelAt(p) != null { SameSlot(ring.LevelAt(p).price, p); }
    }

    /** The slot of a price in the ring, with a level for it. */
    method HouseNear(price: int) returns (level: PriceLevel)
      requires ring.Valid() && Housed() && GoodPrice(price) && InRing(price)
      modifies this`levels, ring.slots, ring.activeSlotBitmap
      ensures ring.Valid() && Housed()
      ensures levels == old(levels)[price := level]
      ensures price in old(levels) ==> level == old(levels)[price]
      ensures price !in old(levels) ==>
                fresh(level) && level.price == price && level.queue == [] && level.values == [] && level.Linked()
    {
      hide LadderTick, RingPriceLadder.Covered, PriceLevel.Linked;
      SlotsOfOthers(price);
      level := ring.GetOrCreateLevel(price);
      levels := levels[price := level];
    }

    /** The entry of a price in the far map, with a level for it. */
    method HouseFar(price: int) returns (level: PriceLevel)
      requires ring.Valid() && Housed() && GoodPrice(price) && !InRing(price)
      modifies this`levels, far
      ensures ring.Valid() && Housed()
      ensures levels == old(levels)[price := level]
      ensures price in old(levels) ==> level == old(levels)[price]
      ensures price !in old(levels) ==>
                fresh(level) && level.price == price && level.queue == [] && level.values == [] && level.Linked()
    {
      hide LadderTick, RingPriceLadder.Covered, PriceLevel.Linked;
      level := far.GetOrCreateLevel(price);
      levels := levels[price := level];
    }

    /** The store a price belongs to, with a level for it. */
    method HouseLevel(price: int) returns (level: PriceLevel)
      requires ring.Valid() && Housed() && GoodPrice(price)
      modifies this`levels, ring.slots, ring.activeSlotBitmap, far
      ensures ring.Valid() && Housed()
      ensures levels == old(levels)[price := level]
      ensures price in old(levels) ==> level == old(levels)[price]
      ensures price !in old(levels) ==>
                fresh(level) && level.price == price && level.queue == [] && level.values == [] && level.Linked()
    {
      hide LadderTick, RingPriceLadder.Valid, PriceLevel.Linked, Housed;
      if ring.ContainsTick(LadderTick(price, ring.tickSize)) {
        level := HouseNear(price);
      } else {
        level := HouseFar(price);
      }
    }

    /** Append to one level; the other levels' chains are untouched. */
    method PushInto(level: PriceLevel, order: Order)
      requires Kept() && order !in orders
      requires level.price in levels && levels[level.price] == level && order.price == level.price
      modifies level, order`nextOrder, order`previousOrder, order`priceLevel, orders`nextOrder
      ensures order.priceLevel == level
      ensures forall p :: p in levels ==> levels[p].Linked()
      ensures level.queue == old(level.queue) + [order] && level.values == old(level.values) + [order.Snapshot()]
      ensures forall p :: p in levels && p != level.price ==>
                levels[p].queue == old(levels[p].queue) && levels[p].values == old(levels[p].values)
    {
      hide PriceLevel.Linked;
      assert forall p, i :: p in levels && 0 <= i < |levels[p].queue| ==> levels[p].queue[i].priceLevel == levels[p];
      level.Ends();
      level.PushBack(order);
    }

    /** Append to one level, and own the order. */
    method AppendTo(level: PriceLevel, order: Order)
      requires Kept() && order !in orders
      requires level.price in levels && levels[level.price] == level && order.price == level.price
      modifies this`orders, level, order`nextOrder, order`previousOrder, order`priceLevel, orders`nextOrder
      ensures Kept() && orders == old(orders) + {order}
      ensures level.queue == old(level.queue) + [order] && level.values == old(level.values) + [order.Snapshot()]
      ensures forall p :: p in levels && p != level.price ==>
                levels[p].queue == old(levels[p].queue) && levels[p].values == old(levels[p].values)
    {
      hide PriceLevel.Linked;
      PushInto(level, order);
      orders := orders + {order};
    }

    /** The level for a price: an old one as it is, or a new empty one. */
    method GetOrCreateLevelForPrice(price: int) returns (level: PriceLevel)
      requires Stored() && GoodPrice(price)
      modifies this`levels, ring.slots, ring.activeSlotBitmap, far
      ensures Stored() && levels == old(levels)[price := level]
      ensures price in old(levels) ==> level == old(levels)[price]
      ensures price !in old(levels) ==> fresh(level)
      ensures level.price == price
    {
      hide Housed, PriceLevel.Linked, RingPriceLadder.Covered, Sorted, UniqueIds, AtPrice;
      AtPriceEmpty(view, price);
      level := HouseLevel(price);
    }

    /** With the newcomer's level one longer, the levels spell the queue with the newcomer inserted. */
    lemma InsertSpelled(was: Queue, o: OrderSnapshot)
      requires Sorted(side, was) && UniqueIds(was) && !HasId(was, o.orderId) && o.side == side && o.price in levels
      requires forall i :: 0 <= i < |was| ==> was[i].price in levels && was[i].side == side
      requires forall p :: p in levels ==>
                 levels[p].values == AtPrice(was, p) + if p == o.price then [o] else []
      requires view == Insert(side, was, o)
      ensures Spelled()
    {
      hide Sorted, UniqueIds, AtPrice, Insert;
      InsertSorted(side, was, o);
      InsertUnique(side, was, o);
      forall p | p in levels ensures levels[p].values == AtPrice(view, p) { AtPriceInsert(side, was, o, p); }
      forall i | 0 <= i < |view| ensures view[i].price in levels && view[i].side == side {
        InsertMember(side, was, o, view[i]);
      }
    }

    /** The order joins its level, and the queue. */
    method ShelveIn(level: PriceLevel, order: Order)
      requires Stored() && order.price in levels && levels[order.price] == level && level.price == order.price && order.side == side
      requires order !in orders && !HasId(view, order.orderId)
      modifies this`orders, this`view, level, order`nextOrder, order`previousOrder, order`priceLevel, orders`nextOrder
      ensures Stored() && view == Insert(side, old(view), order.Snapshot()) && orders == old(orders) + {order}
      ensures order in level.queue
      ensures forall p :: p in levels && p != order.price ==> levels[p].queue == old(levels[p].queue)
    {
      hide Housed, Kept, PriceLevel.Linked, RingPriceLadder.Covered, Sorted, UniqueIds, AtPrice, Insert, HasId;
      AppendTo(level, order);
      view := Insert(side, view, order.Snapshot());
      InsertSpelled(old(view), order.Snapshot());
    }

    /** Everything of an insertion but the cached best. */
    method ShelveOrder(order: Order) returns (level: PriceLevel)
      requires Stored() && GoodPrice(order.price) && order.side == side
      requires order !in orders && !HasId(view, order.orderId)
      modifies this`levels, this`orders, this`view, ring.slots, ring.activeSlotBitmap, far, levels.Values,
               order`nextOrder, order`previousOrder, order`priceLevel, orders`nextOrder
      ensures Stored() && view == Insert(side, old(view), order.Snapshot())
      ensures levels == old(levels)[order.price := level] && orders == old(orders) + {order}
      ensures order.price in old(levels) ==> level == old(levels)[order.price]
      ensures order.price !in old(levels) ==> fresh(level)
      ensures level.price == order.price && order in level.queue
      ensures forall p :: p in old(levels) && p != order.price ==> levels[p].queue == old(levels[p].queue)
    {
      hide Stored, PriceLevel.Linked, Insert, HasId;
      level := GetOrCreateLevelForPrice(order.price);
      ShelveIn(level, order);
    }

    /** A kept level's cached total is the lots resting at its price. */
    lemma LevelTotal(p: int)
      requires Kept() && Spelled() && p in levels
      ensures levels[p].totalQuantity == LevelLots(view, p)
    {
      assert levels[p].Linked();
    }

    lemma UniqueView()
      requires Valid()
      ensures UniqueIds(view)
    {
    }

    lemma FrontTotal()
      requires Valid() && view != []
      ensures view[0].price in levels && levels[view[0].price].totalQuantity == LevelLots(view, view[0].price)
    {
      LevelTotal(view[0].price);
    }

    lemma FrontStored()
      requires Stored() && view != []
      ensures view[0].price in levels && levels[view[0].price].price == view[0].price
    {
      hide Housed, Spelled, Kept;
      FrontLevel();
    }

    lemma FrontLevel()
      requires Shelved() && view != []
      ensures view[0].price in levels && levels[view[0].price].price == view[0].price
    {
    }

    /** The newcomer's level is cached if the newcomer is the front now. */
    method CacheAfterInsert(level: PriceLevel, ghost was: Queue, ghost o: OrderSnapshot)
      requires Stored() && NoEmptyLevel() && view == Insert(side, was, o)
      requires o.price in levels && levels[o.price] == level && level.price == o.price
      requires if was == [] then cachedBestLevel == null
               else was[0].price in levels && cachedBestLevel == levels[was[0].price] && cachedBestLevel.price == was[0].price
      modifies this`cachedBestLevel
      ensures Valid()
    {
      hide Stored, NoEmptyLevel, Insert;
      InsertedFront(side, was, o);
      if cachedBestLevel == null || Better(side, level.price, cachedBestLevel.price) {
        cachedBestLevel := level;
      }
    }

    /** Join the back of the order's price level, creating the level if need be. */
    method InsertRestingOrder(order: Order)
      requires Valid() && GoodPrice(order.price) && order.side == side
      requires order !in orders && !HasId(view, order.orderId)
      modifies Repr(), order`nextOrder, order`previousOrder, order`priceLevel
      ensures Valid()
      ensures view == Insert(side, old(view), order.Snapshot())
      ensures orders == old(orders) + {order}
      ensures forall x :: x in Repr() ==> x in old(Repr()) || x == order || fresh(x)
    {
      hide Stored, Insert, HasId;
      if view != [] { FrontStored(); }
      var level := ShelveOrder(order);
      CacheAfterInsert(level, old(view), order.Snapshot());
    }

    // ---------- Fills and cancels ----------

    /** Remove from one level; the other levels' chains are untouched. */
    method PullFrom(level: PriceLevel, order: Order, ghost k: nat)
      requires Kept() && order in orders
      requires level.price in levels && levels[level.price] == level
      requires k < |level.queue| && level.queue[k] == order && |level.values| == |level.queue|
      modifies level, orders`nextOrder, orders`previousOrder, order`priceLevel
      ensures forall p :: p in levels ==> levels[p].Linked()
      ensures level.queue == old(level.queue)[..k] + old(level.queue)[k + 1..]
      ensures level.values == old(level.values)[..k] + old(level.values)[k + 1..]
      ensures forall o :: o in level.queue <==> o in old(level.queue) && o != order
      ensures forall p :: p in levels && p != level.price ==>
                levels[p].queue == old(levels[p].queue) && levels[p].values == old(levels[p].values)
    {
      hide PriceLevel.Linked;
      assert forall p, i :: p in levels && 0 <= i < |levels[p].queue| ==> levels[p].queue[i].priceLevel == levels[p];
      level.Remove(order, k);
    }

    /** Remove from one level, and disown the order. */
    method TakeFrom(level: PriceLevel, order: Order, ghost k: nat)
      requires Kept() && order in orders
      requires level.price in levels && levels[level.price] == level
      requires k < |level.queue| && level.queue[k] == order
      modifies this`orders, level, orders`nextOrder, orders`previousOrder, order`priceLevel
      ensures Kept() && orders == old(orders) - {order}
      ensures level.queue == old(level.queue)[..k] + old(level.queue)[k + 1..]
      ensures level.values == old(level.values)[..k] + old(level.values)[k + 1..]
      ensures forall p :: p in levels && p != level.price ==>
                levels[p].queue == old(levels[p].queue) && levels[p].values == old(levels[p].values)
    {
      hide PriceLevel.Linked, Chains;
      LevelSizes(level);
      PullFrom(level, order, k);
      orders := orders - {order};
      forall p, o | p in levels && o in levels[p].queue ensures o in orders && o.priceLevel == levels[p] {
        assert o in old(levels[p].queue);
      }
      forall o | o in orders ensures o.price in levels && o in levels[o.price].queue {
        assert o in old(levels[o.price].queue);
      }
      AllChained();
    }

    lemma AllChained()
      requires Owned() && forall p :: p in levels ==> levels[p].Linked()
      ensures Chains()
    {
    }

    lemma LevelSizes(level: PriceLevel)
      requires Kept() && level.price in levels && levels[level.price] == level
      ensures |level.values| == |level.queue|
    {
      level.Ends();
    }

    /** With one order gone from its level, the levels spell the queue without it. */
    lemma RemoveSpelled(was: Queue, o: OrderSnapshot)
      requires Sorted(side, was) && UniqueIds(was) && o in was
      requires forall i :: 0 <= i < |was| ==> was[i].price in levels && was[i].side == side
      requires forall p :: p in levels ==>
                 levels[p].values == if p == o.price then RemoveId(AtPrice(was, p), o.orderId) else AtPrice(was, p)
      requires view == RemoveId(was, o.orderId)
      ensures Spelled()
    {
      hide Sorted, AtPrice, RemoveId;
      RemoveSorted(side, was, o.orderId);
      RemoveUnique(was, o.orderId);
      forall p | p in levels
        ensures levels[p].values == AtPrice(view, p)
      {
        AtPriceRemove(was, o.orderId, p);
        if p != o.price { AtPriceLacks(was, o, p); RemoveAbsent(AtPrice(was, p), o.orderId); }
      }
      forall i | 0 <= i < |view| ensures view[i].price in levels && view[i].side == side {
        RemoveMember(was, o.orderId, view[i]);
      }
    }

    /** Take a level out of the store that houses it. */
    method DropLevel(level: PriceLevel)
      requires ring.Valid() && Housed()
      requires level.price in levels && levels[level.price] == level
      requires level.Empty() || level.totalQuantity == 0
      modifies this`levels, ring.slots, ring.activeSlotBitmap, far
      ensures ring.Valid() && Housed()
      ensures levels == old(levels) - {level.price}
    {
      hide LadderTick, RingPriceLadder.Covered;
      var price := level.price;
      var near := ring.GetLevel(price);
      if near == level {
        DropNear(level);
      } else {
        DropFar(level);
      }
    }

    method DropNear(level: PriceLevel)
      requires ring.Valid() && Housed()
      requires level.price in levels && levels[level.price] == level && InRing(level.price)
      requires level.Empty() || level.totalQuantity == 0
      modifies this`levels, ring.slots, ring.activeSlotBitmap
      ensures ring.Valid() && Housed()
      ensures levels == old(levels) - {level.price}
    {
      hide LadderTick, RingPriceLadder.Covered;
      SlotsOfOthers(level.price);
      ring.RemoveLevelIfEmpty(level.price);
      levels := levels - {level.price};
    }

    method DropFar(level: PriceLevel)
      requires ring.Valid() && Housed()
      requires level.price in levels && levels[level.price] == level && !InRing(level.price)
      requires level.Empty() || level.totalQuantity == 0
      modifies this`levels, far
      ensures ring.Valid() && Housed()
      ensures levels == old(levels) - {level.price}
    {
      hide LadderTick, RingPriceLadder.Covered;
      far.RemoveLevelIfEmpty(level.price);
      levels := levels - {level.price};
    }

    /** Drop a level that has no orders left: the others still spell out the queue. */
    method DropEmptyLevel(level: PriceLevel)
      requires Stored()
      requires level.price in levels && levels[level.price] == level && level.queue == []
      modifies this`levels, ring.slots, ring.activeSlotBitmap, far
      ensures Stored() && levels == old(levels) - {level.price}
    {
      hide Housed, PriceLevel.Linked, RingPriceLadder.Covered, Sorted, UniqueIds, AtPrice;
      level.Ends();
      AtPriceEmpty(view, level.price);
      DropLevel(level);
    }

    /** After a fill or a cancel at a level: drop it if it is empty, and find the best level again if need be. */
    method UpdateAfterFillOrCancel(level: PriceLevel)
      requires Stored()
      requires level.price in levels && levels[level.price] == level
      requires forall p :: p in levels && p != level.price ==> levels[p].queue != []
      requires level.queue != [] ==> level.totalQuantity > 0
      requires cachedBestLevel == level || (view != [] && Cached())
      modifies this`levels, this`cachedBestLevel, ring.slots, ring.activeSlotBitmap, far
      ensures Valid()
      ensures levels == if level.queue == [] then old(levels) - {level.price} else old(levels)
    {
      hide Housed, Kept, Spelled, RingPriceLadder.Covered;
      LevelEnds(level);
      if view != [] { FrontLevel(); LevelEnds(levels[view[0].price]); }
      var wasCachedBest := cachedBestLevel == level;
      if level.Empty() || level.totalQuantity == 0 {
        DropEmptyLevel(level);
      }
      if wasCachedBest || cachedBestLevel == null || cachedBestLevel.Empty() {
        RefreshCachedBest();
      }
    }

    lemma LevelEnds(level: PriceLevel)
      requires Kept() && level.price in levels && levels[level.price] == level
      ensures level.Empty() <==> level.queue == []
    {
      level.Ends();
    }

    /** Where a resting order stands: in its level's queue, with its value at the same place. */
    lemma Standing(order: Order) returns (k: nat)
      requires Kept() && Spelled() && order in orders
      ensures order.priceLevel != null && order.price in levels && levels[order.price] == order.priceLevel
      ensures order.priceLevel.price == order.price
      ensures k < |order.priceLevel.queue| && order.priceLevel.queue[k] == order
      ensures k < |order.priceLevel.values| && order.priceLevel.values[k] == order.Snapshot()
      ensures order.Snapshot() in view
    {
      var level := levels[order.price];
      assert level.Linked();
      k :| 0 <= k < |level.queue| && level.queue[k] == order;
      AtPriceMember(view, order.price, order.Snapshot());
    }

    /** Every value in the queue is some resting order's. */
    lemma OrderFor(v: OrderSnapshot) returns (o: Order)
      requires Kept() && Spelled() && v in view
      ensures o in orders && o.Snapshot() == v
    {
      AtPriceMember(view, v.price, v);
      var level := levels[v.price];
      assert level.Linked();
      var k :| 0 <= k < |level.values| && level.values[k] == v;
      o := level.queue[k];
    }

    /** Everything of a removal but dropping an emptied level and refreshing the cached best. */
    method UnshelveOrder(order: Order) returns (level: PriceLevel)
      requires Stored() && order in orders
      modifies this`orders, this`view, levels.Values, orders`nextOrder, orders`previousOrder, order`priceLevel
      ensures Stored() && view == RemoveId(old(view), order.orderId) && orders == old(orders) - {order}
      ensures order.price in levels && level == levels[order.price] && level.price == order.price
      ensures forall p :: p in levels && p != order.price ==> levels[p].queue == old(levels[p].queue)
      ensures old(order.Snapshot()) in old(view)
    {
      hide Housed, PriceLevel.Linked, RingPriceLadder.Covered, Sorted, AtPrice, RemoveId;
      ghost var k := Standing(order);
      level := order.priceLevel;
      ghost var snapshot := order.Snapshot();
      AtPriceUnique(view, order.price);
      RemoveAt(AtPrice(view, order.price), k);
      TakeFrom(level, order, k);
      view := RemoveId(view, order.orderId);
      RemoveSpelled(old(view), snapshot);
    }

    /** A kept level whose orders all have lots left has a positive total. */
    lemma PositiveTotal(level: PriceLevel)
      requires Kept() && Spelled() && level.price in levels && levels[level.price] == level && level.queue != []
      requires forall o <- view :: o.remaining > 0
      ensures level.totalQuantity > 0
    {
      assert level.Linked();
      AtPriceMember(view, level.price, level.values[0]);
    }

    /** Take an order out of the book. */
    method RemoveOrder(order: Order)
      requires Valid() && order in orders
      requires forall o <- view :: o.remaining > 0 || o.orderId == order.orderId
      modifies Repr()
      ensures Valid()
      ensures view == RemoveId(old(view), order.orderId)
      ensures orders == old(orders) - {order} && Repr() <= old(Repr())
    {
      hide Stored, Kept, Spelled, RemoveId;
      StoredParts();
      LevelOfOrder(order);
      forall o <- RemoveId(view, order.orderId) ensures o.remaining > 0 { RemoveMember(view, order.orderId, o); }
      FrontKept(view, order.Snapshot());
      var level := UnshelveOrder(order);
      StoredParts();
      if level.queue != [] { PositiveTotal(level); }
      UpdateAfterFillOrCancel(level);
    }

    /** A resting order belongs to the level of its price, whose orders all have that price. */
    lemma LevelOfOrder(order: Order)
      requires Kept() && Spelled() && order in orders
      ensures order.price in levels && order.Snapshot() in view && UniqueIds(view)
      ensures view != [] && view[0].price in levels
    {
      var k := Standing(order);
    }

    lemma StoredParts()
      requires Stored()
      ensures Kept() && Spelled()
    {
      hide Housed, Kept, Spelled;
    }

    lemma KeptAndSpelled()
      requires Shelved()
      ensures Kept() && Spelled()
    {
    }

    lemma ReduceSpelled(was: Queue, o: OrderSnapshot)
      requires Sorted(side, was) && UniqueIds(was) && was != []
      requires o == was[0].(remaining := o.remaining)
      requires forall i :: 0 <= i < |was| ==> was[i].price in levels && was[i].side == side
      requires forall p :: p in levels ==>
                 levels[p].values == if p == o.price then [o] + AtPrice(was, p)[1..] else AtPrice(was, p)
      requires view == [o] + was[1..]
      ensures Spelled()
    {
      hide AtPrice, Sorted, UniqueIds;
      FrontSame(side, was, o);
      forall p | p in levels ensures levels[p].values == AtPrice(view, p) { AtPriceFront(was, o, p); }
      forall i | 0 <= i < |view| ensures view[i].price in levels && view[i].side == side { assert view[i].price == was[i].price; }
    }

    /** Reduce the front of one level; the other levels are untouched. */
    method ReduceIn(level: PriceLevel, maker: Order, fill: nat)
      requires Kept() && level.price in levels && levels[level.price] == level
      requires level.queue != [] && maker == level.queue[0] && fill <= maker.remaining
      modifies maker`remaining, level`totalQuantity, level`values
      ensures Kept() && maker.remaining == old(maker.remaining) - fill
      ensures level.totalQuantity == old(level.totalQuantity) - fill
      ensures level.values == [maker.Snapshot()] + old(level.values)[1..]
      ensures forall p :: p in levels && p != level.price ==> levels[p].values == old(levels[p].values)
    {
      hide PriceLevel.Linked;
      assert forall p, i :: p in levels && 0 <= i < |levels[p].queue| ==> levels[p].queue[i].priceLevel == levels[p];
      level.ReduceFront(maker, fill);
    }

    /** The best order gives up lots; it may be left with none, for RemoveOrder to take out. */
    method ReduceFront(maker: Order, fill: nat)
      requires Valid() && IsFront(maker) && fill <= maker.remaining
      modifies this`view, maker`remaining, levels.Values`totalQuantity, levels.Values`values
      ensures Valid()
      ensures view == [old(view)[0].(remaining := old(view)[0].remaining - fill)] + old(view)[1..]
      ensures view[0] == maker.Snapshot()
      ensures levels[view[0].price].totalQuantity == old(levels[view[0].price].totalQuantity) - fill
    {
      hide Housed, Kept, PriceLevel.Linked, RingPriceLadder.Valid, Sorted, UniqueIds, AtPrice, NoEmptyLevel;
      ghost var k := Standing(maker);
      var level := maker.priceLevel;
      ReduceIn(level, maker, fill);
      view := [maker.Snapshot()] + view[1..];
      ReduceSpelled(old(view), maker.Snapshot());
    }

    /** The same, as the book sees it: the maker's level has its new total. */
    method ReduceBest(maker: Order, fill: nat) returns (total: nat)
      requires Valid() && IsFront(maker) && fill <= maker.remaining
      modifies Repr()
      ensures Valid() && levels == old(levels) && orders == old(orders)
      ensures view == [old(view)[0].(remaining := old(view)[0].remaining - fill)] + old(view)[1..]
      ensures view[0] == maker.Snapshot()
      ensures total == LevelLots(old(view), maker.price) - fill
    {
      hide Valid, LevelLots;
      FrontTotal();
      ReduceFront(maker, fill);
      var level := maker.priceLevel;
      total := level.totalQuantity;
    }

    /** UpdateAfterFillOrCancel at the best level, when it keeps its orders. */
    method UpdateFront(level: PriceLevel)
      requires Valid() && view != [] && view[0].price in levels && level == levels[view[0].price]
      requires forall o <- view :: o.remaining > 0
      modifies Repr()
      ensures Valid() && levels == old(levels) && view == old(view) && orders == old(orders)
    {
      hide Shelved, RingPriceLadder.Covered;
      KeptAndSpelled();
      FrontLevel();
      PositiveTotal(level);
      UpdateAfterFillOrCancel(level);
    }
  }

  /** Taking out an order other than the front leaves the front. */
  lemma FrontKept(q: Queue, o: OrderSnapshot)
    requires q != []
    ensures q[0].orderId != o.orderId ==> RemoveId(q, o.orderId) != [] && RemoveId(q, o.orderId)[0] == q[0]
  {
  }

  /** The front after an insertion: the newcomer where it beats the old front, the old front otherwise. */
  lemma InsertedFront(side: Side, q: Queue, o: OrderSnapshot)
    ensures var r := Insert(side, q, o);
            r != [] && r[0] == if q == [] || Better(side, o.price, q[0].price) then o else q[0]
  {
  }

  /** Insert into one of two sides that share nothing; the other is untouched and they still share nothing. */
  method InsertApart(side: SideBook, other: SideBook, order: Order)
    requires side.Valid() && other.Valid() && side.Repr() !! other.Repr()
    requires order !in side.Repr() && order !in other.Repr()
    requires side.GoodPrice(order.price) && order.side == side.side && !HasId(side.view, order.orderId)
    modifies side.Repr(), order`nextOrder, order`previousOrder, order`priceLevel
    ensures side.Valid() && other.Valid() && side.Repr() !! other.Repr()
    ensures side.view == Insert(side.side, old(side.view), order.Snapshot()) && side.orders == old(side.orders) + {order}
    ensures other.view == old(other.view) && other.orders == old(other.orders) && other.Repr() == old(other.Repr())
    ensures forall x :: x in side.Repr() ==> x in old(side.Repr()) || x == order || fresh(x)
  {
    hide SideBook.Valid, Insert, HasId;
    side.InsertRestingOrder(order);
  }

  /** A front order of another size changes neither order nor ids. */
  lemma FrontSame(side: Side, q: Queue, o: OrderSnapshot)
    requires Sorted(side, q) && UniqueIds(q) && q != [] && o == q[0].(remaining := o.remaining)
    ensures Sorted(side, [o] + q[1..]) && UniqueIds([o] + q[1..])
  {
    var r := [o] + q[1..];
    assert forall i :: 0 <= i < |q| ==> r[i].price == q[i].price && r[i].orderId == q[i].orderId;
  }
}
