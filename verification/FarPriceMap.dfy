/** Price levels outside the ring, in an ordered map. */
module FarPrices {
  import opened Types
  import opened BookSpec
  import opened PriceLevels

  lemma SomeKey(keys: set<int>)
    requires keys != {}
    ensures exists p :: p in keys
  {
    if forall p :: p !in keys { assert false; }
  }

  class FarPriceMap {
    const side: Side
    var levels: map<int, PriceLevel>

    constructor (side: Side)
      ensures this.side == side && levels == map[]
    {
      this.side, levels := side, map[];
    }

    method GetOrCreateLevel(price: int) returns (level: PriceLevel)
      modifies this
      ensures levels == old(levels)[price := level]
      ensures price in old(levels) ==> level == old(levels)[price]
      ensures price !in old(levels) ==>
                fresh(level) && level.price == price && level.queue == [] && level.values == [] && level.Linked()
    {
      if price in levels {
        return levels[price];
      }
      level := new PriceLevel(price);
      levels := levels[price := level];
    }

    method RemoveLevelIfEmpty(price: int)
      modifies this
      ensures levels == if price in old(levels) && old(levels[price].Empty() || levels[price].totalQuantity == 0)
                        then old(levels) - {price} else old(levels)
    {
      if price !in levels {
        return;
      }
      if levels[price].Empty() || levels[price].totalQuantity == 0 {
        levels := levels - {price};
      }
    }

    /** The next key in iteration order: from the top for bids, from the bottom for asks. */
    method NextKey(keys: set<int>) returns (best: int)
      requires keys != {}
      ensures best in keys && forall p <- keys :: !Better(side, p, best)
    {
      SomeKey(keys);
      best :| best in keys;
      var rest := keys - {best};
      while rest != {}
        invariant best in keys && rest <= keys
        invariant forall p <- keys :: p in rest || !Better(side, p, best)
      {
        SomeKey(rest);
        var p :| p in rest;
        if Better(side, p, best) {
          best := p;
        }
        rest := rest - {p};
      }
    }

    ghost predicate IsBest(best: int)
      reads this, levels.Values
    {
      best in levels && !levels[best].Empty() && forall p <- levels :: !levels[p].Empty() ==> !Better(side, p, best)
    }

    /** The best level that is not empty, null if all are. */
    method BestLevel() returns (level: PriceLevel?)
      ensures level == null ==> forall p <- levels :: levels[p].Empty()
      ensures level != null ==> exists best :: IsBest(best) && levels[best] == level
    {
      var rest := levels.Keys;
      while rest != {}
        invariant rest <= levels.Keys
        invariant forall p <- levels :: p in rest || levels[p].Empty()
      {
        var best := NextKey(rest);
        if !levels[best].Empty() {
          assert IsBest(best);
          return levels[best];
        }
        rest := rest - {best};
      }
      return null;
    }
  }
}
