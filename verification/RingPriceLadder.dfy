/**
  The ring of price levels near the touch: a rotated array of slots and a bitmap, one bit per slot,
  that a search walks word by word.
 */
module RingLadder {
  import opened Types
  import opened BookSpec
  import opened Words
  import opened PriceLevels

  /** Scan slots lo, lo + 1, ..., hi - 1 for the first that holds a level. */
  ghost function FirstIn(s: seq<PriceLevel?>, lo: nat, hi: nat): PriceLevel?
    requires hi <= |s|
    decreases hi - lo
  {
    if lo >= hi then null else if s[lo] != null then s[lo] else FirstIn(s, lo + 1, hi)
  }

  /** Scan slots hi - 1, hi - 2, ..., lo for the first that holds a level. */
  ghost function LastIn(s: seq<PriceLevel?>, lo: nat, hi: nat): PriceLevel?
    requires hi <= |s|
    decreases hi
  {
    if lo >= hi then null else if s[hi - 1] != null then s[hi - 1] else LastIn(s, lo, hi - 1)
  }

  /** The slots in ascending price order: slot `head` holds the lowest tick. */
  ghost function Rotated(s: seq<PriceLevel?>, head: nat): seq<PriceLevel?>
    requires head <= |s|
  {
    s[head..] + s[..head]
  }

  /** The best level by a plain scan in price order: from the top for bids, from the bottom for asks. */
  ghost function BestByScan(side: Side, s: seq<PriceLevel?>, head: nat): PriceLevel?
    requires head <= |s|
  {
    if side == Buy then LastIn(Rotated(s, head), 0, |s|) else FirstIn(Rotated(s, head), 0, |s|)
  }

  function WordCount(capacity: nat): nat {
    (capacity + WORD_BITS - 1) / WORD_BITS
  }

  function LadderTick(price: int, tickSize: int): int {
    if tickSize <= 0 then price else TruncDiv(price, tickSize)
  }

  class RingPriceLadder {
    const side: Side
    const tickSize: int
    const baseTick: int
    const capacity: nat
    var headIndex: nat
    const slots: array<PriceLevel?>
    const activeSlotBitmap: array<Word>

    constructor (side: Side, tickSize: int, baseTick: int, capacity: nat)
      ensures Valid()
      ensures this.side == side && this.tickSize == tickSize && this.baseTick == baseTick
      ensures this.capacity == capacity && headIndex == 0
      ensures forall i :: 0 <= i < capacity ==> slots[i] == null
      ensures fresh(slots) && fresh(activeSlotBitmap)
    {
      this.side, this.tickSize, this.baseTick, this.capacity, headIndex := side, tickSize, baseTick, capacity, 0;
      slots := new PriceLevel?[capacity](_ => null);
      activeSlotBitmap := new Word[WordCount(capacity)](_ => 0);
    }

    predicate ContainsTick(tick: int) {
      capacity > 0 && baseTick <= tick && tick - baseTick < capacity
    }

    function SlotOf(tick: int): (slot: nat)
      requires ContainsTick(tick)
      reads this`headIndex
      ensures slot < capacity
    {
      (headIndex + (tick - baseTick)) % capacity
    }

    ghost predicate Shaped()
      reads this`headIndex
    {
      && slots.Length == capacity
      && activeSlotBitmap.Length == WordCount(capacity)
      && (capacity > 0 ==> headIndex < capacity)
    }

    ghost predicate BitSet(slot: nat)
      requires slot < capacity && activeSlotBitmap.Length == WordCount(capacity)
      reads activeSlotBitmap
    {
      Bit(activeSlotBitmap[slot / WORD_BITS], slot % WORD_BITS)
    }

    /** Every slot that holds a level has its bit; a bit without a level is allowed (it is healed on sight). */
    ghost predicate Covered()
      requires Shaped()
      reads this`headIndex, slots, activeSlotBitmap
    {
      forall i :: 0 <= i < capacity && slots[i] != null ==> BitSet(i)
    }

    ghost predicate Valid()
      reads this`headIndex, slots, activeSlotBitmap
    {
      Shaped() && Covered()
    }

    method MarkActive(slot: nat)
      requires Shaped()
      modifies activeSlotBitmap
      ensures forall i :: 0 <= i < capacity ==> (BitSet(i) <==> old(BitSet(i)) || i == slot)
    {
      if slot >= capacity {
        return;
      }
      var w, k := slot / WORD_BITS, slot % WORD_BITS;
      Pow2Of64();
      OrBound(activeSlotBitmap[w], Shl(1, k), WORD_BITS);
      activeSlotBitmap[w] := Or(activeSlotBitmap[w], Shl(1, k));
      forall i | 0 <= i < capacity
        ensures BitSet(i) <==> old(BitSet(i)) || i == slot
      {
        OrBit(old(activeSlotBitmap[w]), Shl(1, k), i % WORD_BITS);
        OneShifted(k, i % WORD_BITS);
      }
    }

    method MarkInactive(slot: nat)
      requires Shaped()
      modifies activeSlotBitmap
      ensures forall i :: 0 <= i < capacity ==> (BitSet(i) <==> old(BitSet(i)) && i != slot)
    {
      if slot >= capacity {
        return;
      }
      var w, k := slot / WORD_BITS, slot % WORD_BITS;
      activeSlotBitmap[w] := And(activeSlotBitmap[w], Not(Shl(1, k)));
      forall i | 0 <= i < capacity
        ensures BitSet(i) <==> old(BitSet(i)) && i != slot
      {
        AndBit(old(activeSlotBitmap[w]), Not(Shl(1, k)), i % WORD_BITS);
        NotBit(Shl(1, k), i % WORD_BITS);
        OneShifted(k, i % WORD_BITS);
      }
    }

    /** The word at wordIndex with the bits outside [first, last] masked off. */
    method MaskedWord(wordIndex: nat, first: nat, last: nat) returns (bits: Word)
      requires Shaped() && first <= last < capacity
      requires first / WORD_BITS <= wordIndex <= last / WORD_BITS
      ensures forall k :: 0 <= k < WORD_BITS ==>
        (Bit(bits, k) <==> Bit(activeSlotBitmap[wordIndex], k) && first <= wordIndex * WORD_BITS + k <= last)
    {
      bits := activeSlotBitmap[wordIndex];
      var low, high := Shl(Not(0), first % WORD_BITS), BitsThrough(last % WORD_BITS);
      if wordIndex == first / WORD_BITS {
        bits := And(bits, low);
      }
      ghost var middle := bits;
      if wordIndex == last / WORD_BITS {
        bits := And(bits, high);
      }
      forall k | 0 <= k < WORD_BITS
        ensures Bit(bits, k) <==>
                Bit(activeSlotBitmap[wordIndex], k) && first <= wordIndex * WORD_BITS + k <= last
      {
        AndBit(activeSlotBitmap[wordIndex], low, k);
        AndBit(middle, high, k);
        OnesShifted(first % WORD_BITS, k);
        BitsThroughBit(last % WORD_BITS, k);
      }
    }

    /** The slots of one word that lie in [first, last]. */
    ghost predicate InWord(i: int, wordIndex: nat, first: nat, last: nat) {
      first <= i <= last && wordIndex * WORD_BITS <= i < (wordIndex + 1) * WORD_BITS
    }

    /** `bits` marks only slots in range, and every occupied slot of the word in range. */
    ghost predicate Marks(bits: Word, wordIndex: nat, first: nat, last: nat)
      requires Shaped() && last < capacity
      reads this`headIndex, slots
    {
      && (forall k :: 0 <= k < WORD_BITS && Bit(bits, k) ==> first <= wordIndex * WORD_BITS + k <= last)
      && (forall i :: InWord(i, wordIndex, first, last) && slots[i] != null ==> Bit(bits, i - wordIndex * WORD_BITS))
    }

    lemma LowestMarked(bits: Word, wordIndex: nat, first: nat, last: nat, slot: nat)
      requires Shaped() && last < capacity && Marks(bits, wordIndex, first, last)
      requires bits > 0 && slot == wordIndex * WORD_BITS + CountrZero(bits)
      ensures forall i :: InWord(i, wordIndex, first, last) && i < slot ==> slots[i] == null
    {
      hide Bit, CountrZero, HighestBit;
      forall i | InWord(i, wordIndex, first, last) && i < slot ensures slots[i] == null {
        if slots[i] != null { CountrZeroIsLowest(bits, i - wordIndex * WORD_BITS); }
      }
    }

    lemma HighestMarked(bits: Word, wordIndex: nat, first: nat, last: nat, slot: nat)
      requires Shaped() && last < capacity && Marks(bits, wordIndex, first, last)
      requires bits > 0 && slot == wordIndex * WORD_BITS + HighestBit(bits)
      ensures forall i :: InWord(i, wordIndex, first, last) && i > slot ==> slots[i] == null
    {
      hide Bit, CountrZero, HighestBit;
      forall i | InWord(i, wordIndex, first, last) && i > slot ensures slots[i] == null {
        if slots[i] != null { HighestBitIsHighest(bits, i - wordIndex * WORD_BITS); }
      }
    }

    lemma NoneMarked(wordIndex: nat, first: nat, last: nat)
      requires Shaped() && last < capacity && Marks(0, wordIndex, first, last)
      ensures forall i :: InWord(i, wordIndex, first, last) ==> slots[i] == null
    {
      hide Bit;
      forall i | InWord(i, wordIndex, first, last) ensures slots[i] == null { ZeroHasNoBit(i - wordIndex * WORD_BITS); }
    }

    /** The bits of one word, lowest first; bits of empty slots are cleared on the way. */
    method FirstActiveInWord(wordIndex: nat, first: nat, last: nat) returns (slot: Option<nat>)
      requires Valid() && first <= last < capacity
      requires first / WORD_BITS <= wordIndex <= last / WORD_BITS
      modifies activeSlotBitmap
      ensures Valid()
      ensures slot.None? ==> forall i :: InWord(i, wordIndex, first, last) ==> slots[i] == null
      ensures slot.Some? ==> InWord(slot.value, wordIndex, first, last) && slots[slot.value] != null
      ensures slot.Some? ==> forall i :: InWord(i, wordIndex, first, last) && i < slot.value ==> slots[i] == null
    {
      hide Bit, CountrZero, HighestBit;
      var bits := MaskedWord(wordIndex, first, last);
      while bits != 0
        invariant Valid() && Marks(bits, wordIndex, first, last)
        decreases bits
      {
        var bitOffset := CountrZero(bits);
        WidthBound(bits, bitOffset, WORD_BITS);
        var slotIndex := wordIndex * WORD_BITS + bitOffset;
        if slotIndex < capacity {
          if slots[slotIndex] != null {
            LowestMarked(bits, wordIndex, first, last, slotIndex);
            return Some(slotIndex);
          }
          MarkInactive(slotIndex);
        }
        bits := DropLowestBit(bits);
      }
      NoneMarked(wordIndex, first, last);
      return None;
    }

    /** The bits of one word, highest first; bits of empty slots are cleared on the way. */
    method LastActiveInWord(wordIndex: nat, first: nat, last: nat) returns (slot: Option<nat>)
      requires Valid() && first <= last < capacity
      requires first / WORD_BITS <= wordIndex <= last / WORD_BITS
      modifies activeSlotBitmap
      ensures Valid()
      ensures slot.None? ==> forall i :: InWord(i, wordIndex, first, last) ==> slots[i] == null
      ensures slot.Some? ==> InWord(slot.value, wordIndex, first, last) && slots[slot.value] != null
      ensures slot.Some? ==> forall i :: InWord(i, wordIndex, first, last) && i > slot.value ==> slots[i] == null
    {
      hide Bit, CountrZero, HighestBit;
      var bits := MaskedWord(wordIndex, first, last);
      while bits != 0
        invariant Valid() && Marks(bits, wordIndex, first, last)
        decreases bits
      {
        var bitOffset := WORD_BITS - 1 - CountlZero(bits);
        WidthBound(bits, bitOffset, WORD_BITS);
        var slotIndex := wordIndex * WORD_BITS + bitOffset;
        if slotIndex < capacity {
          if slots[slotIndex] != null {
            HighestMarked(bits, wordIndex, first, last, slotIndex);
            return Some(slotIndex);
          }
          MarkInactive(slotIndex);
        }
        bits := DropBit(bits, bitOffset);
      }
      NoneMarked(wordIndex, first, last);
      return None;
    }

    /** The lowest occupied slot in [first, last], found through the bitmap. */
    method FirstActiveLevelInRange(first: nat, last: nat) returns (level: PriceLevel?)
      requires Valid() && last < capacity
      modifies activeSlotBitmap
      ensures Valid()
      ensures level == FirstIn(slots[..], first, last + 1)
    {
      if first > last || activeSlotBitmap.Length == 0 {
        return null;
      }
      for wordIndex := first / WORD_BITS to last / WORD_BITS + 1
        invariant Valid()
        invariant forall i :: first <= i <= last && i < wordIndex * WORD_BITS ==> slots[i] == null
      {
        var slot := FirstActiveInWord(wordIndex, first, last);
        forall i | first <= i <= last && i < (wordIndex + 1) * WORD_BITS && (slot.None? || i < slot.value)
          ensures slots[i] == null
        {
          assert i < wordIndex * WORD_BITS || InWord(i, wordIndex, first, last);
        }
        if slot.Some? {
          FirstInIs(slots[..], first, last + 1, slot.value);
          return slots[slot.value];
        }
      }
      FirstInNone(slots[..], first, last + 1);
      return null;
    }

    /** The highest occupied slot in [first, last], found through the bitmap. */
    method LastActiveLevelInRange(first: nat, last: nat) returns (level: PriceLevel?)
      requires Valid() && last < capacity
      modifies activeSlotBitmap
      ensures Valid()
      ensures level == LastIn(slots[..], first, last + 1)
    {
      if first > last || activeSlotBitmap.Length == 0 {
        return null;
      }
      for wordIndex := last / WORD_BITS + 1 downto first / WORD_BITS
        invariant Valid()
        invariant forall i :: first <= i <= last && i >= wordIndex * WORD_BITS ==> slots[i] == null
      {
        var slot := LastActiveInWord(wordIndex, first, last);
        forall i | first <= i <= last && i >= wordIndex * WORD_BITS && (slot.None? || i > slot.value)
          ensures slots[i] == null
        {
          assert i >= (wordIndex + 1) * WORD_BITS || InWord(i, wordIndex, first, last);
        }
        if slot.Some? {
          LastInIs(slots[..], first, last + 1, slot.value);
          return slots[slot.value];
        }
      }
      LastInNone(slots[..], first, last + 1);
      return null;
    }

    /** The best level, as a plain scan of the ticks in price order would find it. */
    method AdvanceBestAfterEmpty() returns (level: PriceLevel?)
      requires Valid()
      modifies activeSlotBitmap
      ensures Valid()
      ensures capacity == 0 ==> level == null
      ensures capacity > 0 ==> level == BestByScan(side, slots[..], headIndex)
    {
      if capacity == 0 {
        return null;
      }
      RotatedScans(side, slots[..], headIndex);
      if side == Buy {
        if headIndex > 0 {
          level := LastActiveLevelInRange(0, headIndex - 1);
          if level != null {
            return;
          }
        }
        level := LastActiveLevelInRange(headIndex, capacity - 1);
        return;
      }
      level := FirstActiveLevelInRange(headIndex, capacity - 1);
      if level != null {
        return;
      }
      if headIndex > 0 {
        level := FirstActiveLevelInRange(0, headIndex - 1);
        return;
      }
      return null;
    }

    function LevelAt(price: int): PriceLevel?
      requires Shaped()
      reads this`headIndex, slots
    {
      var tick := LadderTick(price, tickSize);
      if ContainsTick(tick) then slots[SlotOf(tick)] else null
    }

    method GetLevel(price: int) returns (level: PriceLevel?)
      requires Shaped()
      ensures level == LevelAt(price)
    {
      if capacity == 0 {
        return null;
      }
      var tick := LadderTick(price, tickSize);
      if !ContainsTick(tick) {
        return null;
      }
      return slots[SlotOf(tick)];
    }

    method GetOrCreateLevel(price: int) returns (level: PriceLevel?)
      requires Valid()
      modifies slots, activeSlotBitmap
      ensures Valid()
      ensures var tick := LadderTick(price, tickSize);
              if ContainsTick(tick) then level != null && slots[..] == old(slots[..])[SlotOf(tick) := level]
              else level == null && slots[..] == old(slots[..])
      ensures old(LevelAt(price)) != null ==> level == old(LevelAt(price))
      ensures old(LevelAt(price)) == null && level != null ==>
                fresh(level) && level.price == price && level.queue == [] && level.values == [] && level.Linked()
    {
      if capacity == 0 {
        return null;
      }
      var tick := LadderTick(price, tickSize);
      if !ContainsTick(tick) {
        return null;
      }
      var slot := SlotOf(tick);
      if slots[slot] == null {
        slots[slot] := new PriceLevel(price);
      }
      MarkActive(slot);
      return slots[slot];
    }

    method ClearSlot(slot: nat)
      requires Valid()
      modifies slots, activeSlotBitmap
      ensures Valid()
      ensures slots[..] == if slot < capacity then old(slots[..])[slot := null] else old(slots[..])
    {
      if slot >= capacity {
        return;
      }
      slots[slot] := null;
      MarkInactive(slot);
    }

    method RemoveLevelIfEmpty(price: int)
      requires Valid()
      modifies slots, activeSlotBitmap
      ensures Valid()
      ensures var level := old(LevelAt(price));
              slots[..] == if level != null && old(level.Empty() || level.totalQuantity == 0)
                           then old(slots[..])[SlotOf(LadderTick(price, tickSize)) := null] else old(slots[..])
    {
      if capacity == 0 {
        return;
      }
      var tick := LadderTick(price, tickSize);
      if !ContainsTick(tick) {
        return;
      }
      var slot := SlotOf(tick);
      var level := slots[slot];
      if level == null {
        MarkInactive(slot);
        return;
      }
      if level.Empty() || level.totalQuantity == 0 {
        ClearSlot(slot);
      }
    }
  }

  /** `bits & ~(1 << k)` for the highest set bit k */
  method DropBit(bits: Word, k: nat) returns (r: Word)
    requires k < WORD_BITS && Bit(bits, k)
    ensures forall j :: 0 <= j < WORD_BITS ==> (Bit(r, j) <==> Bit(bits, j) && j != k)
    ensures r < bits
  {
    r := And(bits, Not(Shl(1, k)));
    forall j | 0 <= j < WORD_BITS
      ensures Bit(r, j) <==> Bit(bits, j) && j != k
    {
      AndBit(bits, Not(Shl(1, k)), j);
      NotBit(Shl(1, k), j);
      OneShifted(k, j);
    }
    assert r != bits;
  }

  /** `bits & (bits - 1)` */
  method DropLowestBit(bits: Word) returns (r: Word)
    requires bits > 0
    ensures forall j :: 0 <= j < WORD_BITS ==> (Bit(r, j) <==> Bit(bits, j) && j != CountrZero(bits))
    ensures r < bits
  {
    r := And(bits, bits - 1);
    forall j | 0 <= j < WORD_BITS
      ensures Bit(r, j) <==> Bit(bits, j) && j != CountrZero(bits)
    {
      DropLowest(bits, j);
    }
  }

  lemma {:induction false} FirstInIs(s: seq<PriceLevel?>, lo: nat, hi: nat, m: nat)
    requires lo <= m < hi <= |s| && s[m] != null
    requires forall i :: lo <= i < m ==> s[i] == null
    ensures FirstIn(s, lo, hi) == s[m]
    decreases m - lo
  {
    if lo < m { FirstInIs(s, lo + 1, hi, m); }
  }

  lemma {:induction false} FirstInNone(s: seq<PriceLevel?>, lo: nat, hi: nat)
    requires hi <= |s|
    requires forall i :: lo <= i < hi ==> s[i] == null
    ensures FirstIn(s, lo, hi) == null
    decreases hi - lo
  {
    if lo < hi { FirstInNone(s, lo + 1, hi); }
  }

  lemma {:induction false} LastInIs(s: seq<PriceLevel?>, lo: nat, hi: nat, m: nat)
    requires lo <= m < hi <= |s| && s[m] != null
    requires forall i :: m < i < hi ==> s[i] == null
    ensures LastIn(s, lo, hi) == s[m]
    decreases hi
  {
    if m < hi - 1 { LastInIs(s, lo, hi - 1, m); }
  }

  lemma {:induction false} LastInNone(s: seq<PriceLevel?>, lo: nat, hi: nat)
    requires hi <= |s|
    requires forall i :: lo <= i < hi ==> s[i] == null
    ensures LastIn(s, lo, hi) == null
    decreases hi
  {
    if lo < hi { LastInNone(s, lo, hi - 1); }
  }

  lemma RotatedAt(s: seq<PriceLevel?>, head: nat)
    requires head <= |s|
    ensures |Rotated(s, head)| == |s|
    ensures forall k :: 0 <= k < |s| - head ==> Rotated(s, head)[k] == s[k + head]
    ensures forall k :: |s| - head <= k < |s| ==> Rotated(s, head)[k] == s[k + (head - |s|)]
  {
  }

  /** Scanning the rotation is scanning its two arcs, one after the other. */
  lemma RotatedScans(side: Side, s: seq<PriceLevel?>, head: nat)
    requires head <= |s|
    ensures BestByScan(side, s, head) ==
            if side == Buy then (if LastIn(s, 0, head) != null then LastIn(s, 0, head) else LastIn(s, head, |s|))
            else if FirstIn(s, head, |s|) != null then FirstIn(s, head, |s|) else FirstIn(s, 0, head)
  {
    if side == Buy { RotatedLast(s, head); } else { RotatedFirst(s, head); }
  }

  lemma RotatedLast(s: seq<PriceLevel?>, head: nat)
    requires head <= |s|
    ensures LastIn(Rotated(s, head), 0, |s|) ==
            if LastIn(s, 0, head) != null then LastIn(s, 0, head) else LastIn(s, head, |s|)
  {
    RotatedAt(s, head);
    hide Rotated, LastIn;
    var n, r := |s|, Rotated(s, head);
    var low := LastPosition(s, 0, head);
    var high := LastPosition(s, head, n);
    if LastIn(s, 0, head) != null {
      LastInIs(r, 0, n, low + n - head);
    } else if LastIn(s, head, n) != null {
      LastInIs(r, 0, n, high - head);
    } else {
      LastInNone(r, 0, n);
    }
  }

  lemma RotatedFirst(s: seq<PriceLevel?>, head: nat)
    requires head <= |s|
    ensures FirstIn(Rotated(s, head), 0, |s|) ==
            if FirstIn(s, head, |s|) != null then FirstIn(s, head, |s|) else FirstIn(s, 0, head)
  {
    RotatedAt(s, head);
    hide Rotated, FirstIn;
    var n, r := |s|, Rotated(s, head);
    var low := FirstPosition(s, 0, head);
    var high := FirstPosition(s, head, n);
    if FirstIn(s, head, n) != null {
      FirstInIs(r, 0, n, high - head);
    } else if FirstIn(s, 0, head) != null {
      FirstInIs(r, 0, n, low + n - head);
    } else {
      FirstInNone(r, 0, n);
    }
  }

  /**
    When the k-th tick of the ladder holds only prices at that tick, the scan's result beats, or ties with,
    every level in the ring.
   */
  lemma ScanFindsBest(side: Side, s: seq<PriceLevel?>, head: nat, tickSize: int, baseTick: int)
    requires head <= |s| && tickSize > 0
    requires forall k :: 0 <= k < |s| && Rotated(s, head)[k] != null ==>
               Rotated(s, head)[k].price == tickSize * (baseTick + k)
    ensures var best := BestByScan(side, s, head);
            && (best == null ==> forall i :: 0 <= i < |s| ==> s[i] == null)
            && (best != null ==> best in s)
            && (best != null ==> forall i :: 0 <= i < |s| && s[i] != null ==> !Better(side, s[i].price, best.price))
  {
    var r := Rotated(s, head);
    var best := BestByScan(side, s, head);
    forall i | 0 <= i < |s| ensures s[i] in r {
      assert s[i] == r[if i >= head then i - head else i + |s| - head];
    }
    if best != null {
      var m;
      if side == Buy { m := LastPosition(r, 0, |s|); } else { m := FirstPosition(r, 0, |s|); }
      assert best == s[if m < |s| - head then m + head else m + head - |s|];
      forall k | 0 <= k < |r| && r[k] != null
        ensures !Better(side, r[k].price, best.price)
      {
        if k <= m { Scale(tickSize, baseTick + k, baseTick + m); } else { Scale(tickSize, baseTick + m, baseTick + k); }
      }
    } else {
      var m;
      if side == Buy { m := LastPosition(r, 0, |s|); } else { m := FirstPosition(r, 0, |s|); }
    }
  }

  /** Offsets below the capacity land on slots one to one. */
  lemma RingOffset(head: nat, offset: nat, n: nat)
    requires head < n && offset < n
    ensures (head + offset) % n == if head + offset < n then head + offset else head + offset - n
  {
  }

  lemma TickOfSlot(head: nat, n: nat, k: nat, offset: nat, slot: nat)
    requires head < n && k < n && offset < n
    requires slot == (head + offset) % n && slot == if head + k < n then head + k else head + k - n
    ensures offset == k
  {
    RingOffset(head, offset, n);
  }

  lemma ExactTick(price: int, tickSize: int)
    requires price > 0 && tickSize > 0 && price % tickSize == 0
    ensures price == tickSize * LadderTick(price, tickSize)
  {
  }

  lemma Scale(t: int, a: int, b: int)
    requires t > 0 && a <= b
    ensures t * a <= t * b
  {
  }

  lemma {:induction false} FirstPosition(r: seq<PriceLevel?>, lo: nat, hi: nat) returns (m: nat)
    requires lo <= hi <= |r|
    ensures FirstIn(r, lo, hi) == null ==> forall k :: lo <= k < hi ==> r[k] == null
    ensures FirstIn(r, lo, hi) != null ==>
              lo <= m < hi && r[m] == FirstIn(r, lo, hi) && forall k :: lo <= k < m ==> r[k] == null
    decreases hi - lo
  {
    m := lo;
    if lo < hi && r[lo] == null { m := FirstPosition(r, lo + 1, hi); }
  }

  lemma {:induction false} LastPosition(r: seq<PriceLevel?>, lo: nat, hi: nat) returns (m: nat)
    requires lo <= hi <= |r|
    ensures LastIn(r, lo, hi) == null ==> forall k :: lo <= k < hi ==> r[k] == null
    ensures LastIn(r, lo, hi) != null ==>
              lo <= m < hi && r[m] == LastIn(r, lo, hi) && forall k :: m < k < hi ==> r[k] == null
    decreases hi
  {
    m := lo;
    if lo < hi {
      if r[hi - 1] == null { m := LastPosition(r, lo, hi - 1); } else { m := hi - 1; }
    }
  }
}
