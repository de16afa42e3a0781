/** The arithmetic of one fill: margin taken from a reservation, the position it changes, the risk that follows. */
module Accounting {
  import opened Types

  /** What the runtime remembers about an order: its owner, its size still open, its margin reservation. */
  datatype Metadata = Metadata(
    orderId: nat,
    marketId: nat,
    userId: nat,
    side: Side,
    original: int,
    remaining: int,
    reduceOnly: bool,
    reserved: int,
    remainingReserved: int,
    leverage: int)

  datatype Position = Position(signed: int, average: int, margin: int, leverage: int)

  const NoPosition := Position(0, 0, 0, 0)

  datatype RiskStatus = Flat | Healthy | Liquidatable

  datatype Risk = Risk(
    status: RiskStatus,
    signed: int,
    average: int,
    mark: int,
    margin: int,
    unrealized: int,
    equity: int,
    maintenance: int,
    ratio: int,
    leverage: int)

  // ---------- Truncating division ----------

  lemma TruncDivLaw(a: int, b: int)
    requires b > 0
    ensures Abs(a - TruncDiv(a, b) * b) < b
    ensures a >= 0 ==> 0 <= TruncDiv(a, b) && TruncDiv(a, b) * b <= a
    ensures a <= 0 ==> TruncDiv(a, b) <= 0 && a <= TruncDiv(a, b) * b
  {
    DivLaw(Abs(a), b);
    var q := Abs(a) / b;
    assert (-q) * b == -(q * b);
  }

  lemma DivLaw(a: nat, b: int)
    requires b > 0
    ensures 0 <= a / b && 0 <= a - (a / b) * b < b
  {
    assert a == (a / b) * b + a % b;
  }

  // ---------- Margin ----------

  function FallbackMargin(md: Metadata, fill: int, price: int): int {
    TruncDiv(price * fill, if md.leverage <= 0 then 1 else md.leverage)
  }

  /** The margin a fill will take, as announced with the trade. */
  function PreviewMargin(md: Metadata, fill: int, price: int): int {
    if md.reserved > 0 && md.original > 0 then
      if md.remaining > 0 && fill >= md.remaining then md.remainingReserved
      else Min(TruncDiv(md.reserved * fill, md.original), md.remainingReserved)
    else FallbackMargin(md, fill, price)
  }

  /** The margin a fill takes, and the metadata it leaves. */
  function AllocateMargin(md: Metadata, fill: int, price: int): (int, Metadata) {
    var taken :=
      if md.reserved > 0 && md.original > 0 then
        Min(if md.remaining > 0 && fill >= md.remaining then md.remainingReserved
            else TruncDiv(md.reserved * fill, md.original),
            md.remainingReserved)
      else FallbackMargin(md, fill, price);
    (taken,
     md.(remaining := if md.remaining > fill then md.remaining - fill else 0,
         remainingReserved := if md.remainingReserved > taken then md.remainingReserved - taken else 0))
  }

  /**
    A reservation in good standing: the margin left covers the open quantity's share of it, so the cap on an allocation
    cannot bind, and a completely filled order has none left.
   */
  predicate GoodReservation(md: Metadata) {
    && md.reserved > 0 && 0 <= md.remaining <= md.original && md.original > 0
    && 0 <= md.remainingReserved <= md.reserved
    && md.remainingReserved * md.original >= md.reserved * md.remaining
    && (md.remaining == 0 ==> md.remainingReserved == 0)
  }

  lemma ScaleOrder(a: int, b: int, o: int)
    requires o > 0
    ensures a * o <= b * o ==> a <= b
  {
    if a > b { assert a * o >= (b + 1) * o; }
  }

  lemma ShareFits(r: int, left: int, o: int, remaining: int, fill: int)
    requires r > 0 && o > 0 && 0 <= fill <= remaining && left * o >= r * remaining
    ensures var share := TruncDiv(r * fill, o);
            0 <= share <= left && (left - share) * o >= r * (remaining - fill)
  {
    var share := TruncDiv(r * fill, o);
    assert r * fill >= 0;
    TruncDivLaw(r * fill, o);
    assert r * fill <= r * remaining;
    assert share * o <= left * o;
    ScaleOrder(share, left, o);
  }

  /**
    One fill of at most the open quantity: what is taken is what was announced, it comes out of the margin left, the cap
    does not bind, and the reservation stays in good standing; the fill that closes the order takes everything left.
   */
  lemma AllocateStep(md: Metadata, fill: int, price: int)
    requires GoodReservation(md) && 0 < fill <= md.remaining
    ensures var (taken, md') := AllocateMargin(md, fill, price);
            && taken == PreviewMargin(md, fill, price)
            && 0 <= taken && md'.remainingReserved == md.remainingReserved - taken
            && md' == md.(remaining := md.remaining - fill, remainingReserved := md'.remainingReserved)
            && GoodReservation(md')
            && (fill < md.remaining ==> taken == TruncDiv(md.reserved * fill, md.original))
            && (fill == md.remaining ==> taken == md.remainingReserved)
  {
    ShareFits(md.reserved, md.remainingReserved, md.original, md.remaining, fill);
    assert md.reserved * 0 == 0;
  }

  datatype Fill = Fill(quantity: int, price: int)

  function TotalFilled(fills: seq<Fill>): int {
    if fills == [] then 0 else fills[0].quantity + TotalFilled(fills[1..])
  }

  /** The margin a run of fills takes in all, and the metadata it leaves. */
  function AllocateAll(md: Metadata, fills: seq<Fill>): (int, Metadata)
    decreases |fills|
  {
    if fills == [] then (0, md)
    else
      var (taken, md') := AllocateMargin(md, fills[0].quantity, fills[0].price);
      var (more, end) := AllocateAll(md', fills[1..]);
      (taken + more, end)
  }

  lemma {:induction false} TotalFilledPositive(fills: seq<Fill>)
    requires forall f <- fills :: f.quantity > 0
    ensures TotalFilled(fills) >= 0 && (fills != [] ==> TotalFilled(fills) > 0)
  {
    if fills != [] { TotalFilledPositive(fills[1..]); }
  }

  /** Over any run of fills: taken plus left is what was left before, and nothing is left once the order is filled. */
  lemma {:induction false} AllocateAllLaw(md: Metadata, fills: seq<Fill>)
    requires GoodReservation(md) && (forall f <- fills :: f.quantity > 0) && TotalFilled(fills) <= md.remaining
    ensures var (taken, end) := AllocateAll(md, fills);
            && GoodReservation(end) && end.reserved == md.reserved && end.original == md.original
            && taken + end.remainingReserved == md.remainingReserved
            && end.remaining == md.remaining - TotalFilled(fills)
    decreases |fills|
  {
    if fills != [] {
      TotalFilledPositive(fills[1..]);
      AllocateStep(md, fills[0].quantity, fills[0].price);
      AllocateAllLaw(AllocateMargin(md, fills[0].quantity, fills[0].price).1, fills[1..]);
    }
  }

  /**
    A new reservation R over any fills of the order: taken plus left is R, so a cancel, which releases what is left,
    settles the account exactly; a complete fill takes exactly R.
   */
  lemma ReservationLaw(md: Metadata, fills: seq<Fill>)
    requires md.reserved > 0 && md.original > 0 && md.remaining == md.original && md.remainingReserved == md.reserved
    requires (forall f <- fills :: f.quantity > 0) && TotalFilled(fills) <= md.original
    ensures var (taken, end) := AllocateAll(md, fills);
            && taken + end.remainingReserved == md.reserved
            && (TotalFilled(fills) == md.original ==> taken == md.reserved && end.remainingReserved == 0)
  {
    AllocateAllLaw(md, fills);
  }

  // ---------- Positions ----------

  predicate SameDirection(a: int, b: int) {
    (a > 0 && b > 0) || (a < 0 && b < 0)
  }

  function SignedFill(side: Side, fill: int): int {
    if side == Buy then fill else -fill
  }

  /** Open, add, close, reduce or flip. */
  function ApplyFill(p: Position, leverage: int, fill: int, price: int, margin: int): Position {
    var quantity := p.signed + fill;
    var oldAbs, fillAbs := Abs(p.signed), Abs(fill);
    var (average, newMargin) :=
      if p.signed == 0 then (price, margin)
      else if SameDirection(p.signed, fill) then
        (TruncDiv(p.average * oldAbs + price * fillAbs, oldAbs + fillAbs), p.margin + margin)
      else if quantity == 0 then (0, 0)
      else if SameDirection(p.signed, quantity) then (p.average, TruncDiv(p.margin * Abs(quantity), oldAbs))
      else (price, if fillAbs == 0 then 0 else TruncDiv(margin * Abs(quantity), fillAbs));
    Position(quantity, average, newMargin, if p.leverage == 0 || p.signed == 0 then leverage else p.leverage)
  }

  /** The profit a fill realizes on the part of the position it closes. */
  function RealizedPnl(p: Position, fill: int, price: int): int {
    if p.signed == 0 || SameDirection(p.signed, fill) then 0
    else
      var closed := Min(Abs(p.signed), Abs(fill));
      if p.signed > 0 then (price - p.average) * closed else (p.average - price) * closed
  }

  function Unrealized(p: Position, mark: int): int {
    (mark - p.average) * p.signed
  }

  /** What the averaging of entry prices rounds away. */
  function Rounding(p: Position, leverage: int, fill: int, price: int, margin: int): int {
    if p.signed != 0 && SameDirection(p.signed, fill) then
      p.average * p.signed + price * fill
      - ApplyFill(p, leverage, fill, price, margin).average * (p.signed + fill)
    else 0
  }

  /**
    Value conservation, whatever the mark: realized profit plus the change in unrealized profit is the mark-to-market
    value of the fill, up to a rounding term that occurs only when a position grows and is smaller in size than the
    grown position.
   */
  lemma ValueConserved(p: Position, leverage: int, fill: int, price: int, margin: int, mark: int)
    ensures var p' := ApplyFill(p, leverage, fill, price, margin);
            RealizedPnl(p, fill, price) + Unrealized(p', mark) - Unrealized(p, mark)
            == (mark - price) * fill + Rounding(p, leverage, fill, price, margin)
    ensures var r := Rounding(p, leverage, fill, price, margin);
            r != 0 ==> p.signed != 0 && SameDirection(p.signed, fill) && Abs(r) < Abs(p.signed + fill)
  {
    var p' := ApplyFill(p, leverage, fill, price, margin);
    var q, a := p.signed, p.average;
    if q == 0 {
      assert Unrealized(p, mark) == 0;
    } else if SameDirection(q, fill) {
      AddRounding(a, q, price, fill, p'.average);
      Expand(mark, p'.average, q + fill);
      Expand(mark, a, q);
      Expand(mark, price, fill);
      assert mark * (q + fill) == mark * q + mark * fill;
    } else if q + fill == 0 {
      assert fill == -q;
      CloseValue(mark, a, price, q);
    } else if SameDirection(q, q + fill) {
      ReduceValue(mark, a, price, q, fill);
    } else {
      FlipValue(mark, a, price, q, fill);
    }
  }

  lemma Expand(m: int, a: int, q: int)
    ensures (m - a) * q == m * q - a * q
  {
  }

  lemma AddRounding(a: int, q: int, price: int, fill: int, average: int)
    requires SameDirection(q, fill)
    requires average == TruncDiv(a * Abs(q) + price * Abs(fill), Abs(q) + Abs(fill))
    ensures Abs(a * q + price * fill - average * (q + fill)) < Abs(q + fill)
  {
    hide TruncDiv;
    var n, d := a * Abs(q) + price * Abs(fill), Abs(q) + Abs(fill);
    TruncDivLaw(n, d);
    if q < 0 {
      Negated(a, q);
      Negated(price, fill);
      Negated(average, q + fill);
    }
  }

  lemma Negated(a: int, q: int)
    ensures a * (-q) == -(a * q)
  {
  }

  lemma CloseValue(m: int, a: int, x: int, q: int)
    ensures (x - a) * q - (m - a) * q == (m - x) * (-q)
    ensures (a - x) * (-q) == (x - a) * q
  {
    Expand(x, a, q);
    Expand(m, a, q);
    Expand(m, x, -q);
    Expand(a, x, -q);
  }

  lemma ReduceValue(m: int, a: int, x: int, q: int, fill: int)
    ensures (x - a) * (-fill) + (m - a) * (q + fill) - (m - a) * q == (m - x) * fill
    ensures (a - x) * fill == (x - a) * (-fill)
  {
    assert (m - a) * (q + fill) == (m - a) * q + (m - a) * fill;
    Expand(x, a, -fill);
    Expand(m, a, fill);
    Expand(m, x, fill);
    Expand(a, x, fill);
  }

  lemma FlipValue(m: int, a: int, x: int, q: int, fill: int)
    ensures (x - a) * q + (m - x) * (q + fill) - (m - a) * q == (m - x) * fill
    ensures (a - x) * (-q) == (x - a) * q
  {
    assert (m - x) * (q + fill) == (m - x) * q + (m - x) * fill;
    CloseValue(m, a, x, q);
    assert (m - x) * (-q) == -((m - x) * q);
  }

  /** The two sides of a trade gain nothing between them but the rounding of whichever positions grow. */
  lemma TradeConserves(a: Position, b: Position, la: int, lb: int, fill: int, price: int, ma: int, mb: int, mark: int)
    ensures var a', b' := ApplyFill(a, la, fill, price, ma), ApplyFill(b, lb, -fill, price, mb);
            var ra, rb := Rounding(a, la, fill, price, ma), Rounding(b, lb, -fill, price, mb);
            && (RealizedPnl(a, fill, price) + Unrealized(a', mark) - Unrealized(a, mark))
               + (RealizedPnl(b, -fill, price) + Unrealized(b', mark) - Unrealized(b, mark)) == ra + rb
            && (ra != 0 ==> Abs(ra) < Abs(a'.signed)) && (rb != 0 ==> Abs(rb) < Abs(b'.signed))
  {
    ValueConserved(a, la, fill, price, ma, mark);
    ValueConserved(b, lb, -fill, price, mb, mark);
    assert (mark - price) * (-fill) == -((mark - price) * fill);
  }

  // ---------- Risk ----------

  function MaintenanceMargin(signed: int, price: int): int {
    TruncDiv(Abs(signed) * price, 20)
  }

  function MarginRatio(equity: int, maintenance: int): int {
    if maintenance == 0 then 0 else TruncDiv(equity * 10_000, maintenance)
  }

  function StatusFor(signed: int, equity: int, maintenance: int): RiskStatus {
    if signed == 0 then Flat else if equity <= maintenance then Liquidatable else Healthy
  }

  /** The part of equity that is neither margin nor unrealized profit: what funding has paid in or out. */
  function Adjustment(r: Risk): int {
    r.equity - (r.margin + r.unrealized)
  }

  /** The risk of a position at a mark, with an adjustment carried over. */
  function RiskOf(p: Position, mark: int, adjustment: int): Risk {
    var unrealized, maintenance := Unrealized(p, mark), MaintenanceMargin(p.signed, mark);
    var equity := p.margin + unrealized + adjustment;
    Risk(StatusFor(p.signed, equity, maintenance), p.signed, p.average, mark, p.margin, unrealized, equity, maintenance,
         MarginRatio(equity, maintenance), p.leverage)
  }

  /** A risk entry agrees with its position, and its status with its equity and maintenance margin. */
  ghost predicate RiskAgrees(p: Position, r: Risk) {
    && r.signed == p.signed && r.average == p.average && r.margin == p.margin && r.leverage == p.leverage
    && r.unrealized == Unrealized(p, r.mark)
    && r.maintenance == MaintenanceMargin(p.signed, r.mark)
    && r.ratio == MarginRatio(r.equity, r.maintenance)
    && r.status == StatusFor(r.signed, r.equity, r.maintenance)
  }
}
