/** Resting orders and their price levels: intrusive doubly linked FIFO queues. */
module PriceLevels {
  import opened Types
  import opened BookSpec
  import opened Queues

  class Order {
    const orderId: nat
    const clientOrderId: nat
    const userId: nat
    const symbolId: nat
    const side: Side
    const price: int
    const original: nat
    const sequenceAccepted: nat
    var remaining: nat
    var previousOrder: Order?
    var nextOrder: Order?
    var priceLevel: PriceLevel?

    constructor (s: OrderSnapshot)
      ensures Snapshot() == s
      ensures previousOrder == null && nextOrder == null && priceLevel == null
    {
      orderId, clientOrderId, userId, symbolId := s.orderId, s.clientOrderId, s.userId, s.symbolId;
      side, price, original, sequenceAccepted := s.side, s.price, s.original, s.sequenceAccepted;
      remaining, previousOrder, nextOrder, priceLevel := s.remaining, null, null, null;
    }

    function Snapshot(): OrderSnapshot
      reads this`remaining
    {
      OrderSnapshot(orderId, clientOrderId, userId, symbolId, side, price, original, remaining, sequenceAccepted)
    }
  }

  class PriceLevel {
    const price: int
    var totalQuantity: nat
    var head: Order?
    var tail: Order?
    var orderCount: nat
    ghost var queue: seq<Order>  // the orders, front to back
    ghost var values: Queue      // and their values

    constructor (price: int)
      ensures this.price == price && totalQuantity == 0 && orderCount == 0
      ensures head == null && tail == null && queue == [] && values == []
      ensures Linked()
    {
      this.price, totalQuantity, head, tail, orderCount, queue, values := price, 0, null, null, 0, [], [];
    }

    function Empty(): bool
      reads this
    {
      head == null
    }

    /** The links spell out `queue`, front to back, and the level owns every order in it. */
    ghost predicate Chained()
      reads this`queue, this`head, this`tail, queue`priceLevel, queue`nextOrder, queue`previousOrder
    {
      && (forall i :: 0 <= i < |queue| ==> queue[i].priceLevel == this)
      && (forall i, j :: 0 <= i < j < |queue| ==> queue[i] != queue[j])
      && (queue == [] ==> head == null && tail == null)
      && (queue != [] ==> head == queue[0] && queue[0].previousOrder == null)
      && (queue != [] ==> tail == queue[|queue| - 1] && queue[|queue| - 1].nextOrder == null)
      && (forall i :: 0 <= i < |queue| - 1 ==> queue[i].nextOrder == queue[i + 1])
      && (forall i :: 0 < i < |queue| ==> queue[i].previousOrder == queue[i - 1])
    }

    /** `values` are the orders' values, and the cached count and total are theirs. */
    ghost predicate TalliedOver(orders: seq<Order>)
      reads this`values, this`orderCount, this`totalQuantity, orders`remaining
    {
      && |values| == |orders| == orderCount
      && (forall i :: 0 <= i < |orders| ==> values[i] == orders[i].Snapshot() && orders[i].price == price)
      && totalQuantity == Lots(values)
    }

    ghost predicate Tallied()
      reads this`queue, this`values, this`orderCount, this`totalQuantity, queue`remaining
    {
      TalliedOver(queue)
    }

    ghost predicate Linked()
      reads this, queue
    {
      Chained() && Tallied()
    }

    /** The ends of the chain are orders of the queue. */
    lemma Ends()
      requires Linked()
      ensures tail != null <==> queue != []
      ensures tail != null ==> tail == queue[|queue| - 1] && tail in queue
      ensures head == if queue == [] then null else queue[0]
      ensures |values| == |queue|
    {
    }

    method IncreaseTotal(quantity: nat)
      modifies this`totalQuantity
      ensures totalQuantity == old(totalQuantity) + quantity
    {
      totalQuantity := totalQuantity + quantity;
    }

    /** Saturates at zero. */
    method DecreaseTotal(quantity: nat)
      modifies this`totalQuantity
      ensures totalQuantity == Max(old(totalQuantity) - quantity, 0)
    {
      if quantity >= totalQuantity {
        totalQuantity := 0;
        return;
      }
      totalQuantity := totalQuantity - quantity;
    }

    /** The front order gives up lots, and the level's total with it. */
    method ReduceFront(order: Order, fill: nat)
      requires Linked()
      requires queue != [] && order == queue[0] && fill <= order.remaining
      modifies order`remaining, this`totalQuantity, this`values
      ensures Linked() && order.remaining == old(order.remaining) - fill
      ensures values == [order.Snapshot()] + old(values)[1..]
      ensures totalQuantity == old(totalQuantity) - fill
    {
      hide Chained, Lots;
      DistinctOrders();
      FrontReplaced(values, order.Snapshot().(remaining := order.remaining - fill));
      order.remaining := order.remaining - fill;
      DecreaseTotal(fill);
      values := [order.Snapshot()] + values[1..];
    }

    lemma DistinctOrders()
      requires Chained()
      ensures forall i, j :: 0 <= i < j < |queue| ==> queue[i] != queue[j]
    {
    }

    /** The link surgery of an append. */
    method LinkBack(order: Order)
      requires Chained() && order !in queue
      modifies this`head, this`tail, this`queue, order`nextOrder, order`previousOrder, order`priceLevel,
               (if tail != null then {tail} else {})`nextOrder
      ensures Chained()
      ensures queue == old(queue) + [order]
    {
      order.nextOrder := null;
      order.previousOrder := tail;
      order.priceLevel := this;
      if tail != null {
        tail.nextOrder := order;
      } else {
        head := order;
      }
      tail := order;
      queue := queue + [order];
      assert forall i :: 0 <= i < |queue| - 1 ==> queue[i] == old(queue)[i] && queue[i] != order;
    }

    method PushBack(order: Order)
      requires Linked()
      requires order !in queue && order.price == price
      modifies this, order`nextOrder, order`previousOrder, order`priceLevel,
               (if tail != null then {tail} else {})`nextOrder
      ensures Linked()
      ensures queue == old(queue) + [order] && values == old(values) + [order.Snapshot()]
      ensures order.priceLevel == this
    {
      hide Lots, Chained;
      LinkBack(order);
      LotsAppend(values, [order.Snapshot()]);
      OneLots(order.Snapshot());
      values := values + [order.Snapshot()];
      orderCount := orderCount + 1;
      IncreaseTotal(order.remaining);
    }

    /** Lead the neighbours' links, or the ends of the chain, past the k-th order. */
    method Bypass(order: Order, ghost k: nat)
      requires Chained()
      requires k < |queue| && queue[k] == order
      modifies this`head, this`tail, queue`nextOrder, queue`previousOrder
      ensures head == if k == 0 then old(order.nextOrder) else old(head)
      ensures tail == if k == |queue| - 1 then old(order.previousOrder) else old(tail)
      ensures forall i :: 0 <= i < |queue| ==>
                queue[i].nextOrder == if i + 1 == k then old(order.nextOrder) else old(queue[i].nextOrder)
      ensures forall i :: 0 <= i < |queue| ==>
                queue[i].previousOrder == if i == k + 1 then old(order.previousOrder) else old(queue[i].previousOrder)
    {
      assert order.previousOrder == if k > 0 then queue[k - 1] else null;
      assert order.nextOrder == if k + 1 < |queue| then queue[k + 1] else null;
      if order.previousOrder != null {
        order.previousOrder.nextOrder := order.nextOrder;
      } else {
        head := order.nextOrder;
      }
      if order.nextOrder != null {
        order.nextOrder.previousOrder := order.previousOrder;
      } else {
        tail := order.previousOrder;
      }
    }

    /** The link surgery of a removal. */
    method UnlinkAt(order: Order, ghost k: nat)
      requires Chained()
      requires k < |queue| && queue[k] == order
      modifies this`head, this`tail, this`queue, queue`nextOrder, queue`previousOrder
      ensures Chained()
      ensures queue == old(queue)[..k] + old(queue)[k + 1..]
      ensures forall o :: o in queue <==> o in old(queue) && o != order
    {
      Bypass(order, k);
      queue := queue[..k] + queue[k + 1..];
      assert forall i :: 0 <= i < |queue| ==> queue[i] == old(queue)[if i < k then i else i + 1];
      CutMembers(old(queue), k);
    }

    /** Give up the lots of the k-th of the orders `was`, which the queue no longer holds. */
    method UntallyAt(ghost was: seq<Order>, ghost k: nat, lots: nat)
      requires TalliedOver(was) && k < |was| && queue == was[..k] + was[k + 1..] && lots == was[k].remaining
      modifies this`values, this`totalQuantity, this`orderCount
      ensures |old(values)| == |was| && Tallied() && values == old(values)[..k] + old(values)[k + 1..]
    {
      hide Lots;
      CutLots(values, k);
      values := values[..k] + values[k + 1..];
      DecreaseTotal(lots);
      if orderCount > 0 {
        orderCount := orderCount - 1;
      }
      forall i | 0 <= i < |queue| ensures values[i] == queue[i].Snapshot() && queue[i].price == price {
        assert queue[i] == was[if i < k then i else i + 1];
      }
    }

    lemma TalliedLength()
      requires Tallied()
      ensures |values| == |queue|
    {
    }

    /** Take the k-th order out: unlink it, give its lots back, detach it. */
    method Remove(order: Order, ghost k: nat)
      requires Linked()
      requires k < |queue| && queue[k] == order
      modifies this, queue`nextOrder, queue`previousOrder, order`priceLevel
      ensures Linked()
      ensures queue == old(queue)[..k] + old(queue)[k + 1..]
      ensures values == old(values)[..k] + old(values)[k + 1..]
      ensures forall o :: o in queue <==> o in old(queue) && o != order
      ensures order.priceLevel == null && order.previousOrder == null && order.nextOrder == null
    {
      hide Chained, TalliedOver;
      ghost var was := queue;
      TalliedLength();
      UnlinkAt(order, k);
      assert order !in queue;
      UntallyAt(was, k, order.remaining);
      order.nextOrder, order.previousOrder, order.priceLevel := null, null, null;
    }
  }

  lemma CutMembers(q: seq<Order>, k: nat)
    requires k < |q| && forall i, j :: 0 <= i < j < |q| ==> q[i] != q[j]
    ensures forall o: Order :: o in q[..k] + q[k + 1..] <==> o in q && o != q[k]
  {
    assert q == q[..k] + [q[k]] + q[k + 1..];
  }

  lemma OneLots(v: OrderSnapshot)
    ensures Lots([v]) == v.remaining
  {
    assert [v][1..] == [];
  }

  /** A front order of other size changes the total by the difference. */
  lemma FrontReplaced(q: Queue, v: OrderSnapshot)
    requires q != []
    ensures Lots([v] + q[1..]) == Lots(q) - q[0].remaining + v.remaining && q[0].remaining <= Lots(q)
  {
    assert ([v] + q[1..])[1..] == q[1..];
  }

  lemma {:induction false} CutLots(q: Queue, k: nat)
    requires k < |q|
    ensures Lots(q) == q[k].remaining + Lots(q[..k] + q[k + 1..])
  {
    if k == 0 {
      assert q[..0] + q[1..] == q[1..];
    } else {
      CutLots(q[1..], k - 1);
      assert (q[..k] + q[k + 1..])[1..] == q[1..][..k - 1] + q[1..][k..];
    }
  }
}
