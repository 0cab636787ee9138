/**
 * The order manager (execution/order_manager.py): orders kept by id, a
 * kill switch per market, a manual-approval toggle and the order
 * lifecycle of creation, submission and cancellation.
 */
module OrderManager {
  import opened Common

  datatype OrderStatus = Pending | Submitted | Partial | Filled | Cancelled | Rejected

  datatype OrderType = MarketOrder | LimitOrder

  /** An order; times are seconds, and `createdAt` is the clock reading at creation. */
  datatype Order = Order(
    orderId: string,
    marketId: string,
    side: string,
    size: int,
    orderType: OrderType,
    limitPrice: Option<real>,
    status: OrderStatus,
    filledSize: int,
    avgFillPrice: Option<real>,
    createdAt: int,
    updatedAt: Option<int>)

  /** A freshly built order: pending, nothing filled, never updated. */
  function NewOrder(orderId: string, marketId: string, side: string, size: int, orderType: OrderType,
                    limitPrice: Option<real>, now: int): (o: Order)
    ensures o.orderId == orderId && o.marketId == marketId && o.side == side && o.size == size
    ensures o.orderType == orderType && o.limitPrice == limitPrice && o.createdAt == now
    ensures o.status == Pending && o.filledSize == 0 && o.avgFillPrice.None? && o.updatedAt.None?
  {
    Order(orderId, marketId, side, size, orderType, limitPrice, Pending, 0, None, now, None)
  }

  /** The statuses `get_open_orders` reports. */
  predicate IsOpen(o: Order)
  {
    o.status == Pending || o.status == Submitted || o.status == Partial
  }

  /** `cancel_order` refuses only filled and already cancelled orders. */
  predicate Cancellable(o: Order)
  {
    o.status != Filled && o.status != Cancelled
  }

  /** An order after `cancel_order` has accepted it at time `now`. */
  function CancelledAt(o: Order, now: int): (r: Order)
    ensures r.status == Cancelled && !Cancellable(r) && !IsOpen(r) && r.updatedAt == Some(now)
    ensures r.(status := o.status, updatedAt := o.updatedAt) == o
  {
    o.(status := Cancelled, updatedAt := Some(now))
  }

  /**
   * What the kill switch for `marketId` does to one order: a pending order
   * of that market is cancelled, every other order is left alone.
   */
  function KillSwitched(o: Order, marketId: string, now: int): (r: Order)
    ensures r.marketId == o.marketId && r.orderId == o.orderId
    ensures r.marketId == marketId ==> r.status != Pending
    ensures r != o <==> o.marketId == marketId && o.status == Pending
  {
    if o.marketId == marketId && o.status == Pending then CancelledAt(o, now) else o
  }

  /** The result of `create_order`: the new order, or the error a kill switch raises. */
  datatype Creation = KillSwitchActive | Created(order: Order)

  /** The result of `submit_order`: an unknown id raises, manual approval answers false, and otherwise it raises after marking the order submitted. */
  datatype Submission = OrderNotFound | NeedsApproval | NotImplemented

  /**
   * `OrderManager`: the orders by id (`ids` is the dictionary's insertion
   * order), the markets whose kill switch is on, and whether orders are
   * sent without manual approval. The API client is not part of this model.
   */
  class OrderManager {
    const autoExecute: bool
    var orders: map<string, Order>
    var ids: seq<string>
    var killSwitches: set<string>

    /** Every order is stored under its own id, and `ids` lists each id once. */
    ghost predicate Valid()
      reads this
    {
      NoDuplicates(ids) && (forall k :: k in orders <==> k in ids) &&
      (forall k :: k in orders ==> orders[k].orderId == k)
    }

    /** `__init__`: no orders and no kill switch. */
    constructor(autoExecute: bool)
      ensures Valid()
      ensures this.autoExecute == autoExecute && orders == map[] && ids == [] && killSwitches == {}
    {
      this.autoExecute := autoExecute;
      orders := map[];
      ids := [];
      killSwitches := {};
    }

    /**
     * `create_order`: refused while the market's kill switch is on;
     * otherwise a pending order is stored under `orderId`, which the source
     * derives from the clock. An id already in use is overwritten in place.
     */
    method CreateOrder(marketId: string, side: string, size: int, orderType: OrderType, limitPrice: Option<real>,
                       orderId: string, now: int)
      returns (r: Creation)
      requires Valid()
      modifies this
      ensures Valid() && killSwitches == old(killSwitches)
      ensures marketId in killSwitches ==> r == KillSwitchActive && orders == old(orders) && ids == old(ids)
      ensures marketId !in killSwitches ==>
                r == Created(NewOrder(orderId, marketId, side, size, orderType, limitPrice, now)) &&
                orders == old(orders)[orderId := r.order] &&
                ids == old(ids) + (if orderId in old(orders) then [] else [orderId])
    {
      if marketId in killSwitches {
        return KillSwitchActive;
      }
      var order := NewOrder(orderId, marketId, side, size, orderType, limitPrice, now);
      if orderId !in orders {
        ids := ids + [orderId];
      }
      orders := orders[orderId := order];
      r := Created(order);
    }

    /**
     * `submit_order`: an unknown id raises; without auto-execution nothing
     * changes and the answer is false; otherwise the order is marked
     * submitted and the call raises, since submission is not implemented.
     */
    method SubmitOrder(orderId: string, now: int) returns (r: Submission)
      requires Valid()
      modifies this
      ensures Valid() && ids == old(ids) && killSwitches == old(killSwitches)
      ensures orderId !in old(orders) ==> r == OrderNotFound && orders == old(orders)
      ensures orderId in old(orders) && !autoExecute ==> r == NeedsApproval && orders == old(orders)
      ensures orderId in old(orders) && autoExecute ==>
                r == NotImplemented &&
                orders == old(orders)[orderId := old(orders)[orderId].(status := Submitted, updatedAt := Some(now))]
    {
      if orderId !in orders {
        return OrderNotFound;
      }
      if !autoExecute {
        return NeedsApproval;
      }
      orders := orders[orderId := orders[orderId].(status := Submitted, updatedAt := Some(now))];
      r := NotImplemented;
    }

    /**
     * `cancel_order`: false for an unknown, filled or cancelled order;
     * otherwise the order becomes cancelled and the answer is true.
     */
    method CancelOrder(orderId: string, now: int) returns (ok: bool)
      requires Valid()
      modifies this
      ensures Valid() && ids == old(ids) && killSwitches == old(killSwitches)
      ensures ok <==> orderId in old(orders) && Cancellable(old(orders)[orderId])
      ensures ok ==> orders == old(orders)[orderId := CancelledAt(old(orders)[orderId], now)]
      ensures !ok ==> orders == old(orders)
    {
      if orderId !in orders {
        return false;
      }
      var order := orders[orderId];
      if order.status == Filled || order.status == Cancelled {
        return false;
      }
      orders := orders[orderId := CancelledAt(order, now)];
      ok := true;
    }

    /** The body of the kill-switch loop: the order under `orderId` is cancelled if it is a pending order of the market. */
    method CancelIfPending(orderId: string, marketId: string, now: int)
      requires Valid() && orderId in orders
      modifies this
      ensures Valid() && ids == old(ids) && killSwitches == old(killSwitches)
      ensures orders == old(orders)[orderId := KillSwitched(old(orders)[orderId], marketId, now)]
    {
      var order := orders[orderId];
      if order.marketId == marketId && order.status == Pending {
        var _ := CancelOrder(order.orderId, now);
      }
    }

    /**
     * `activate_kill_switch`: the market's switch goes on and each of its
     * pending orders is cancelled; every other order is unchanged.
     */
    method ActivateKillSwitch(marketId: string, now: int)
      requires Valid()
      modifies this
      ensures Valid() && ids == old(ids)
      ensures killSwitches == old(killSwitches) + {marketId}
      ensures orders.Keys == old(orders).Keys
      ensures forall k :: k in orders ==> orders[k] == KillSwitched(old(orders)[k], marketId, now)
    {
      killSwitches := killSwitches + {marketId};
      for i := 0 to |ids|
        invariant Valid() && ids == old(ids)
        invariant killSwitches == old(killSwitches) + {marketId}
        invariant forall j :: 0 <= j < |ids| ==>
                    orders[ids[j]] == if j < i then KillSwitched(old(orders)[ids[j]], marketId, now) else old(orders)[ids[j]]
      {
        ghost var before := orders;
        CancelIfPending(ids[i], marketId, now);
        KillSwitchStep(ids, old(orders), before, orders, i, marketId, now);
      }
      forall k | k in orders
        ensures orders[k] == KillSwitched(old(orders)[k], marketId, now)
      {
        var j :| 0 <= j < |ids| && ids[j] == k;
      }
    }

    /** `deactivate_kill_switch`: the market's switch goes off, whether or not it was on. */
    method DeactivateKillSwitch(marketId: string)
      requires Valid()
      modifies this
      ensures Valid() && orders == old(orders) && ids == old(ids)
      ensures killSwitches == old(killSwitches) - {marketId}
    {
      killSwitches := killSwitches - {marketId};
    }

    /** `get_open_orders`: the pending, submitted and partly filled orders, in creation order. */
    function GetOpenOrders(): (r: seq<Order>)
      reads this
      requires Valid()
      ensures |r| <= |ids|
      ensures forall o :: o in r <==> o in orders.Values && IsOpen(o)
    {
      OpenAmong(orders, ids)
    }
  }

  /** One more order of the kill-switch loop handled: the orders before `i + 1` are switched, the rest untouched. */
  lemma KillSwitchStep(ids: seq<string>, initial: map<string, Order>, before: map<string, Order>,
                       after: map<string, Order>, i: int, marketId: string, now: int)
    requires NoDuplicates(ids) && 0 <= i < |ids|
    requires forall j :: 0 <= j < |ids| ==> ids[j] in initial && ids[j] in before
    requires forall j :: 0 <= j < |ids| ==>
               before[ids[j]] == if j < i then KillSwitched(initial[ids[j]], marketId, now) else initial[ids[j]]
    requires after == before[ids[i] := KillSwitched(before[ids[i]], marketId, now)]
    ensures forall j :: 0 <= j < |ids| ==>
              after[ids[j]] == if j < i + 1 then KillSwitched(initial[ids[j]], marketId, now) else initial[ids[j]]
  {
    forall j | 0 <= j < |ids|
      ensures after[ids[j]] == if j < i + 1 then KillSwitched(initial[ids[j]], marketId, now) else initial[ids[j]]
    {
      if j != i {
        assert ids[j] != ids[i];
      }
    }
  }

  /** The open orders among those stored under `keys`, in the order of `keys`. */
  function OpenAmong(orders: map<string, Order>, keys: seq<string>): (r: seq<Order>)
    requires forall k :: k in keys ==> k in orders
    ensures |r| <= |keys|
    ensures forall o :: o in r <==> IsOpen(o) && exists k :: k in keys && orders[k] == o
  {
    if keys == [] then []
    else
      var init := keys[..|keys| - 1];
      var last := keys[|keys| - 1];
      assert forall k :: k in init ==> k in keys;
      OpenAmong(orders, init) + (if IsOpen(orders[last]) then [orders[last]] else [])
  }
}
