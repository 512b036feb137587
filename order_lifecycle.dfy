/**
 * The order status state machine, assembled from the three places that
 * define it: the status order of the progress view
 * (frontend/src/components/customer/OrderStatusTracker.tsx), the dashboard's
 * next-action table (frontend/src/components/dashboard/OrderCard.tsx) and
 * the kitchen's shortcut (frontend/src/pages/KitchenDisplay.tsx). Writes
 * to the store are not checked against it (OrderContext.StatusWriteUnguarded).
 */
module OrderLifecycle {
  import opened Wrappers
  import opened MenuTypes
  import OrderCard
  import OrderStatusTracker
  import KitchenDisplay

  /** The successor in the status order, `None` for the last status. */
  function Next(s: OrderStatus): (r: Option<OrderStatus>)
    ensures r.None? <==> s == Served
    ensures r.Some? ==> OrderStatusTracker.CurrentIndex(r.value) == OrderStatusTracker.CurrentIndex(s) + 1
  {
    OrderStatusTracker.CurrentIndexFound(s);
    var i := OrderStatusTracker.CurrentIndex(s);
    if 0 <= i && i + 1 < |OrderStatusTracker.StatusOrder| then
      OrderStatusTracker.CurrentIndexFound(OrderStatusTracker.StatusOrder[i + 1]);
      Some(OrderStatusTracker.StatusOrder[i + 1])
    else None
  }

  /**
   * The dashboard's table offers exactly the successor: its next status sits
   * one place further in the status order, and only a served order has none.
   */
  lemma DashboardActionIsSuccessor(s: OrderStatus)
    ensures OrderCard.ActionFor(s).None? <==> s == Served
    ensures OrderCard.ActionFor(s).None? <==> Next(s).None?
    ensures OrderCard.ActionFor(s).Some? ==>
      && Some(OrderCard.ActionFor(s).value.next) == Next(s)
      && OrderStatusTracker.CurrentIndex(OrderCard.ActionFor(s).value.next) == OrderStatusTracker.CurrentIndex(s) + 1
  {
    OrderStatusTracker.CurrentIndexFound(s);
    if OrderCard.ActionFor(s).Some? {
      OrderStatusTracker.CurrentIndexFound(OrderCard.ActionFor(s).value.next);
    }
  }

  /** The card's button asks for the successor of the order's status and for that order. */
  lemma ButtonRequestsSuccessor(order: Order)
    ensures OrderCard.ActionRequest(order).Some? <==> Next(order.status).Some?
    ensures OrderCard.ActionRequest(order).Some? ==>
      OrderCard.ActionRequest(order).value == OrderCard.StatusRequest(order.id, Next(order.status).value)
  {
    DashboardActionIsSuccessor(order.status);
  }

  /** Mark Prepared is the successor from `preparing` but skips `preparing` from `accepted`. */
  lemma KitchenSkipsPreparing()
    ensures Next(Preparing) == Some(KitchenDisplay.MarkPreparedStatus)
    ensures Next(Accepted) != Some(KitchenDisplay.MarkPreparedStatus)
    ensures OrderStatusTracker.CurrentIndex(KitchenDisplay.MarkPreparedStatus)
         == OrderStatusTracker.CurrentIndex(Accepted) + 2
  {
    OrderStatusTracker.CurrentIndexFound(Accepted);
    OrderStatusTracker.CurrentIndexFound(Preparing);
    OrderStatusTracker.CurrentIndexFound(Ready);
  }

  /** The status after pressing the dashboard button `n` times (nothing happens once served). */
  function Advance(s: OrderStatus, n: nat): OrderStatus
    decreases n
  {
    if n == 0 then s
    else match OrderCard.ActionFor(s)
      case None => s
      case Some(a) => Advance(a.next, n - 1)
  }

  /** Each press moves one place along the status order until served. */
  lemma {:induction false} AdvanceIndex(s: OrderStatus, n: nat)
    ensures var i := OrderStatusTracker.CurrentIndex(s) + n;
      OrderStatusTracker.CurrentIndex(Advance(s, n)) == if i < 4 then i else 4
    decreases n
  {
    OrderStatusTracker.CurrentIndexFound(s);
    if n > 0 {
      DashboardActionIsSuccessor(s);
      if OrderCard.ActionFor(s).Some? {
        AdvanceIndex(OrderCard.ActionFor(s).value.next, n - 1);
      }
    }
  }

  /** Four presses take a new order to served, completing every step of the progress view. */
  lemma FourPressesServe()
    ensures Advance(Pending, 4) == Served
    ensures OrderStatusTracker.CompletedCount(Advance(Pending, 4), OrderStatusTracker.StatusSteps) == 4
  {
    var t := Advance(Pending, 4);
    OrderStatusTracker.CurrentIndexFound(Pending);
    AdvanceIndex(Pending, 4);
    OrderStatusTracker.CurrentIndexFound(t);
    OrderStatusTracker.CompletedCountIsIndex(t);
  }
}
