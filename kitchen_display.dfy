/**
 * The kitchen screen (frontend/src/pages/KitchenDisplay.tsx): the orders
 * the kitchen works on, the count in the header, the loading and empty
 * states, and the one button per order that marks it ready.
 */
module KitchenDisplay {
  import opened MenuTypes
  import Seqs
  import Strings
  import OrderContext

  /** An order needs the kitchen while it is accepted or preparing. */
  predicate NeedsKitchen(o: Order) {
    o.status == Accepted || o.status == Preparing
  }

  /** `kitchenOrders`, in the store's order. */
  function KitchenOrders(orders: seq<Order>): (r: seq<Order>)
    ensures forall o :: o in r <==> o in orders && (o.status == Accepted || o.status == Preparing)
  {
    Seqs.Filter(orders, NeedsKitchen)
  }

  /** The cards keep the store's order: listing a concatenation lists each part in turn, and one order is listed exactly when it needs the kitchen. */
  lemma KitchenOrdersKeepOrder(a: seq<Order>, b: seq<Order>, o: Order)
    ensures KitchenOrders(a + b) == KitchenOrders(a) + KitchenOrders(b)
    ensures KitchenOrders([o]) == if o.status == Accepted || o.status == Preparing then [o] else []
  {
    Seqs.FilterConcat(a, b, NeedsKitchen);
  }

  /** Mark Prepared always asks for this status, whatever the order's current one. */
  const MarkPreparedStatus: OrderStatus := Ready

  /** `handleMarkPrepared`. */
  method HandleMarkPrepared(store: OrderContext.OrderStore, orderId: string, fails: bool)
    modifies store
    ensures store.orderRows == if fails then old(store.orderRows) else OrderContext.SetStatus(old(store.orderRows), orderId, Ready)
    ensures store.itemRows == old(store.itemRows) && store.modifierRows == old(store.modifierRows)
    ensures store.orders == old(store.orders) && store.currentOrder == old(store.currentOrder)
    ensures store.isLoading == old(store.isLoading)
  {
    store.UpdateOrderStatus(orderId, MarkPreparedStatus, fails);
  }

  /** The "All Caught Up!" view: shown when not loading and there is nothing to prepare. */
  predicate ShowsEmptyState(isLoading: bool, orders: seq<Order>) {
    !isLoading && |KitchenOrders(orders)| == 0
  }

  /** The empty view exactly when loading is over and no order is accepted or preparing. */
  lemma EmptyStateMeaning(isLoading: bool, orders: seq<Order>)
    ensures ShowsEmptyState(isLoading, orders)
        <==> !isLoading && forall o :: o in orders ==> o.status != Accepted && o.status != Preparing
  {
    if !isLoading && KitchenOrders(orders) != [] {
      assert KitchenOrders(orders)[0] in KitchenOrders(orders);
    }
  }

  /** The header count: "`n` active order", with an "s" unless `n` is 1. */
  function CountLabel(n: nat): (r: string)
    ensures Strings.IntToDecimal(n) <= r
    ensures r[|Strings.IntToDecimal(n)|..] == if n == 1 then " active order" else " active orders"
  {
    Strings.IntToDecimal(n) + " active order" + (if n != 1 then "s" else "")
  }

  /** The label is plural exactly when the count is not one. */
  lemma CountLabelPlural(n: nat)
    ensures var l := CountLabel(n); l[|l| - 1] == 's' <==> n != 1
    ensures n == 1 ==> CountLabel(n) == "1 active order"
  {
    var l := CountLabel(n);
    if n == 1 {
      assert Strings.IntToDecimal(1) == "1";
      assert l[|l| - 1] == 'r';
    }
  }
}
