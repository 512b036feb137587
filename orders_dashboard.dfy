/**
 * The staff order board (frontend/src/pages/OrdersDashboard.tsx): four
 * columns filtered from the store's order list by status, the served column
 * cut to its first five cards, and status changes forwarded to the store.
 */
module OrdersDashboard {
  import opened MenuTypes
  import Seqs
  import OrderContext

  datatype Column = PendingColumn | PreparingColumn | ReadyColumn | ServedColumn

  /** The reference assignment of a status to the column that shows it. */
  function ColumnOf(s: OrderStatus): Column {
    match s
    case Pending => PendingColumn
    case Accepted => PreparingColumn
    case Preparing => PreparingColumn
    case Ready => ReadyColumn
    case Served => ServedColumn
  }

  predicate IsPending(o: Order) { o.status == Pending }
  predicate IsInPreparation(o: Order) { o.status == Accepted || o.status == Preparing }
  predicate IsReady(o: Order) { o.status == Ready }
  predicate IsServed(o: Order) { o.status == Served }

  /** The filter a column applies. */
  function InColumn(c: Column): Order -> bool {
    match c
    case PendingColumn => IsPending
    case PreparingColumn => IsInPreparation
    case ReadyColumn => IsReady
    case ServedColumn => IsServed
  }

  /** The orders a column lists (before the served column's cut). */
  function ColumnOrders(orders: seq<Order>, c: Column): seq<Order> {
    Seqs.Filter(orders, InColumn(c))
  }

  /** Each column's filter selects exactly the orders whose status belongs to it. */
  lemma FilterMatchesColumn(o: Order, c: Column)
    ensures InColumn(c)(o) <==> ColumnOf(o.status) == c
  {
  }

  /** The columns partition the orders: every order is listed in exactly one column, its own. */
  lemma ColumnsPartition(orders: seq<Order>, o: Order, c: Column)
    requires o in orders
    ensures o in ColumnOrders(orders, c) <==> ColumnOf(o.status) == c
  {
    FilterMatchesColumn(o, c);
  }

  /** The column sizes add up to the number of orders. */
  lemma {:induction false} ColumnSizes(orders: seq<Order>)
    ensures |ColumnOrders(orders, PendingColumn)| + |ColumnOrders(orders, PreparingColumn)|
          + |ColumnOrders(orders, ReadyColumn)| + |ColumnOrders(orders, ServedColumn)| == |orders|
  {
    if orders != [] {
      ColumnSizes(orders[1..]);
    }
  }

  /** Each column keeps the store's order: listing a concatenation lists each part in turn. */
  lemma ColumnsKeepOrder(a: seq<Order>, b: seq<Order>, c: Column)
    ensures ColumnOrders(a + b, c) == ColumnOrders(a, c) + ColumnOrders(b, c)
  {
    Seqs.FilterConcat(a, b, InColumn(c));
  }

  /** `servedOrders.slice(0, 5)`: the served cards drawn. */
  function ServedShown(orders: seq<Order>): (r: seq<Order>)
    ensures |r| <= 5
    ensures r <= ColumnOrders(orders, ServedColumn)
    ensures |r| == 5 || r == ColumnOrders(orders, ServedColumn)
  {
    var served := ColumnOrders(orders, ServedColumn);
    served[..Seqs.TakeLength(served, 5)]
  }

  /** `handleStatusChange`: the request goes to the store unchanged. */
  method HandleStatusChange(store: OrderContext.OrderStore, orderId: string, status: OrderStatus, fails: bool)
    modifies store
    ensures store.orderRows == if fails then old(store.orderRows) else OrderContext.SetStatus(old(store.orderRows), orderId, status)
    ensures store.itemRows == old(store.itemRows) && store.modifierRows == old(store.modifierRows)
    ensures store.orders == old(store.orders) && store.currentOrder == old(store.currentOrder)
    ensures store.isLoading == old(store.isLoading)
  {
    store.UpdateOrderStatus(orderId, status, fails);
  }
}
