/**
 * The order store (frontend/src/contexts/OrderContext.tsx), with the
 * database replaced by in-memory tables: `placeOrder` writes an order row,
 * one item row per cart line and the line's modifier rows, one insert after
 * another with no transaction; `fetchOrders` joins the rows back into
 * orders; `updateOrderStatus` overwrites a row's status.
 *
 * Which database call fails is an explicit input (`Faults`, `fails`
 * flags), standing in for the network and the database's own checks.
 */
module OrderContext {
  import opened Wrappers
  import opened MenuTypes
  import Seqs

  /** A row of `tables`. */
  datatype TableRow = TableRow(id: string, tableNumber: int)

  /** A row of `orders`; `totalAmount` is the only amount stored. */
  datatype OrderRow = OrderRow(id: string, tableId: string, status: OrderStatus, totalAmount: real)

  /** The database id of an inserted order item: the order and the line's position. */
  datatype ItemKey = ItemKey(orderId: string, index: nat)

  /** A row of `order_items`. */
  datatype ItemRow = ItemRow(key: ItemKey, menuItemId: string, quantity: int, itemPrice: real, notes: Option<string>)

  /** A row of `order_item_modifiers`. */
  datatype ModifierRow = ModifierRow(orderItem: ItemKey, optionId: string, priceAdjustment: real)

  /** A row of `menu_items`, as far as the join reads it; `veg` is `dietary_info.isVeg` when present. */
  datatype MenuItemRecord = MenuItemRecord(
    id: string, name: string, description: string, price: real, imageUrl: string,
    categoryId: string, isAvailable: bool, veg: Option<bool>)

  /** A row of `modifier_options`. */
  datatype OptionRecord = OptionRecord(id: string, name: string, priceAdjustment: real)

  /** Which write of one `placeOrder` call the database rejects, if any. */
  datatype Faults = Faults(orderInsertFails: bool, itemInsertFailsAt: Option<nat>, modifierInsertFailsAt: Option<nat>)

  // ---------------------------------------------------------------------------
  // Reading: rows to orders

  /** `tables?.table_number || 0`: the number of the order's table, or 0 when the join finds none. */
  function TableNumberOf(tables: seq<TableRow>, tableId: string): (n: int)
    ensures (forall t :: t in tables ==> t.id != tableId) ==> n == 0
    ensures n != 0 ==> exists t :: t in tables && t.id == tableId && t.tableNumber == n
    ensures |tables| > 0 && tables[0].id == tableId ==> n == tables[0].tableNumber
  {
    if tables == [] then 0
    else if tables[0].id == tableId then tables[0].tableNumber
    else TableNumberOf(tables[1..], tableId)
  }

  /** The join picks the first table row whose id is the order's table id, and its number is the result. */
  lemma {:induction false} TableNumberOfFirstMatch(tables: seq<TableRow>, tableId: string, k: nat)
    requires k < |tables| && tables[k].id == tableId
    requires forall j :: 0 <= j < k ==> tables[j].id != tableId
    ensures TableNumberOf(tables, tableId) == tables[k].tableNumber
  {
    if k > 0 {
      assert tables[0].id != tableId;
      assert tables[1..][k - 1] == tables[k];
      TableNumberOfFirstMatch(tables[1..], tableId, k - 1);
    }
  }

  /** The item rows of one order, in insertion order. */
  function ItemRowsOf(rows: seq<ItemRow>, orderId: string): seq<ItemRow> {
    Seqs.Filter(rows, (r: ItemRow) => r.key.orderId == orderId)
  }

  /** The modifier rows of one order item, in insertion order. */
  function ModifierRowsOfItem(rows: seq<ModifierRow>, key: ItemKey): seq<ModifierRow> {
    Seqs.Filter(rows, (m: ModifierRow) => m.orderItem == key)
  }

  /** Each modifier row's option as an add-on; `None` when an option row is missing (the join yields null and the mapping throws). */
  function AddOnsOf(mods: seq<ModifierRow>, options: map<string, OptionRecord>): (r: Option<seq<AddOn>>)
    ensures r.Some? <==> forall m :: m in mods ==> m.optionId in options
    ensures r.Some? ==> |r.value| == |mods|
    ensures r.Some? ==> forall k :: 0 <= k < |mods| ==>
      var o := options[mods[k].optionId]; r.value[k] == AddOn(o.id, o.name, o.priceAdjustment)
  {
    if mods == [] then Some([])
    else if mods[0].optionId !in options then None
    else
      var o := options[mods[0].optionId];
      match AddOnsOf(mods[1..], options)
      case None => None
      case Some(rest) => Some([AddOn(o.id, o.name, o.priceAdjustment)] + rest)
  }

  /** One item row as a cart line: the menu item as it is now, the stored quantity and notes, the modifier options as add-ons. */
  function LineOf(row: ItemRow, mods: seq<ModifierRow>, catalog: map<string, MenuItemRecord>,
                  options: map<string, OptionRecord>): (r: Option<CartItem>)
    ensures r.Some? ==>
      && row.menuItemId in catalog
      && r.value.menuItem.id == catalog[row.menuItemId].id
      && r.value.menuItem.price == catalog[row.menuItemId].price
      && (r.value.menuItem.isVeg <==> catalog[row.menuItemId].veg == Some(true))
      && r.value.quantity == row.quantity
      && r.value.specialInstructions == row.notes
      && |r.value.selectedAddOns| == |ModifierRowsOfItem(mods, row.key)|
  {
    if row.menuItemId !in catalog then None
    else
      var m := catalog[row.menuItemId];
      match AddOnsOf(ModifierRowsOfItem(mods, row.key), options)
      case None => None
      case Some(addOns) =>
        Some(CartItem(
          MenuItem(m.id, m.name, m.description, m.price, m.imageUrl, m.categoryId, m.veg.GetOr(false), m.isAvailable, None),
          row.quantity, addOns, row.notes))
  }

  /** A row maps to a line exactly when its menu item exists and every one of its modifier rows names an existing option. */
  lemma LineOfDefined(row: ItemRow, mods: seq<ModifierRow>, catalog: map<string, MenuItemRecord>,
                      options: map<string, OptionRecord>)
    ensures LineOf(row, mods, catalog, options).Some? <==>
      row.menuItemId in catalog && forall m :: m in ModifierRowsOfItem(mods, row.key) ==> m.optionId in options
  {
  }

  function LinesOf(rows: seq<ItemRow>, mods: seq<ModifierRow>, catalog: map<string, MenuItemRecord>,
                   options: map<string, OptionRecord>): (r: Option<seq<CartItem>>)
    ensures r.Some? ==> |r.value| == |rows|
    ensures r.Some? ==> forall k :: 0 <= k < |rows| ==> LineOf(rows[k], mods, catalog, options) == Some(r.value[k])
    ensures (forall k :: 0 <= k < |rows| ==> LineOf(rows[k], mods, catalog, options).Some?) ==> r.Some?
  {
    if rows == [] then Some([])
    else match (LineOf(rows[0], mods, catalog, options), LinesOf(rows[1..], mods, catalog, options))
      case (Some(l), Some(rest)) => Some([l] + rest)
      case _ => None
  }

  /** One order row with its items; subtotal and total are both the stored amount and tax is 0. */
  function OrderOf(row: OrderRow, tables: seq<TableRow>, items: seq<ItemRow>, mods: seq<ModifierRow>,
                   catalog: map<string, MenuItemRecord>, options: map<string, OptionRecord>): (r: Option<Order>)
    ensures r.Some? <==> LinesOf(ItemRowsOf(items, row.id), mods, catalog, options).Some?
    ensures r.Some? ==>
      && r.value.id == row.id && r.value.status == row.status
      && r.value.tableNumber == Int(TableNumberOf(tables, row.tableId))
      && r.value.subtotal == row.totalAmount && r.value.total == row.totalAmount && r.value.tax == 0.0
      && r.value.items == LinesOf(ItemRowsOf(items, row.id), mods, catalog, options).value
      && |r.value.items| == |ItemRowsOf(items, row.id)|
  {
    match LinesOf(ItemRowsOf(items, row.id), mods, catalog, options)
    case None => None
    case Some(lines) =>
      Some(Order(row.id, Int(TableNumberOf(tables, row.tableId)), lines, row.status,
                 row.totalAmount, 0.0, row.totalAmount))
  }

  /** The `data.map` of `fetchOrders`: every row mapped, or `None` when any mapping throws. */
  function OrdersOf(rows: seq<OrderRow>, tables: seq<TableRow>, items: seq<ItemRow>, mods: seq<ModifierRow>,
                    catalog: map<string, MenuItemRecord>, options: map<string, OptionRecord>): (r: Option<seq<Order>>)
    ensures r.Some? ==> |r.value| == |rows|
    ensures r.Some? ==> forall k :: 0 <= k < |rows| ==> OrderOf(rows[k], tables, items, mods, catalog, options) == Some(r.value[k])
    ensures r.None? ==> exists k :: 0 <= k < |rows| && OrderOf(rows[k], tables, items, mods, catalog, options).None?
  {
    if rows == [] then Some([])
    else match (OrderOf(rows[0], tables, items, mods, catalog, options), OrdersOf(rows[1..], tables, items, mods, catalog, options))
      case (Some(o), Some(rest)) => Some([o] + rest)
      case (None, _) => None
      case (_, None) => None
  }

  /**
   * Every fetched order has subtotal equal to total, both the stored amount,
   * and tax 0; its id, status and position are the row's, and its table
   * number is 0 when the table join finds nothing.
   */
  lemma FetchedAmounts(rows: seq<OrderRow>, tables: seq<TableRow>, items: seq<ItemRow>, mods: seq<ModifierRow>,
                       catalog: map<string, MenuItemRecord>, options: map<string, OptionRecord>)
    requires OrdersOf(rows, tables, items, mods, catalog, options).Some?
    ensures var os := OrdersOf(rows, tables, items, mods, catalog, options).value;
      forall k :: 0 <= k < |rows| ==>
        && os[k].id == rows[k].id && os[k].status == rows[k].status
        && os[k].subtotal == os[k].total == rows[k].totalAmount && os[k].tax == 0.0
        && ((forall t :: t in tables ==> t.id != rows[k].tableId) ==> os[k].tableNumber == Int(0))
  {
  }

  /** A fetched line's add-ons are exactly its modifier rows' options, in order, whatever the line carried when it was placed. */
  lemma FetchedAddOns(row: ItemRow, mods: seq<ModifierRow>, catalog: map<string, MenuItemRecord>,
                      options: map<string, OptionRecord>)
    requires LineOf(row, mods, catalog, options).Some?
    ensures var line := LineOf(row, mods, catalog, options).value;
      var ms := ModifierRowsOfItem(mods, row.key);
      && |line.selectedAddOns| == |ms|
      && Some(line.selectedAddOns) == AddOnsOf(ms, options)
      && (forall k :: 0 <= k < |ms| ==>
            var o := options[ms[k].optionId];
            line.selectedAddOns[k] == AddOn(o.id, o.name, o.priceAdjustment))
      && line.quantity == row.quantity && line.specialInstructions == row.notes
      && line.menuItem.isVeg == catalog[row.menuItemId].veg.GetOr(false)
  {
  }

  // ---------------------------------------------------------------------------
  // Writing: the steps of `placeOrder`

  /**
   * The table an order is written against: the one whose number matches when
   * exactly one does (`.single()` rejects zero or several rows), otherwise
   * the restaurant's first table, and `None` when it has none.
   */
  function ResolveTable(tables: seq<TableRow>, tableNumber: Num): (r: Option<string>)
    ensures r.None? <==> tables == []
    ensures var m := Seqs.Filter(tables, (t: TableRow) => Int(t.tableNumber) == tableNumber);
      r.Some? ==> r.value == (if |m| == 1 then m[0].id else tables[0].id)
  {
    var matching := Seqs.Filter(tables, (t: TableRow) => Int(t.tableNumber) == tableNumber);
    if |matching| == 1 then Some(matching[0].id)
    else if tables != [] then Some(tables[0].id)
    else None
  }

  /** The insert of line `i` is rejected. */
  predicate ItemFails(faults: Faults, i: nat) {
    faults.itemInsertFailsAt == Some(i)
  }

  /** Line `i` has add-ons and their insert is rejected. */
  predicate ModifiersFail(items: seq<CartItem>, faults: Faults, i: nat)
    requires i < |items|
  {
    faults.modifierInsertFailsAt == Some(i) && |items[i].selectedAddOns| > 0
  }

  predicate StepFails(items: seq<CartItem>, faults: Faults, i: nat)
    requires i < |items|
  {
    ItemFails(faults, i) || ModifiersFail(items, faults, i)
  }

  /** The first line whose writes fail, or the number of lines when none does. */
  function FirstFailure(items: seq<CartItem>, faults: Faults, from: nat): (f: nat)
    requires from <= |items|
    ensures from <= f <= |items|
    ensures forall i :: from <= i < f ==> !StepFails(items, faults, i)
    ensures f < |items| ==> StepFails(items, faults, f)
    decreases |items| - from
  {
    if from == |items| then from
    else if StepFails(items, faults, from) then from
    else FirstFailure(items, faults, from + 1)
  }

  /** `item.specialInstructions || null`: empty instructions are stored as null. */
  function StoredNotes(instructions: Option<string>): (r: Option<string>)
    ensures r.Some? <==> Truthy(instructions)
    ensures r.Some? ==> r == instructions
  {
    if Truthy(instructions) then instructions else None
  }

  /** The `order_items` row for line `i`: its item id, quantity, base price and notes. */
  function ItemRowOf(orderId: string, items: seq<CartItem>, i: nat): ItemRow
    requires i < |items|
  {
    ItemRow(ItemKey(orderId, i), items[i].menuItem.id, items[i].quantity, items[i].menuItem.price,
            StoredNotes(items[i].specialInstructions))
  }

  /** The `order_item_modifiers` rows for one line: one per add-on, in order. */
  function ModifierRowsOf(key: ItemKey, addOns: seq<AddOn>): (r: seq<ModifierRow>)
    ensures |r| == |addOns|
    ensures forall k :: 0 <= k < |addOns| ==> r[k] == ModifierRow(key, addOns[k].id, addOns[k].price)
  {
    if addOns == [] then [] else [ModifierRow(key, addOns[0].id, addOns[0].price)] + ModifierRowsOf(key, addOns[1..])
  }

  /** The item rows of lines `0 .. n-1`. */
  function ItemRowsUpTo(orderId: string, items: seq<CartItem>, n: nat): (r: seq<ItemRow>)
    requires n <= |items|
    ensures |r| == n
    ensures forall i :: 0 <= i < n ==> r[i] == ItemRowOf(orderId, items, i)
  {
    if n == 0 then [] else ItemRowsUpTo(orderId, items, n - 1) + [ItemRowOf(orderId, items, n - 1)]
  }

  /** The modifier rows of lines `0 .. n-1`. */
  function ModifierRowsUpTo(orderId: string, items: seq<CartItem>, n: nat): seq<ModifierRow>
    requires n <= |items|
  {
    if n == 0 then []
    else ModifierRowsUpTo(orderId, items, n - 1) + ModifierRowsOf(ItemKey(orderId, n - 1), items[n - 1].selectedAddOns)
  }

  /** Whether the order row itself gets written. */
  predicate OrderInserted(configured: bool, tables: seq<TableRow>, tableNumber: Num, faults: Faults) {
    configured && ResolveTable(tables, tableNumber).Some? && !faults.orderInsertFails
  }

  /** Whether `placeOrder` returns an order: the order row and every line's writes succeed. */
  predicate Placed(configured: bool, tables: seq<TableRow>, tableNumber: Num, items: seq<CartItem>, faults: Faults) {
    OrderInserted(configured, tables, tableNumber, faults) && FirstFailure(items, faults, 0) == |items|
  }

  /** The item rows left behind: every line before the failing one, and the failing line's own row when only its modifiers failed. */
  function ItemRowsWritten(orderId: string, items: seq<CartItem>, faults: Faults): seq<ItemRow> {
    var f := FirstFailure(items, faults, 0);
    ItemRowsUpTo(orderId, items, f) + (if f < |items| && !ItemFails(faults, f) then [ItemRowOf(orderId, items, f)] else [])
  }

  /** A loop stopping at the first failing line `i` has written the rows before it, and line `i`'s own row unless that insert failed. */
  lemma FailureStops(orderId: string, items: seq<CartItem>, faults: Faults, i: nat)
    requires i < |items|
    requires forall j :: 0 <= j < i ==> !StepFails(items, faults, j)
    requires StepFails(items, faults, i)
    ensures FirstFailure(items, faults, 0) == i
    ensures ItemFails(faults, i) ==> ItemRowsWritten(orderId, items, faults) == ItemRowsUpTo(orderId, items, i)
    ensures !ItemFails(faults, i) ==>
      ItemRowsWritten(orderId, items, faults) == ItemRowsUpTo(orderId, items, i) + [ItemRowOf(orderId, items, i)]
  {
    if ItemFails(faults, i) {
      assert ItemRowsUpTo(orderId, items, i) + [] == ItemRowsUpTo(orderId, items, i);
    }
  }

  /** A loop that meets no failing line has written every line's row. */
  lemma NoFailure(orderId: string, items: seq<CartItem>, faults: Faults)
    requires forall j :: 0 <= j < |items| ==> !StepFails(items, faults, j)
    ensures FirstFailure(items, faults, 0) == |items|
    ensures ItemRowsWritten(orderId, items, faults) == ItemRowsUpTo(orderId, items, |items|)
  {
    assert ItemRowsUpTo(orderId, items, |items|) + [] == ItemRowsUpTo(orderId, items, |items|);
  }

  /** The item rows written for an order all name it, so a fetch of that order finds every one of them, in order. */
  lemma {:induction false} ItemRowsNameTheirOrder(orderId: string, items: seq<CartItem>, n: nat)
    requires n <= |items|
    ensures ItemRowsOf(ItemRowsUpTo(orderId, items, n), orderId) == ItemRowsUpTo(orderId, items, n)
  {
    Seqs.FilterAll(ItemRowsUpTo(orderId, items, n), (r: ItemRow) => r.key.orderId == orderId);
  }

  /** Writes that stop at a failing line leave rows behind: nothing is rolled back. */
  lemma PartialWritesPersist(orderId: string, items: seq<CartItem>, faults: Faults)
    requires FirstFailure(items, faults, 0) > 0
    ensures ItemRowsWritten(orderId, items, faults) != []
    ensures ItemRowsWritten(orderId, items, faults)[0] == ItemRowOf(orderId, items, 0)
  {
  }

  /** The status write touches every row with the id and nothing else. */
  function SetStatus(rows: seq<OrderRow>, orderId: string, status: OrderStatus): (r: seq<OrderRow>)
    ensures |r| == |rows|
    ensures forall k :: 0 <= k < |rows| ==>
      r[k] == if rows[k].id == orderId then rows[k].(status := status) else rows[k]
  {
    if rows == [] then []
    else [if rows[0].id == orderId then rows[0].(status := status) else rows[0]] + SetStatus(rows[1..], orderId, status)
  }

  /** No transition is checked: any status can be written over any other, and the last write wins. */
  lemma {:induction false} StatusWriteUnguarded(rows: seq<OrderRow>, orderId: string, s: OrderStatus, t: OrderStatus)
    ensures forall k :: 0 <= k < |rows| && rows[k].id == orderId ==> SetStatus(rows, orderId, s)[k].status == s
    ensures SetStatus(SetStatus(rows, orderId, s), orderId, t) == SetStatus(rows, orderId, t)
  {
    var a := SetStatus(SetStatus(rows, orderId, s), orderId, t);
    var b := SetStatus(rows, orderId, t);
    assert |a| == |b|;
    forall k | 0 <= k < |a| ensures a[k] == b[k] {
    }
  }

  /** An order that fell back to the first table is fetched with that table's number, not the one requested. */
  lemma FallbackTableShown(tables: seq<TableRow>, tableNumber: Num)
    requires tables != []
    requires |Seqs.Filter(tables, (t: TableRow) => Int(t.tableNumber) == tableNumber)| != 1
    ensures TableNumberOf(tables, ResolveTable(tables, tableNumber).value) == tables[0].tableNumber
  {
  }

  // ---------------------------------------------------------------------------
  // The provider's state

  class OrderStore {
    /** Whether the restaurant id is configured. */
    const restaurantConfigured: bool
    /** The database's `tables`, `menu_items` and `modifier_options`, which the store only reads. */
    const tables: seq<TableRow>
    const catalog: map<string, MenuItemRecord>
    const options: map<string, OptionRecord>
    /** The rows the store writes: orders newest first (the fetch's `created_at` descending order), items and modifiers in insertion order. */
    var orderRows: seq<OrderRow>
    var itemRows: seq<ItemRow>
    var modifierRows: seq<ModifierRow>
    /** The provider's state. */
    var orders: seq<Order>
    var currentOrder: Option<Order>
    var isLoading: bool

    constructor (configured: bool, tables: seq<TableRow>, catalog: map<string, MenuItemRecord>,
                 options: map<string, OptionRecord>)
      ensures restaurantConfigured == configured && this.tables == tables
      ensures this.catalog == catalog && this.options == options
      ensures orderRows == [] && itemRows == [] && modifierRows == []
      ensures orders == [] && currentOrder == None && isLoading
    {
      restaurantConfigured := configured;
      this.tables := tables;
      this.catalog := catalog;
      this.options := options;
      orderRows := [];
      itemRows := [];
      modifierRows := [];
      orders := [];
      currentOrder := None;
      isLoading := true;
    }

    /** What a fetch would produce from the rows now stored. */
    function Fetched(): Option<seq<Order>>
      reads this
    {
      OrdersOf(orderRows, tables, itemRows, modifierRows, catalog, options)
    }

    /** `fetchOrders`: replace `orders` when the query and the mapping succeed; always stop loading. */
    method FetchOrders(queryFails: bool)
      modifies this
      ensures orders == if restaurantConfigured && !queryFails && Fetched().Some? then Fetched().value else old(orders)
      ensures !isLoading
      ensures orderRows == old(orderRows) && itemRows == old(itemRows) && modifierRows == old(modifierRows)
      ensures currentOrder == old(currentOrder)
    {
      if restaurantConfigured && !queryFails {
        var fetched := OrdersOf(orderRows, tables, itemRows, modifierRows, catalog, options);
        if fetched.Some? {
          orders := fetched.value;
        }
      }
      isLoading := false;
    }

    /**
     * `placeOrder`: write the order row against the resolved table, then each
     * line's row and its modifier rows in turn; stop at the first rejected
     * write, keeping what was written; on success refetch, and set and
     * return the caller's snapshot.
     */
    method PlaceOrder(tableNumber: Num, items: seq<CartItem>, subtotal: real, tax: real, total: real,
                      newOrderId: string, faults: Faults, refetchFails: bool) returns (placed: Option<Order>)
      modifies this
      ensures placed.Some? <==> Placed(restaurantConfigured, tables, tableNumber, items, faults)
      ensures placed.Some? ==> placed.value == Order(newOrderId, tableNumber, items, Pending, subtotal, tax, total)
      ensures placed.Some? ==> currentOrder == placed && !isLoading
      ensures placed.Some? ==> orders == if !refetchFails && Fetched().Some? then Fetched().value else old(orders)
      ensures placed.None? ==> currentOrder == old(currentOrder) && orders == old(orders) && isLoading == old(isLoading)
      ensures orderRows == if OrderInserted(restaurantConfigured, tables, tableNumber, faults)
        then [OrderRow(newOrderId, ResolveTable(tables, tableNumber).value, Pending, total)] + old(orderRows)
        else old(orderRows)
      ensures itemRows == if OrderInserted(restaurantConfigured, tables, tableNumber, faults)
        then old(itemRows) + ItemRowsWritten(newOrderId, items, faults)
        else old(itemRows)
      ensures modifierRows == if OrderInserted(restaurantConfigured, tables, tableNumber, faults)
        then old(modifierRows) + ModifierRowsUpTo(newOrderId, items, FirstFailure(items, faults, 0))
        else old(modifierRows)
    {
      if !restaurantConfigured {
        return None;
      }
      var tableId := ResolveTable(tables, tableNumber);
      if tableId.None? {
        return None;
      }
      if faults.orderInsertFails {
        return None;
      }
      orderRows := [OrderRow(newOrderId, tableId.value, Pending, total)] + orderRows;
      var ok := InsertLines(newOrderId, items, faults);
      if !ok {
        return None;
      }
      FetchOrders(refetchFails);
      placed := Some(Order(newOrderId, tableNumber, items, Pending, subtotal, tax, total));
      currentOrder := placed;
    }

    /** One pass of the `for` loop of `placeOrder`: the line's row, then its modifier rows when it has add-ons. */
    method InsertLine(orderId: string, items: seq<CartItem>, faults: Faults, i: nat) returns (ok: bool)
      requires i < |items|
      modifies this
      ensures ok <==> !StepFails(items, faults, i)
      ensures itemRows == old(itemRows) + (if ItemFails(faults, i) then [] else [ItemRowOf(orderId, items, i)])
      ensures modifierRows == old(modifierRows) + (if ok then ModifierRowsOf(ItemKey(orderId, i), items[i].selectedAddOns) else [])
      ensures orderRows == old(orderRows)
      ensures orders == old(orders) && currentOrder == old(currentOrder) && isLoading == old(isLoading)
    {
      assert modifierRows + [] == modifierRows;
      if ItemFails(faults, i) {
        assert itemRows + [] == itemRows;
        return false;
      }
      itemRows := itemRows + [ItemRowOf(orderId, items, i)];
      if |items[i].selectedAddOns| > 0 {
        if faults.modifierInsertFailsAt == Some(i) {
          return false;
        }
        modifierRows := modifierRows + ModifierRowsOf(ItemKey(orderId, i), items[i].selectedAddOns);
      } else {
        assert ModifierRowsOf(ItemKey(orderId, i), items[i].selectedAddOns) == [];
      }
      ok := true;
    }

    /** The `for` loop of `placeOrder`: each line's row, then its modifier rows, stopping at the first rejected insert. */
    method InsertLines(orderId: string, items: seq<CartItem>, faults: Faults) returns (ok: bool)
      modifies this
      ensures ok <==> FirstFailure(items, faults, 0) == |items|
      ensures itemRows == old(itemRows) + ItemRowsWritten(orderId, items, faults)
      ensures modifierRows == old(modifierRows) + ModifierRowsUpTo(orderId, items, FirstFailure(items, faults, 0))
      ensures orderRows == old(orderRows)
      ensures orders == old(orders) && currentOrder == old(currentOrder) && isLoading == old(isLoading)
    {
      var i := 0;
      while i < |items|
        invariant 0 <= i <= |items|
        invariant forall j :: 0 <= j < i ==> !StepFails(items, faults, j)
        invariant itemRows == old(itemRows) + ItemRowsUpTo(orderId, items, i)
        invariant modifierRows == old(modifierRows) + ModifierRowsUpTo(orderId, items, i)
        invariant orderRows == old(orderRows)
        invariant orders == old(orders) && currentOrder == old(currentOrder) && isLoading == old(isLoading)
      {
        var row := ItemRowOf(orderId, items, i);
        var mods := ModifierRowsOf(ItemKey(orderId, i), items[i].selectedAddOns);
        Seqs.ConcatAssoc(old(itemRows), ItemRowsUpTo(orderId, items, i), [row]);
        Seqs.ConcatAssoc(old(modifierRows), ModifierRowsUpTo(orderId, items, i), mods);
        assert ItemRowsUpTo(orderId, items, i + 1) == ItemRowsUpTo(orderId, items, i) + [row];
        assert ModifierRowsUpTo(orderId, items, i + 1) == ModifierRowsUpTo(orderId, items, i) + mods;
        var stepOk := InsertLine(orderId, items, faults, i);
        if !stepOk {
          FailureStops(orderId, items, faults, i);
          return false;
        }
        i := i + 1;
      }
      NoFailure(orderId, items, faults);
      ok := true;
    }

    /** `updateOrderStatus`: overwrite the status of the order with that id, whatever it was; a rejected write changes nothing. */
    method UpdateOrderStatus(orderId: string, status: OrderStatus, fails: bool)
      modifies this
      ensures orderRows == if fails then old(orderRows) else SetStatus(old(orderRows), orderId, status)
      ensures itemRows == old(itemRows) && modifierRows == old(modifierRows)
      ensures orders == old(orders) && currentOrder == old(currentOrder) && isLoading == old(isLoading)
    {
      if !fails {
        orderRows := SetStatus(orderRows, orderId, status);
      }
    }

    method SetCurrentOrder(order: Option<Order>)
      modifies this
      ensures currentOrder == order
      ensures orderRows == old(orderRows) && itemRows == old(itemRows) && modifierRows == old(modifierRows)
      ensures orders == old(orders) && isLoading == old(isLoading)
    {
      currentOrder := order;
    }
  }
}
