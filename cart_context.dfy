/**
 * The diner's cart (frontend/src/contexts/CartContext.tsx): an ordered list
 * of lines with add, remove, update-quantity and clear, the totals derived
 * from the lines, and the copy kept in local storage.
 *
 * The list operations are specified by the functions Added, Removed and
 * Updated on plain sequences; the `Cart` class holds the provider's state
 * and its methods are proved to apply exactly those functions.
 */
module CartContext {
  import opened Wrappers
  import opened MenuTypes
  import Seqs

  /** What local storage held under the cart key when the provider mounted. */
  datatype StoredCart = Missing | Unparsable | Parsed(lines: seq<CartItem>)

  /** The tax rate applied to the subtotal. */
  const TaxRate: real := 0.1

  /** The lines the cart starts from: the stored list, or an empty list when there is none or it cannot be read. */
  function InitialLines(saved: StoredCart): (r: seq<CartItem>)
    ensures saved.Parsed? ==> r == saved.lines
    ensures !saved.Parsed? ==> r == []
  {
    match saved
    case Parsed(lines) => lines
    case Missing => []
    case Unparsable => []
  }

  /**
   * Two lines are the same line when they are for the same menu-item id and
   * carry the same add-on list, element by element and in the same order
   * (the source compares the `JSON.stringify` forms).
   */
  predicate Matches(line: CartItem, menuItem: MenuItem, addOns: seq<AddOn>) {
    line.menuItem.id == menuItem.id && line.selectedAddOns == addOns
  }

  /** `findIndex`: the first matching line, or -1 when there is none. */
  function FindIndex(lines: seq<CartItem>, menuItem: MenuItem, addOns: seq<AddOn>): (k: int)
    ensures -1 <= k < |lines|
    ensures k >= 0 ==> Matches(lines[k], menuItem, addOns)
    ensures forall j :: 0 <= j < |lines| && (k < 0 || j < k) ==> !Matches(lines[j], menuItem, addOns)
  {
    if lines == [] then -1
    else if Matches(lines[0], menuItem, addOns) then 0
    else
      var k := FindIndex(lines[1..], menuItem, addOns);
      if k < 0 then -1 else k + 1
  }

  /** The scan `findIndex` performs, as a loop. */
  method FindLine(lines: seq<CartItem>, menuItem: MenuItem, addOns: seq<AddOn>) returns (k: int)
    ensures k == FindIndex(lines, menuItem, addOns)
  {
    var i := 0;
    while i < |lines| && !Matches(lines[i], menuItem, addOns)
      invariant 0 <= i <= |lines|
      invariant forall j :: 0 <= j < i ==> !Matches(lines[j], menuItem, addOns)
    {
      i := i + 1;
    }
    k := if i < |lines| then i else -1;
  }

  /** The lines after `addItem`: merge into the first matching line, or append a new one. */
  function Added(lines: seq<CartItem>, menuItem: MenuItem, quantity: int, addOns: seq<AddOn>,
                 instructions: Option<string>): (r: seq<CartItem>)
    ensures |r| == |lines| + (if FindIndex(lines, menuItem, addOns) < 0 then 1 else 0)
  {
    var k := FindIndex(lines, menuItem, addOns);
    if k >= 0 then lines[k := lines[k].(quantity := lines[k].quantity + quantity)]
    else lines + [CartItem(menuItem, quantity, addOns, instructions)]
  }

  /** The lines after `removeItem(id)`: every line for that menu item is dropped. */
  function Removed(lines: seq<CartItem>, id: string): (r: seq<CartItem>)
    ensures forall l :: l in r <==> l in lines && l.menuItem.id != id
  {
    Seqs.Filter(lines, (l: CartItem) => l.menuItem.id != id)
  }

  /** The quantity of every line for `id` set to `quantity`, as `map` does it. */
  function WithQuantity(lines: seq<CartItem>, id: string, quantity: int): (r: seq<CartItem>)
    ensures |r| == |lines|
    ensures forall j :: 0 <= j < |lines| && lines[j].menuItem.id == id ==> r[j] == lines[j].(quantity := quantity)
    ensures forall j :: 0 <= j < |lines| && lines[j].menuItem.id != id ==> r[j] == lines[j]
  {
    if lines == [] then []
    else
      [if lines[0].menuItem.id == id then lines[0].(quantity := quantity) else lines[0]]
      + WithQuantity(lines[1..], id, quantity)
  }

  /** The lines after `updateQuantity(id, quantity)`. */
  function Updated(lines: seq<CartItem>, id: string, quantity: int): (r: seq<CartItem>)
    ensures quantity <= 0 ==> forall l :: l in r ==> l.menuItem.id != id
    ensures quantity > 0 ==> |r| == |lines|
    ensures forall l :: l in r && l.menuItem.id == id ==> l.quantity == quantity
    ensures forall l :: l in r && l.menuItem.id != id ==> l in lines
  {
    if quantity <= 0 then Removed(lines, id) else WithQuantity(lines, id, quantity)
  }

  /** `totalItems`: the sum of the quantities. */
  function ItemCount(lines: seq<CartItem>): int {
    Seqs.SumInt(lines, LineQuantity)
  }

  /** `subtotal`: the sum of the line prices. */
  function LinesSubtotal(lines: seq<CartItem>): real {
    Seqs.Sum(lines, LinePrice)
  }

  /** Every line has a quantity of at least one. */
  predicate AllPositive(lines: seq<CartItem>) {
    forall l :: l in lines ==> l.quantity >= 1
  }

  // ---------------------------------------------------------------------------
  // Properties of the list operations

  /** With a matching line, `addItem` adds to the first one's quantity and keeps its instructions; nothing else changes. */
  lemma AddMerges(lines: seq<CartItem>, menuItem: MenuItem, quantity: int, addOns: seq<AddOn>,
                  instructions: Option<string>, k: nat)
    requires k < |lines| && Matches(lines[k], menuItem, addOns)
    requires forall j :: 0 <= j < k ==> !Matches(lines[j], menuItem, addOns)
    ensures var r := Added(lines, menuItem, quantity, addOns, instructions);
      && |r| == |lines|
      && r[k].quantity == lines[k].quantity + quantity
      && r[k].specialInstructions == lines[k].specialInstructions
      && r[k].menuItem == lines[k].menuItem && r[k].selectedAddOns == addOns
      && forall j :: 0 <= j < |lines| && j != k ==> r[j] == lines[j]
  {
  }

  /** With no matching line, `addItem` appends exactly one new line at the end. */
  lemma AddAppends(lines: seq<CartItem>, menuItem: MenuItem, quantity: int, addOns: seq<AddOn>,
                   instructions: Option<string>)
    requires forall j :: 0 <= j < |lines| ==> !Matches(lines[j], menuItem, addOns)
    ensures Added(lines, menuItem, quantity, addOns, instructions)
         == lines + [CartItem(menuItem, quantity, addOns, instructions)]
  {
  }

  /** Adding `quantity` units to a line adds `quantity` unit prices to its price. */
  lemma MergedLinePrice(line: CartItem, quantity: int)
    ensures LinePrice(line.(quantity := line.quantity + quantity))
         == LinePrice(line) + UnitPrice(line) * quantity as real
  {
    var u := UnitPrice(line);
    assert u * (line.quantity + quantity) as real == u * line.quantity as real + u * quantity as real;
  }

  /**
   * Merging into the first matching line raises `totalItems` by the added
   * quantity and the subtotal by that quantity times the unit price of the
   * existing line (whose item snapshot is kept).
   */
  lemma AddMergedTotals(lines: seq<CartItem>, menuItem: MenuItem, quantity: int, addOns: seq<AddOn>,
                        instructions: Option<string>)
    requires FindIndex(lines, menuItem, addOns) >= 0
    ensures var k := FindIndex(lines, menuItem, addOns);
      var r := Added(lines, menuItem, quantity, addOns, instructions);
      && ItemCount(r) == ItemCount(lines) + quantity
      && LinesSubtotal(r) == LinesSubtotal(lines) + UnitPrice(lines[k]) * quantity as real
  {
    var k := FindIndex(lines, menuItem, addOns);
    assert Added(lines, menuItem, quantity, addOns, instructions)
        == lines[k := lines[k].(quantity := lines[k].quantity + quantity)];
    MergeAtTotals(lines, k, quantity);
  }

  /** Adding units to line `k` raises the item count by them and the subtotal by their price. */
  lemma MergeAtTotals(lines: seq<CartItem>, k: nat, quantity: int)
    requires k < |lines|
    ensures var r := lines[k := lines[k].(quantity := lines[k].quantity + quantity)];
      && ItemCount(r) == ItemCount(lines) + quantity
      && LinesSubtotal(r) == LinesSubtotal(lines) + UnitPrice(lines[k]) * quantity as real
  {
    var merged := lines[k].(quantity := lines[k].quantity + quantity);
    Seqs.SumIntUpdate(lines, k, merged, LineQuantity);
    Seqs.SumUpdate(lines, k, merged, LinePrice);
    MergedLinePrice(lines[k], quantity);
  }

  /**
   * Appending a new line raises `totalItems` by its quantity and the
   * subtotal by its quantity times the item's price plus its add-ons.
   */
  lemma AddAppendedTotals(lines: seq<CartItem>, menuItem: MenuItem, quantity: int, addOns: seq<AddOn>,
                          instructions: Option<string>)
    requires FindIndex(lines, menuItem, addOns) < 0
    ensures var r := Added(lines, menuItem, quantity, addOns, instructions);
      && ItemCount(r) == ItemCount(lines) + quantity
      && LinesSubtotal(r) == LinesSubtotal(lines) + (menuItem.price + AddOnTotal(addOns)) * quantity as real
  {
    AddAppends(lines, menuItem, quantity, addOns, instructions);
    AppendTotals(lines, CartItem(menuItem, quantity, addOns, instructions));
  }

  /** Appending a line raises the item count by its quantity and the subtotal by its price. */
  lemma AppendTotals(lines: seq<CartItem>, line: CartItem)
    ensures ItemCount(lines + [line]) == ItemCount(lines) + line.quantity
    ensures LinesSubtotal(lines + [line]) == LinesSubtotal(lines) + LinePrice(line)
  {
    Seqs.SumIntSnoc(lines, line, LineQuantity);
    Seqs.SumSnoc(lines, line, LinePrice);
  }

  /** `removeItem(id)` keeps the other lines in their relative order: it distributes over concatenation. */
  lemma RemovedConcat(a: seq<CartItem>, b: seq<CartItem>, id: string)
    ensures Removed(a + b, id) == Removed(a, id) + Removed(b, id)
  {
    Seqs.FilterConcat(a, b, (l: CartItem) => l.menuItem.id != id);
  }

  /** Removing a menu item that has no line changes nothing. */
  lemma RemoveAbsent(lines: seq<CartItem>, id: string)
    requires forall l :: l in lines ==> l.menuItem.id != id
    ensures Removed(lines, id) == lines
  {
    Seqs.FilterAll(lines, (l: CartItem) => l.menuItem.id != id);
  }

  /** A quantity of zero or less removes the item, exactly as `removeItem` would. */
  lemma UpdateToZeroRemoves(lines: seq<CartItem>, id: string, quantity: int)
    requires quantity <= 0
    ensures Updated(lines, id, quantity) == Removed(lines, id)
    ensures forall l :: l in Updated(lines, id, quantity) ==> l.menuItem.id != id
  {
  }

  /** Every mutation keeps all quantities at one or more, given a positive quantity to add. */
  lemma MutationsKeepPositive(lines: seq<CartItem>, menuItem: MenuItem, quantity: int, addOns: seq<AddOn>,
                              instructions: Option<string>, id: string, newQuantity: int)
    requires AllPositive(lines)
    ensures quantity >= 1 ==> AllPositive(Added(lines, menuItem, quantity, addOns, instructions))
    ensures AllPositive(Removed(lines, id))
    ensures AllPositive(Updated(lines, id, newQuantity))
    ensures AllPositive([])
  {
    var r := Updated(lines, id, newQuantity);
    if newQuantity > 0 {
      forall l | l in r ensures l.quantity >= 1 {
        var j :| 0 <= j < |r| && r[j] == l;
        assert lines[j] in lines;
      }
    }
    if quantity >= 1 {
      var k := FindIndex(lines, menuItem, addOns);
      var a := Added(lines, menuItem, quantity, addOns, instructions);
      forall l | l in a ensures l.quantity >= 1 {
        var j :| 0 <= j < |a| && a[j] == l;
        if k >= 0 || j < |lines| {
          assert lines[j] in lines;
        }
      }
    }
  }

  /** Adds of the same line, one after another, in order. */
  function AddAll(lines: seq<CartItem>, menuItem: MenuItem, addOns: seq<AddOn>, quantities: seq<int>,
                  instructions: Option<string>): seq<CartItem>
    decreases |quantities|
  {
    if quantities == [] then lines
    else
      var n := |quantities| - 1;
      Added(AddAll(lines, menuItem, addOns, quantities[..n], instructions), menuItem, quantities[n], addOns, instructions)
  }

  /**
   * Adding the same item with the same add-ons several times leaves exactly one
   * line for it, at the end, whose quantity is the sum of the added quantities.
   */
  lemma {:induction false} RepeatedAddsMerge(lines: seq<CartItem>, menuItem: MenuItem, addOns: seq<AddOn>,
                                             quantities: seq<int>, instructions: Option<string>)
    requires |quantities| >= 1
    requires forall j :: 0 <= j < |lines| ==> !Matches(lines[j], menuItem, addOns)
    ensures var r := AddAll(lines, menuItem, addOns, quantities, instructions);
      && |r| == |lines| + 1
      && r[..|lines|] == lines
      && r[|lines|] == CartItem(menuItem, Seqs.SumInt(quantities, (q: int) => q), addOns, instructions)
  {
    var n := |quantities| - 1;
    var f := (q: int) => q;
    assert quantities == quantities[..n] + [quantities[n]];
    Seqs.SumIntSnoc(quantities[..n], quantities[n], f);
    if n == 0 {
      assert quantities[..n] == [];
      AddAppends(lines, menuItem, quantities[n], addOns, instructions);
    } else {
      RepeatedAddsMerge(lines, menuItem, addOns, quantities[..n], instructions);
      AddToLast(lines, AddAll(lines, menuItem, addOns, quantities[..n], instructions), menuItem, addOns, quantities[n], instructions);
    }
  }

  /** When only the last line matches, adding merges into it and leaves the earlier lines alone. */
  lemma AddToLast(lines: seq<CartItem>, prev: seq<CartItem>, menuItem: MenuItem, addOns: seq<AddOn>,
                  quantity: int, instructions: Option<string>)
    requires forall j :: 0 <= j < |lines| ==> !Matches(lines[j], menuItem, addOns)
    requires |prev| == |lines| + 1 && prev[..|lines|] == lines && Matches(prev[|lines|], menuItem, addOns)
    ensures var r := Added(prev, menuItem, quantity, addOns, instructions);
      && |r| == |prev|
      && r[..|lines|] == lines
      && r[|lines|] == prev[|lines|].(quantity := prev[|lines|].quantity + quantity)
  {
    forall j | 0 <= j < |lines| ensures !Matches(prev[j], menuItem, addOns) {
      assert prev[j] == prev[..|lines|][j];
    }
    var k := FindIndex(prev, menuItem, addOns);
    assert k == |lines|;
    var r := Added(prev, menuItem, quantity, addOns, instructions);
    assert r == prev[k := prev[k].(quantity := prev[k].quantity + quantity)];
    assert r[..|lines|] == prev[..|lines|];
  }

  /** The worked example: ($10 + $1 add-on) × 2 plus $5 × 1 is 27, with 2.70 tax and 29.70 in all. */
  lemma ExampleTotals(a: MenuItem, b: MenuItem, extra: AddOn)
    requires a.price == 10.0 && b.price == 5.0 && extra.price == 1.0
    ensures var lines := [CartItem(a, 2, [extra], None), CartItem(b, 1, [], None)];
      var sub := LinesSubtotal(lines);
      && sub == 27.0 && sub * TaxRate == 2.7 && sub + sub * TaxRate == 29.7
      && ItemCount(lines) == 3
  {
    assert [extra][1..] == [];
    assert Seqs.Sum([extra], AddOnPrice) == AddOnPrice(extra) + Seqs.Sum([], AddOnPrice);
    var l1 := CartItem(a, 2, [extra], None);
    var l2 := CartItem(b, 1, [], None);
    assert LinePrice(l1) == 22.0;
    assert LinePrice(l2) == 5.0;
    assert [l1, l2][1..] == [l2];
    assert [l2][1..] == [];
    assert LinesSubtotal([l2]) == 5.0 + Seqs.Sum([], LinePrice);
    assert LinesSubtotal([l1, l2]) == 22.0 + LinesSubtotal([l2]);
    assert ItemCount([l2]) == 1 + Seqs.SumInt([], LineQuantity);
    assert ItemCount([l1, l2]) == 2 + ItemCount([l2]);
  }

  // ---------------------------------------------------------------------------
  // The provider's state

  class Cart {
    /** The cart lines, in the order they were added. */
    var items: seq<CartItem>
    /** What local storage holds; every change of `items` is written back. */
    var stored: StoredCart

    /** Loads the stored lines, or starts empty, and writes them back. */
    constructor (saved: StoredCart)
      ensures items == InitialLines(saved)
      ensures stored == Parsed(items)
    {
      items := InitialLines(saved);
      stored := Parsed(items);
    }

    function TotalItems(): int
      reads this
    {
      ItemCount(items)
    }

    function Subtotal(): real
      reads this
    {
      LinesSubtotal(items)
    }

    function Tax(): real
      reads this
    {
      Subtotal() * TaxRate
    }

    function Total(): (t: real)
      reads this
      ensures t == LinesSubtotal(items) * 11.0 / 10.0
    {
      Subtotal() + Tax()
    }

    method AddItem(menuItem: MenuItem, quantity: int, addOns: seq<AddOn>, instructions: Option<string>)
      modifies this
      ensures items == Added(old(items), menuItem, quantity, addOns, instructions)
      ensures stored == Parsed(items)
    {
      var k := FindLine(items, menuItem, addOns);
      if k >= 0 {
        items := items[k := items[k].(quantity := items[k].quantity + quantity)];
      } else {
        items := items + [CartItem(menuItem, quantity, addOns, instructions)];
      }
      stored := Parsed(items);
    }

    method RemoveItem(menuItemId: string)
      modifies this
      ensures items == Removed(old(items), menuItemId)
      ensures stored == Parsed(items)
    {
      items := Removed(items, menuItemId);
      stored := Parsed(items);
    }

    method UpdateQuantity(menuItemId: string, quantity: int)
      modifies this
      ensures items == Updated(old(items), menuItemId, quantity)
      ensures stored == Parsed(items)
    {
      if quantity <= 0 {
        RemoveItem(menuItemId);
        return;
      }
      items := WithQuantity(items, menuItemId, quantity);
      stored := Parsed(items);
    }

    method ClearCart()
      modifies this
      ensures items == [] && stored == Parsed([])
    {
      items := [];
      stored := Parsed(items);
    }
  }

  /** A cart reloaded from what the previous one stored starts with the same lines. */
  lemma ReloadRestores(lines: seq<CartItem>)
    ensures InitialLines(Parsed(lines)) == lines
  {
  }
}
