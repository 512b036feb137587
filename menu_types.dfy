/**
 * The entities shared by the customer and staff views: menu items and their
 * add-ons, cart lines, orders and the five order statuses, together with the
 * line-pricing rule that the cart, the order tracker and the customization
 * dialog all apply. Prices are exact (`real`), standing in for the source's
 * floating-point numbers.
 */
module MenuTypes {
  import opened Wrappers
  import Seqs
  import Strings

  /** A JavaScript number that is either an integer or NaN (what `parseInt` can give). */
  datatype Num = Int(value: int) | NaN

  /** `${n}`: the text a template literal gives a table number. */
  function NumText(n: Num): string {
    match n
    case Int(v) => Strings.IntToDecimal(v)
    case NaN => "NaN"
  }

  datatype AddOn = AddOn(id: string, name: string, price: real)

  datatype MenuItem = MenuItem(
    id: string,
    name: string,
    description: string,
    price: real,
    image: string,
    category: string,
    isVeg: bool,
    isAvailable: bool,
    addOns: Option<seq<AddOn>>)

  /** One cart line: an item snapshot, how many, which add-ons, and optional instructions. */
  datatype CartItem = CartItem(
    menuItem: MenuItem,
    quantity: int,
    selectedAddOns: seq<AddOn>,
    specialInstructions: Option<string>)

  datatype OrderStatus = Pending | Accepted | Preparing | Ready | Served

  datatype Order = Order(
    id: string,
    tableNumber: Num,
    items: seq<CartItem>,
    status: OrderStatus,
    subtotal: real,
    tax: real,
    total: real)

  datatype Category = Category(id: string, name: string)

  /** The string value of a status, as stored and as shown before capitalization. */
  function StatusName(s: OrderStatus): string {
    match s
    case Pending => "pending"
    case Accepted => "accepted"
    case Preparing => "preparing"
    case Ready => "ready"
    case Served => "served"
  }

  function AddOnPrice(a: AddOn): real {
    a.price
  }

  /** `selectedAddOns.reduce((a, b) => a + b.price, 0)`. */
  function AddOnTotal(addOns: seq<AddOn>): real {
    Seqs.Sum(addOns, AddOnPrice)
  }

  /** The price of one unit of a line: the item's price plus every selected add-on's. */
  function UnitPrice(line: CartItem): real {
    line.menuItem.price + AddOnTotal(line.selectedAddOns)
  }

  function LineQuantity(line: CartItem): int {
    line.quantity
  }

  /** `(price + Σ add-on price) × quantity`. */
  function LinePrice(line: CartItem): real {
    UnitPrice(line) * line.quantity as real
  }

  /** Without add-ons a line costs its base price per unit; each further add-on adds its own price once per unit. */
  lemma LinePriceByAddOns(line: CartItem, a: AddOn)
    ensures LinePrice(line.(selectedAddOns := [])) == line.menuItem.price * line.quantity as real
    ensures LinePrice(line.(selectedAddOns := line.selectedAddOns + [a]))
         == LinePrice(line) + a.price * line.quantity as real
  {
    Seqs.SumConcat(line.selectedAddOns, [a], AddOnPrice);
    assert [a][1..] == [];
    var q := line.quantity as real;
    var t := AddOnTotal(line.selectedAddOns);
    assert (line.menuItem.price + (t + a.price)) * q == (line.menuItem.price + t) * q + a.price * q;
  }

  /** JavaScript truthiness of an optional string: present and non-empty. */
  predicate Truthy(s: Option<string>) {
    s.Some? && s.value != ""
  }
}
