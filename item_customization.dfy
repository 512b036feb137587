/**
 * The dialog that configures one menu item before it goes into the cart
 * (frontend/src/components/customer/ItemCustomizationModal.tsx): a quantity
 * that never drops below one, an add-on selection toggled by id, free-text
 * instructions, the price on the button, and the call into the cart.
 */
module ItemCustomization {
  import opened Wrappers
  import opened MenuTypes
  import Seqs
  import CartContext

  /** `prev.some(a => a.id === id)`. */
  predicate HasId(addOns: seq<AddOn>, id: string) {
    exists k :: 0 <= k < |addOns| && addOns[k].id == id
  }

  /** `prev.filter(a => a.id !== id)`. */
  function WithoutId(addOns: seq<AddOn>, id: string): (r: seq<AddOn>)
    ensures forall a :: a in r <==> a in addOns && a.id != id
  {
    Seqs.Filter(addOns, (a: AddOn) => a.id != id)
  }

  /** The selection after clicking an add-on: every entry with its id removed if one is selected, otherwise it is appended. */
  function Toggled(addOns: seq<AddOn>, addOn: AddOn): seq<AddOn> {
    if HasId(addOns, addOn.id) then WithoutId(addOns, addOn.id) else addOns + [addOn]
  }

  /** No two selected add-ons share an id. */
  predicate UniqueIds(addOns: seq<AddOn>) {
    forall i, j :: 0 <= i < |addOns| && 0 <= j < |addOns| && addOns[i].id == addOns[j].id ==> i == j
  }

  /** A click selects the add-on exactly when it was not selected; other add-ons stay as they were. */
  lemma ToggleFlips(addOns: seq<AddOn>, addOn: AddOn)
    ensures HasId(Toggled(addOns, addOn), addOn.id) <==> !HasId(addOns, addOn.id)
    ensures forall a: AddOn :: a.id != addOn.id ==> (a in Toggled(addOns, addOn) <==> a in addOns)
  {
    var r := Toggled(addOns, addOn);
    if !HasId(addOns, addOn.id) {
      assert r[|addOns|].id == addOn.id;
    }
  }

  /** Clicking an unselected add-on twice restores the selection. */
  lemma ToggleTwiceRestores(addOns: seq<AddOn>, addOn: AddOn)
    requires !HasId(addOns, addOn.id)
    ensures Toggled(Toggled(addOns, addOn), addOn) == addOns
  {
    var once := addOns + [addOn];
    assert once[|addOns|].id == addOn.id;
    var p := (a: AddOn) => a.id != addOn.id;
    Seqs.FilterConcat(addOns, [addOn], p);
    forall a | a in addOns ensures p(a) {
      var k :| 0 <= k < |addOns| && addOns[k] == a;
    }
    Seqs.FilterAll(addOns, p);
    assert [addOn][1..] == [];
  }

  /** Filtering keeps ids distinct. */
  lemma {:induction false} FilterKeepsUnique(addOns: seq<AddOn>, p: AddOn -> bool)
    requires UniqueIds(addOns)
    ensures UniqueIds(Seqs.Filter(addOns, p))
  {
    if addOns != [] {
      var rest := addOns[1..];
      assert UniqueIds(rest) by {
        forall i, j | 0 <= i < |rest| && 0 <= j < |rest| && rest[i].id == rest[j].id ensures i == j {
          assert addOns[i + 1].id == addOns[j + 1].id;
        }
      }
      FilterKeepsUnique(rest, p);
      var fr := Seqs.Filter(rest, p);
      if p(addOns[0]) {
        forall k | 0 <= k < |fr| ensures fr[k].id != addOns[0].id {
          assert fr[k] in rest;
          var m :| 0 <= m < |rest| && rest[m] == fr[k];
          assert addOns[m + 1] == fr[k];
        }
        var r := Seqs.Filter(addOns, p);
        assert r == [addOns[0]] + fr;
        forall i, j | 0 <= i < |r| && 0 <= j < |r| && r[i].id == r[j].id ensures i == j {
          if i > 0 && j > 0 {
            assert fr[i - 1].id == fr[j - 1].id;
          }
        }
      }
    }
  }

  /** A click keeps the selected ids distinct. */
  lemma ToggleKeepsUnique(addOns: seq<AddOn>, addOn: AddOn)
    requires UniqueIds(addOns)
    ensures UniqueIds(Toggled(addOns, addOn))
  {
    if HasId(addOns, addOn.id) {
      FilterKeepsUnique(addOns, (a: AddOn) => a.id != addOn.id);
    } else {
      var r := addOns + [addOn];
      forall i, j | 0 <= i < |r| && 0 <= j < |r| && r[i].id == r[j].id ensures i == j {
        if i < |addOns| && j < |addOns| {
          assert addOns[i].id == addOns[j].id;
        }
      }
    }
  }

  /** `instructions || undefined`: empty text is passed as no instructions. */
  function InstructionsArg(instructions: string): (r: Option<string>)
    ensures r.None? <==> instructions == ""
    ensures r.Some? ==> r.value == instructions && Truthy(r)
  {
    if instructions == "" then None else Some(instructions)
  }

  /** `calculateTotal`: the item price plus the selected add-ons, times the quantity. */
  function TotalFor(item: MenuItem, addOns: seq<AddOn>, quantity: int): real {
    (item.price + AddOnTotal(addOns)) * quantity as real
  }

  /** The button's price is the price of the line the dialog would add, and what adding it as a new line raises the cart subtotal by. */
  lemma TotalIsLinePrice(lines: seq<CartItem>, item: MenuItem, addOns: seq<AddOn>, quantity: int, instructions: string)
    ensures TotalFor(item, addOns, quantity) == LinePrice(CartItem(item, quantity, addOns, InstructionsArg(instructions)))
    ensures CartContext.FindIndex(lines, item, addOns) < 0 ==>
      CartContext.LinesSubtotal(CartContext.Added(lines, item, quantity, addOns, InstructionsArg(instructions)))
        == CartContext.LinesSubtotal(lines) + TotalFor(item, addOns, quantity)
  {
    if CartContext.FindIndex(lines, item, addOns) < 0 {
      CartContext.AddAppendedTotals(lines, item, quantity, addOns, InstructionsArg(instructions));
    }
  }

  class ItemCustomizer {
    const item: MenuItem
    var quantity: int
    var selectedAddOns: seq<AddOn>
    var instructions: string

    /** The quantity stays at one or more. */
    predicate Valid()
      reads this
    {
      quantity >= 1
    }

    constructor (item: MenuItem)
      ensures this.item == item && quantity == 1 && selectedAddOns == [] && instructions == ""
      ensures Valid()
    {
      this.item := item;
      quantity := 1;
      selectedAddOns := [];
      instructions := "";
    }

    /** The minus button: `Math.max(1, q - 1)`. */
    method Decrement()
      modifies this
      ensures quantity == if old(quantity) - 1 > 1 then old(quantity) - 1 else 1
      ensures Valid()
      ensures selectedAddOns == old(selectedAddOns) && instructions == old(instructions)
    {
      quantity := if quantity - 1 > 1 then quantity - 1 else 1;
    }

    /** The plus button. */
    method Increment()
      requires Valid()
      modifies this
      ensures quantity == old(quantity) + 1
      ensures Valid()
      ensures selectedAddOns == old(selectedAddOns) && instructions == old(instructions)
    {
      quantity := quantity + 1;
    }

    method ToggleAddOn(addOn: AddOn)
      modifies this
      ensures selectedAddOns == Toggled(old(selectedAddOns), addOn)
      ensures quantity == old(quantity) && instructions == old(instructions)
    {
      if exists k :: 0 <= k < |selectedAddOns| && selectedAddOns[k].id == addOn.id {
        selectedAddOns := WithoutId(selectedAddOns, addOn.id);
      } else {
        selectedAddOns := selectedAddOns + [addOn];
      }
    }

    method SetInstructions(text: string)
      modifies this
      ensures instructions == text
      ensures quantity == old(quantity) && selectedAddOns == old(selectedAddOns)
    {
      instructions := text;
    }

    function CalculateTotal(): real
      reads this
    {
      TotalFor(item, selectedAddOns, quantity)
    }

    /** `handleAddToCart`: the item, quantity and selection go to the cart unchanged, with empty instructions as none. */
    method HandleAddToCart(cart: CartContext.Cart)
      modifies cart
      ensures cart.items == CartContext.Added(old(cart.items), item, quantity, selectedAddOns, InstructionsArg(instructions))
      ensures cart.stored == CartContext.Parsed(cart.items)
    {
      cart.AddItem(item, quantity, selectedAddOns, InstructionsArg(instructions));
    }
  }
}
