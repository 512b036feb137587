/**
 * The staff menu editor (frontend/src/pages/MenuManagement.tsx): a list of
 * items filtered by category and a case-insensitive search, an availability
 * toggle, and an editor whose every field change writes the edited copy of
 * the selected item back over each item with its id.
 */
module MenuManagement {
  import opened Wrappers
  import opened MenuTypes
  import Seqs
  import Strings
  import CustomerMenu

  /** In the category, and the query occurs in the name or the description, ignoring ASCII case. */
  predicate Listed(item: MenuItem, category: string, query: string) {
    var q := Strings.Lower(query);
    item.category == category
    && (Strings.Contains(Strings.Lower(item.name), q) || Strings.Contains(Strings.Lower(item.description), q))
  }

  function Visible(items: seq<MenuItem>, category: string, query: string): (r: seq<MenuItem>)
    ensures forall m :: m in r <==> m in items && Listed(m, category, query)
  {
    Seqs.Filter(items, (m: MenuItem) => Listed(m, category, query))
  }

  /** With an empty search the editor lists the same items, in the same order, as the diner's menu shows for that category. */
  lemma EmptySearchListsCategory(items: seq<MenuItem>, category: string)
    ensures Visible(items, category, "") == CustomerMenu.FilteredItems(items, category)
  {
    forall m: MenuItem ensures Listed(m, category, "") == (m.category == category) {
      assert Strings.Lower("") == "";
      assert Strings.Contains(Strings.Lower(m.name), "");
    }
    Seqs.FilterEquiv(items, (m: MenuItem) => Listed(m, category, ""), (m: MenuItem) => m.category == category);
  }

  /** The search ignores the letter case of the query. */
  lemma SearchIgnoresCase(items: seq<MenuItem>, category: string, query: string)
    ensures Visible(items, category, Strings.Lower(query)) == Visible(items, category, query)
  {
    Strings.LowerIdempotent(query);
    Seqs.FilterEquiv(items, (m: MenuItem) => Listed(m, category, Strings.Lower(query)),
                     (m: MenuItem) => Listed(m, category, query));
  }

  /** `handleToggleAvailability`: every item with the id has its availability inverted. */
  function AvailabilityToggled(items: seq<MenuItem>, id: string): (r: seq<MenuItem>)
    ensures |r| == |items|
    ensures forall i :: 0 <= i < |items| ==>
      r[i] == if items[i].id == id then items[i].(isAvailable := !items[i].isAvailable) else items[i]
  {
    if items == [] then []
    else [if items[0].id == id then items[0].(isAvailable := !items[0].isAvailable) else items[0]]
         + AvailabilityToggled(items[1..], id)
  }

  /** Toggling the same item twice restores the menu. */
  lemma ToggleTwice(items: seq<MenuItem>, id: string)
    ensures AvailabilityToggled(AvailabilityToggled(items, id), id) == items
  {
  }

  /** One editor control and the value it writes. */
  datatype Edit =
    | SetName(name: string)
    | SetDescription(description: string)
    | SetPrice(price: real)
    | SetCategory(category: string)
    | SetVeg(isVeg: bool)
    | SetAvailable(isAvailable: bool)

  /** The price field writes `parseFloat(text) || 0`; `None` is a text that does not parse. */
  function PriceEdit(parsed: Option<real>): (e: Edit)
    ensures e.SetPrice?
    ensures e.price == if parsed.Some? then parsed.value else 0.0
  {
    SetPrice(parsed.GetOr(0.0))
  }

  /** `{ ...selectedItem, [field]: value }`. */
  function Apply(item: MenuItem, e: Edit): (r: MenuItem)
    ensures r.id == item.id && r.image == item.image && r.addOns == item.addOns
    ensures e.SetName? ==> r == item.(name := e.name)
    ensures e.SetDescription? ==> r == item.(description := e.description)
    ensures e.SetPrice? ==> r == item.(price := e.price)
    ensures e.SetCategory? ==> r == item.(category := e.category)
    ensures e.SetVeg? ==> r == item.(isVeg := e.isVeg)
    ensures e.SetAvailable? ==> r == item.(isAvailable := e.isAvailable)
  {
    match e
    case SetName(v) => item.(name := v)
    case SetDescription(v) => item.(description := v)
    case SetPrice(v) => item.(price := v)
    case SetCategory(v) => item.(category := v)
    case SetVeg(v) => item.(isVeg := v)
    case SetAvailable(v) => item.(isAvailable := v)
  }

  /** `prev.map(item => item.id === updated.id ? updated : item)`. */
  function Replaced(items: seq<MenuItem>, updated: MenuItem): (r: seq<MenuItem>)
    ensures |r| == |items|
    ensures forall i :: 0 <= i < |items| ==> r[i] == if items[i].id == updated.id then updated else items[i]
  {
    if items == [] then []
    else [if items[0].id == updated.id then updated else items[0]] + Replaced(items[1..], updated)
  }

  /** Writing back keeps every item's id in place, and writing the same copy again changes nothing. */
  lemma ReplacedKeepsIds(items: seq<MenuItem>, updated: MenuItem)
    ensures forall i :: 0 <= i < |items| ==> Replaced(items, updated)[i].id == items[i].id
    ensures Replaced(Replaced(items, updated), updated) == Replaced(items, updated)
  {
  }

  /**
   * The selected item is a snapshot: after a toggle, editing any field of a
   * selection taken before it writes the old availability back.
   */
  lemma StaleSelectionRevertsToggle(items: seq<MenuItem>, selected: MenuItem, e: Edit)
    requires !e.SetAvailable?
    ensures forall i :: 0 <= i < |items| && items[i].id == selected.id ==>
      Replaced(AvailabilityToggled(items, selected.id), Apply(selected, e))[i].isAvailable == selected.isAvailable
  {
  }

  class MenuEditor {
    var menuItems: seq<MenuItem>
    var selectedCategory: string
    var selectedItem: Option<MenuItem>
    var searchQuery: string

    /** The editor opens on the first category with nothing selected; it needs at least one category. */
    constructor (initialItems: seq<MenuItem>, categories: seq<Category>)
      requires |categories| > 0
      ensures menuItems == initialItems && selectedCategory == categories[0].id
      ensures selectedItem == None && searchQuery == ""
    {
      menuItems := initialItems;
      selectedCategory := categories[0].id;
      selectedItem := None;
      searchQuery := "";
    }

    function FilteredItems(): seq<MenuItem>
      reads this
    {
      Visible(menuItems, selectedCategory, searchQuery)
    }

    method SetSearchQuery(query: string)
      modifies this
      ensures searchQuery == query
      ensures menuItems == old(menuItems) && selectedCategory == old(selectedCategory) && selectedItem == old(selectedItem)
    {
      searchQuery := query;
    }

    method SelectCategory(id: string)
      modifies this
      ensures selectedCategory == id
      ensures menuItems == old(menuItems) && searchQuery == old(searchQuery) && selectedItem == old(selectedItem)
    {
      selectedCategory := id;
    }

    method ToggleAvailability(itemId: string)
      modifies this
      ensures menuItems == AvailabilityToggled(old(menuItems), itemId)
      ensures selectedItem == old(selectedItem)
      ensures selectedCategory == old(selectedCategory) && searchQuery == old(searchQuery)
    {
      menuItems := AvailabilityToggled(menuItems, itemId);
    }

    method SelectItem(item: MenuItem)
      modifies this
      ensures selectedItem == Some(item)
      ensures menuItems == old(menuItems) && selectedCategory == old(selectedCategory) && searchQuery == old(searchQuery)
    {
      selectedItem := Some(item);
    }

    /** `handleUpdateItem`: nothing happens without a selection. */
    method UpdateItem(e: Edit)
      modifies this
      ensures old(selectedItem).None? ==> selectedItem == None && menuItems == old(menuItems)
      ensures old(selectedItem).Some? ==>
        selectedItem == Some(Apply(old(selectedItem).value, e))
        && menuItems == Replaced(old(menuItems), Apply(old(selectedItem).value, e))
      ensures selectedCategory == old(selectedCategory) && searchQuery == old(searchQuery)
    {
      if selectedItem.None? {
        return;
      }
      var updated := Apply(selectedItem.value, e);
      selectedItem := Some(updated);
      menuItems := Replaced(menuItems, updated);
    }
  }
}
