/**
 * The menu loader (frontend/src/hooks/useMenu.ts): five queries in sequence
 * (categories, available items, item-to-modifier links, modifier groups,
 * modifier options), the first failure ending the load with its message,
 * and the rows turned into the `Category` and `MenuItem` values the
 * customer pages use, each option of each linked group becoming an add-on.
 * The query results are inputs; filtering by restaurant, availability and
 * id lists happens in the database and is taken as given.
 */
module UseMenu {
  import opened Wrappers
  import opened MenuTypes
  import CustomerMenu

  datatype CategoryRow = CategoryRow(id: string, name: string)

  /** A `menu_items` row; `veg` is `dietary_info?.isVeg`, absent when the field or the object is missing. */
  datatype ItemRow = ItemRow(id: string, name: string, description: string, price: real, imageUrl: string,
                             categoryId: string, veg: Option<bool>, isAvailable: bool)

  datatype LinkRow = LinkRow(menuItemId: string, modifierId: string)

  /** A `modifiers` row; the group name may be null. */
  datatype ModifierRow = ModifierRow(id: string, name: Option<string>)

  datatype OptionRow = OptionRow(id: string, modifierId: string, name: string, priceAdjustment: real)

  /** What a query came back with: its rows, or an error carrying a message. */
  datatype Query<T> = Rows(rows: seq<T>) | Failed(message: string)

  const NotConfiguredMessage := "Restaurant ID not configured"

  function LinkModifierIds(links: seq<LinkRow>): (r: seq<string>)
    ensures |r| == |links|
    ensures forall k :: 0 <= k < |links| ==> r[k] == links[k].modifierId
  {
    if links == [] then [] else [links[0].modifierId] + LinkModifierIds(links[1..])
  }

  /** `[...new Set(ids)]`: each id once, at its first position. */
  function DedupIds(ids: seq<string>): (r: seq<string>)
    ensures |r| <= |ids|
  {
    if ids == [] then []
    else
      var init := DedupIds(ids[..|ids| - 1]);
      if ids[|ids| - 1] in init then init else init + [ids[|ids| - 1]]
  }

  /** The set keeps every id and repeats none, so it is empty only when there were no links. */
  lemma {:induction false} DedupIdsCorrect(ids: seq<string>)
    ensures forall x :: x in DedupIds(ids) <==> x in ids
    ensures forall i, j :: 0 <= i < j < |DedupIds(ids)| ==> DedupIds(ids)[i] != DedupIds(ids)[j]
    ensures DedupIds(ids) == [] <==> ids == []
  {
    if ids != [] {
      var init := ids[..|ids| - 1];
      DedupIdsCorrect(init);
      assert ids == init + [ids[|ids| - 1]];
    }
  }

  /** `modData.forEach(m => modifiersMap.set(m.id, m.name))`, as a function of the rows. */
  function GroupNames(mods: seq<ModifierRow>): map<string, Option<string>> {
    if mods == [] then map[] else GroupNames(mods[..|mods| - 1])[mods[|mods| - 1].id := mods[|mods| - 1].name]
  }

  /** Some row is for group `id`. */
  predicate RowFor(mods: seq<ModifierRow>, id: string) {
    exists k :: 0 <= k < |mods| && mods[k].id == id
  }

  /** The last row for group `id` carries `name`. */
  predicate LastRowNames(mods: seq<ModifierRow>, id: string, name: Option<string>) {
    exists k :: 0 <= k < |mods| && mods[k].id == id && mods[k].name == name
      && forall j :: k < j < |mods| ==> mods[j].id != id
  }

  lemma RowForSnoc(init: seq<ModifierRow>, last: ModifierRow, id: string)
    ensures RowFor(init + [last], id) <==> RowFor(init, id) || last.id == id
  {
    var mods := init + [last];
    if RowFor(init, id) {
      var k :| 0 <= k < |init| && init[k].id == id;
      assert mods[k] == init[k];
    }
    if last.id == id {
      assert mods[|init|] == last;
    }
    if RowFor(mods, id) && last.id != id {
      var k :| 0 <= k < |mods| && mods[k].id == id;
      assert k < |init| && init[k] == mods[k];
    }
  }

  lemma LastRowNamesSnoc(init: seq<ModifierRow>, last: ModifierRow, id: string, name: Option<string>)
    requires id != last.id && LastRowNames(init, id, name)
    ensures LastRowNames(init + [last], id, name)
  {
    var mods := init + [last];
    var k :| 0 <= k < |init| && init[k].id == id && init[k].name == name
      && forall j :: k < j < |init| ==> init[j].id != id;
    assert mods[k] == init[k];
    assert forall j :: k < j < |init| ==> mods[j] == init[j];
    assert mods[|init|] == last;
  }

  lemma LastRowNamesLast(init: seq<ModifierRow>, last: ModifierRow)
    ensures LastRowNames(init + [last], last.id, last.name)
  {
    assert (init + [last])[|init|] == last;
  }

  /** The map has every group id, and for a repeated id the last row's name. */
  lemma {:induction false} GroupNamesLastWins(mods: seq<ModifierRow>)
    ensures forall id :: id in GroupNames(mods) <==> RowFor(mods, id)
    ensures forall id :: id in GroupNames(mods) ==> LastRowNames(mods, id, GroupNames(mods)[id])
  {
    if mods != [] {
      var init := mods[..|mods| - 1];
      var last := mods[|mods| - 1];
      assert mods == init + [last];
      GroupNamesLastWins(init);
      var g := GroupNames(mods);
      assert g == GroupNames(init)[last.id := last.name];
      forall id ensures id in g <==> RowFor(mods, id) {
        RowForSnoc(init, last, id);
      }
      forall id | id in g ensures LastRowNames(mods, id, g[id]) {
        if id == last.id {
          LastRowNamesLast(init, last);
        } else {
          LastRowNamesSnoc(init, last, id, GroupNames(init)[id]);
        }
      }
    }
  }

  /** The loop that fills `modifiersMap`. */
  method BuildGroupNames(mods: seq<ModifierRow>) returns (m: map<string, Option<string>>)
    ensures m == GroupNames(mods)
  {
    m := map[];
    var i := 0;
    while i < |mods|
      invariant 0 <= i <= |mods|
      invariant m == GroupNames(mods[..i])
    {
      assert mods[..i + 1][..i] == mods[..i];
      m := m[mods[i].id := mods[i].name];
      i := i + 1;
    }
    assert mods[..i] == mods;
  }

  /** `modifiersMap.get(modId)`: undefined for an unknown group or a null name. */
  function GroupLabel(groups: map<string, Option<string>>, modId: string): Option<string> {
    if modId in groups then groups[modId] else None
  }

  /** `${groupName ? groupName + ': ' : ''}${opt.name}`. */
  function AddOnName(groupName: Option<string>, optionName: string): (r: string)
    ensures !Truthy(groupName) ==> r == optionName
    ensures Truthy(groupName) ==> groupName.value + ": " <= r
    ensures |r| >= |optionName| && r[|r| - |optionName|..] == optionName
  {
    if Truthy(groupName) then groupName.value + ": " + optionName else optionName
  }

  function OptionAddOn(groupName: Option<string>, o: OptionRow): AddOn {
    AddOn(o.id, AddOnName(groupName, o.name), o.priceAdjustment)
  }

  /** `allOptions.filter(o => o.modifier_id === modId)`. */
  function OptionsOf(options: seq<OptionRow>, modId: string): (r: seq<OptionRow>)
    ensures forall o :: o in r <==> o in options && o.modifierId == modId
  {
    if options == [] then []
    else (if options[0].modifierId == modId then [options[0]] else []) + OptionsOf(options[1..], modId)
  }

  /** The add-ons one group contributes, one per option. */
  function GroupAddOns(groupName: Option<string>, opts: seq<OptionRow>): seq<AddOn> {
    if opts == [] then [] else GroupAddOns(groupName, opts[..|opts| - 1]) + [OptionAddOn(groupName, opts[|opts| - 1])]
  }

  /** The add-ons of an item linked to the groups `modIds`, group after group. */
  function AddOnsFor(modIds: seq<string>, groups: map<string, Option<string>>, options: seq<OptionRow>): seq<AddOn> {
    if modIds == [] then []
    else
      var m := modIds[|modIds| - 1];
      AddOnsFor(modIds[..|modIds| - 1], groups, options) + GroupAddOns(GroupLabel(groups, m), OptionsOf(options, m))
  }

  /** The nested `forEach` that pushes one add-on per option of each linked group. */
  method FlattenAddOns(modIds: seq<string>, groups: map<string, Option<string>>, options: seq<OptionRow>)
    returns (addOns: seq<AddOn>)
    ensures addOns == AddOnsFor(modIds, groups, options)
  {
    addOns := [];
    var i := 0;
    while i < |modIds|
      invariant 0 <= i <= |modIds|
      invariant addOns == AddOnsFor(modIds[..i], groups, options)
    {
      var groupName := GroupLabel(groups, modIds[i]);
      var opts := OptionsOf(options, modIds[i]);
      addOns := PushOptions(addOns, groupName, opts);
      var done := modIds[..i + 1];
      assert done[..|done| - 1] == modIds[..i] && done[|done| - 1] == modIds[i];
      i := i + 1;
    }
    assert modIds[..i] == modIds;
  }

  /** The inner `options.forEach(opt => itemAddOns.push(...))`. */
  method PushOptions(addOns: seq<AddOn>, groupName: Option<string>, opts: seq<OptionRow>) returns (r: seq<AddOn>)
    ensures r == addOns + GroupAddOns(groupName, opts)
  {
    r := addOns;
    var j := 0;
    while j < |opts|
      invariant 0 <= j <= |opts|
      invariant r == addOns + GroupAddOns(groupName, opts[..j])
    {
      assert opts[..j + 1][..j] == opts[..j];
      r := r + [OptionAddOn(groupName, opts[j])];
      j := j + 1;
    }
    assert opts[..j] == opts;
  }

  /** Every add-on of a group is one of that group's options, priced at its adjustment. */
  lemma {:induction false} GroupAddOnsFromOptions(groupName: Option<string>, opts: seq<OptionRow>)
    ensures forall a :: a in GroupAddOns(groupName, opts) ==>
      exists o :: o in opts && a == OptionAddOn(groupName, o)
  {
    if opts != [] {
      var init := opts[..|opts| - 1];
      GroupAddOnsFromOptions(groupName, init);
      forall a | a in GroupAddOns(groupName, opts) ensures exists o :: o in opts && a == OptionAddOn(groupName, o) {
        if a in GroupAddOns(groupName, init) {
          var o :| o in init && a == OptionAddOn(groupName, o);
          assert o in opts;
        } else {
          assert opts[|opts| - 1] in opts;
        }
      }
    }
  }

  /** Every add-on an item gets is an option of one of its linked groups, with that option's id and price. */
  lemma {:induction false} AddOnsFromLinkedOptions(modIds: seq<string>, groups: map<string, Option<string>>, options: seq<OptionRow>)
    ensures forall a :: a in AddOnsFor(modIds, groups, options) ==>
      exists o :: o in options && o.modifierId in modIds && a.id == o.id && a.price == o.priceAdjustment
        && a.name == AddOnName(GroupLabel(groups, o.modifierId), o.name)
  {
    if modIds != [] {
      var init := modIds[..|modIds| - 1];
      var m := modIds[|modIds| - 1];
      AddOnsFromLinkedOptions(init, groups, options);
      GroupAddOnsFromOptions(GroupLabel(groups, m), OptionsOf(options, m));
      forall a | a in AddOnsFor(modIds, groups, options)
        ensures exists o :: (o in options && o.modifierId in modIds && a.id == o.id && a.price == o.priceAdjustment
          && a.name == AddOnName(GroupLabel(groups, o.modifierId), o.name))
      {
        if a in AddOnsFor(init, groups, options) {
          var o :| o in options && o.modifierId in init && a.id == o.id && a.price == o.priceAdjustment
            && a.name == AddOnName(GroupLabel(groups, o.modifierId), o.name);
          assert o.modifierId in modIds;
        } else {
          var o :| o in OptionsOf(options, m) && a == OptionAddOn(GroupLabel(groups, m), o);
          assert o.modifierId == m && m in modIds;
        }
      }
    }
  }

  /** Links are not deduplicated per item: a group linked twice contributes its options twice. */
  lemma DoubleLinkRepeatsOptions(modIds: seq<string>, m: string, groups: map<string, Option<string>>, options: seq<OptionRow>)
    ensures AddOnsFor(modIds + [m, m], groups, options)
      == AddOnsFor(modIds, groups, options)
         + GroupAddOns(GroupLabel(groups, m), OptionsOf(options, m))
         + GroupAddOns(GroupLabel(groups, m), OptionsOf(options, m))
  {
    var twice := modIds + [m, m];
    assert twice[..|twice| - 1] == modIds + [m];
    assert (modIds + [m])[..|modIds|] == modIds;
  }

  /** `mimData.filter(m => m.menu_item_id === itemId).map(m => m.modifier_id)`. */
  function ModIdsFor(links: seq<LinkRow>, itemId: string): (r: seq<string>)
    ensures forall m :: m in r <==> LinkRow(itemId, m) in links
  {
    if links == [] then []
    else
      assert links == [links[0]] + links[1..];
      (if links[0].menuItemId == itemId then [links[0].modifierId] else []) + ModIdsFor(links[1..], itemId)
  }

  /** One `MenuItem` built from its row and its add-ons. */
  function ItemOf(row: ItemRow, addOns: seq<AddOn>): MenuItem {
    MenuItem(row.id, row.name, row.description, row.price, row.imageUrl, row.categoryId,
             row.veg == Some(true), row.isAvailable, Some(addOns))
  }

  /** The item a row becomes, with the add-ons of its linked groups. */
  function BuiltItem(row: ItemRow, links: seq<LinkRow>, groups: map<string, Option<string>>, options: seq<OptionRow>): MenuItem {
    ItemOf(row, AddOnsFor(ModIdsFor(links, row.id), groups, options))
  }

  /** `itemsData.map(...)`. */
  function ItemsOf(rows: seq<ItemRow>, links: seq<LinkRow>, groups: map<string, Option<string>>, options: seq<OptionRow>)
    : (r: seq<MenuItem>)
    ensures |r| == |rows|
    ensures forall i :: 0 <= i < |rows| ==> r[i] == BuiltItem(rows[i], links, groups, options)
  {
    if rows == [] then []
    else ItemsOf(rows[..|rows| - 1], links, groups, options) + [BuiltItem(rows[|rows| - 1], links, groups, options)]
  }

  /** One more row maps to one more item at the end. */
  lemma ItemsOfStep(rows: seq<ItemRow>, i: nat, links: seq<LinkRow>, groups: map<string, Option<string>>, options: seq<OptionRow>)
    requires i < |rows|
    ensures ItemsOf(rows[..i + 1], links, groups, options)
         == ItemsOf(rows[..i], links, groups, options) + [BuiltItem(rows[i], links, groups, options)]
  {
    var done := rows[..i + 1];
    assert done[..|done| - 1] == rows[..i] && done[|done| - 1] == rows[i];
  }

  method MapItems(rows: seq<ItemRow>, links: seq<LinkRow>, groups: map<string, Option<string>>, options: seq<OptionRow>)
    returns (items: seq<MenuItem>)
    ensures items == ItemsOf(rows, links, groups, options)
  {
    items := [];
    var i := 0;
    while i < |rows|
      invariant 0 <= i <= |rows|
      invariant items == ItemsOf(rows[..i], links, groups, options)
    {
      var modIds := ModIdsFor(links, rows[i].id);
      var addOns := FlattenAddOns(modIds, groups, options);
      ItemsOfStep(rows, i, links, groups, options);
      items := items + [ItemOf(rows[i], addOns)];
      i := i + 1;
    }
    assert rows[..i] == rows;
  }

  function CategoriesOf(rows: seq<CategoryRow>): (r: seq<Category>)
    ensures |r| == |rows|
    ensures forall i :: 0 <= i < |rows| ==> r[i] == Category(rows[i].id, rows[i].name)
  {
    if rows == [] then [] else [Category(rows[0].id, rows[0].name)] + CategoriesOf(rows[1..])
  }

  datatype LoadResult = Loaded(categories: seq<Category>, items: seq<MenuItem>) | LoadError(message: string)

  /** The modifier ids the group and option queries ask for. */
  function QueriedModifiers(links: seq<LinkRow>): seq<string> {
    DedupIds(LinkModifierIds(links))
  }

  /** What a configured load ends in, given what each query returns. */
  function MenuLoad(cats: Query<CategoryRow>, items: Query<ItemRow>, links: Query<LinkRow>,
                    mods: Query<ModifierRow>, opts: Query<OptionRow>): (r: LoadResult)
    ensures cats.Failed? ==> r == LoadError(cats.message)
    ensures r.Loaded? ==> cats.Rows? && items.Rows? && links.Rows?
    ensures r.Loaded? ==> r.categories == CategoriesOf(cats.rows)
  {
    if cats.Failed? then LoadError(cats.message)
    else if items.Failed? then LoadError(items.message)
    else if links.Failed? then LoadError(links.message)
    else
      var ask := QueriedModifiers(links.rows) != [];
      if ask && mods.Failed? then LoadError(mods.message)
      else if ask && opts.Failed? then LoadError(opts.message)
      else
        var groups := if ask then GroupNames(mods.rows) else map[];
        var options := if ask then opts.rows else [];
        Loaded(CategoriesOf(cats.rows), ItemsOf(items.rows, links.rows, groups, options))
  }

  /**
   * A load fails exactly when one of the queries it makes fails, with the
   * first failure's message; the group and option queries are made only
   * when some item has a link.
   */
  lemma LoadFailsOnFirstFailure(cats: Query<CategoryRow>, items: Query<ItemRow>, links: Query<LinkRow>,
                                mods: Query<ModifierRow>, opts: Query<OptionRow>)
    ensures MenuLoad(cats, items, links, mods, opts).LoadError? <==>
      cats.Failed? || items.Failed? || links.Failed? || (links.rows != [] && (mods.Failed? || opts.Failed?))
    ensures cats.Failed? ==> MenuLoad(cats, items, links, mods, opts) == LoadError(cats.message)
    ensures cats.Rows? && items.Failed? ==> MenuLoad(cats, items, links, mods, opts) == LoadError(items.message)
    ensures cats.Rows? && items.Rows? && links.Failed? ==> MenuLoad(cats, items, links, mods, opts) == LoadError(links.message)
  {
    if links.Rows? {
      DedupIdsCorrect(LinkModifierIds(links.rows));
    }
  }

  /** With no links the group and option queries are not made, so their results do not matter. */
  lemma NoLinksNoModifierQueries(cats: Query<CategoryRow>, items: Query<ItemRow>, links: Query<LinkRow>,
                                 mods1: Query<ModifierRow>, opts1: Query<OptionRow>,
                                 mods2: Query<ModifierRow>, opts2: Query<OptionRow>)
    requires links == Rows([])
    ensures MenuLoad(cats, items, links, mods1, opts1) == MenuLoad(cats, items, links, mods2, opts2)
  {
  }

  /**
   * A loaded menu has one item per row, in row order, with the row's id,
   * price and category id, vegetarian only when the dietary flag is true,
   * and add-ons drawn from the options of the item's linked groups.
   */
  lemma LoadedItemsFollowRows(cats: Query<CategoryRow>, items: Query<ItemRow>, links: Query<LinkRow>,
                              mods: Query<ModifierRow>, opts: Query<OptionRow>)
    requires MenuLoad(cats, items, links, mods, opts).Loaded?
    ensures var m := MenuLoad(cats, items, links, mods, opts).items;
      |m| == |items.rows|
      && forall i :: 0 <= i < |m| ==>
        m[i].id == items.rows[i].id && m[i].price == items.rows[i].price
        && m[i].category == items.rows[i].categoryId
        && (m[i].isVeg <==> items.rows[i].veg == Some(true))
        && m[i].addOns.Some?
        && forall a :: a in m[i].addOns.value ==>
             exists o: OptionRow, k: int :: 0 <= k < |links.rows| && links.rows[k].menuItemId == items.rows[i].id
               && o.modifierId == links.rows[k].modifierId && a.id == o.id && a.price == o.priceAdjustment
  {
    var ask := QueriedModifiers(links.rows) != [];
    var groups := if ask then GroupNames(mods.rows) else map[];
    var options := if ask then opts.rows else [];
    var m := MenuLoad(cats, items, links, mods, opts).items;
    forall i | 0 <= i < |m|
      ensures forall a :: a in m[i].addOns.value ==>
        exists o: OptionRow, k: int :: 0 <= k < |links.rows| && links.rows[k].menuItemId == items.rows[i].id
          && o.modifierId == links.rows[k].modifierId && a.id == o.id && a.price == o.priceAdjustment
    {
      var modIds := ModIdsFor(links.rows, items.rows[i].id);
      AddOnsFromLinkedOptions(modIds, groups, options);
      forall a | a in m[i].addOns.value
        ensures exists o: OptionRow, k: int :: (0 <= k < |links.rows| && links.rows[k].menuItemId == items.rows[i].id
          && o.modifierId == links.rows[k].modifierId && a.id == o.id && a.price == o.priceAdjustment)
      {
        var o :| o in options && o.modifierId in modIds && a.id == o.id && a.price == o.priceAdjustment
          && a.name == AddOnName(GroupLabel(groups, o.modifierId), o.name);
        var k :| 0 <= k < |links.rows| && links.rows[k] == LinkRow(items.rows[i].id, o.modifierId);
      }
    }
  }

  /**
   * The category of a loaded item is its category id, so the diner menu's
   * sweet-tooth rule, which compares the category with "Desserts", fires
   * only for an item whose category id is literally that text.
   */
  lemma SweetRuleSeesCategoryId(row: ItemRow, addOns: seq<AddOn>)
    ensures CustomerMenu.SweetMatch(ItemOf(row, addOns)) <==> row.categoryId == "Desserts"
  {
  }

  class MenuLoader {
    var categories: seq<Category>
    var menuItems: seq<MenuItem>
    var isLoading: bool
    var error: Option<string>

    constructor ()
      ensures categories == [] && menuItems == [] && isLoading && error == None
    {
      categories := [];
      menuItems := [];
      isLoading := true;
      error := None;
    }

    /**
     * `fetchMenu`: without a configured restaurant the load stops with an
     * error before any query; otherwise the state follows `MenuLoad`. The
     * loading flag is off afterwards either way, and an error leaves the
     * lists as they were.
     */
    method FetchMenu(configured: bool, cats: Query<CategoryRow>, items: Query<ItemRow>, links: Query<LinkRow>,
                     mods: Query<ModifierRow>, opts: Query<OptionRow>)
      modifies this
      ensures !isLoading
      ensures !configured ==> error == Some(NotConfiguredMessage)
      ensures configured && MenuLoad(cats, items, links, mods, opts).LoadError? ==>
        error == Some(MenuLoad(cats, items, links, mods, opts).message)
      ensures !configured || MenuLoad(cats, items, links, mods, opts).LoadError? ==>
        categories == old(categories) && menuItems == old(menuItems)
      ensures configured && MenuLoad(cats, items, links, mods, opts).Loaded? ==>
        categories == MenuLoad(cats, items, links, mods, opts).categories
        && menuItems == MenuLoad(cats, items, links, mods, opts).items
        && error == old(error)
    {
      if !configured {
        error := Some(NotConfiguredMessage);
        isLoading := false;
        return;
      }
      isLoading := true;
      if cats.Failed? {
        error := Some(cats.message);
        isLoading := false;
        return;
      }
      if items.Failed? {
        error := Some(items.message);
        isLoading := false;
        return;
      }
      if links.Failed? {
        error := Some(links.message);
        isLoading := false;
        return;
      }
      var modifierIds := DedupIds(LinkModifierIds(links.rows));
      var groups: map<string, Option<string>> := map[];
      var options: seq<OptionRow> := [];
      if |modifierIds| > 0 {
        if mods.Failed? {
          error := Some(mods.message);
          isLoading := false;
          return;
        }
        groups := BuildGroupNames(mods.rows);
        if opts.Failed? {
          error := Some(opts.message);
          isLoading := false;
          return;
        }
        options := opts.rows;
      }
      var mapped := MapItems(items.rows, links.rows, groups, options);
      categories := CategoriesOf(cats.rows);
      menuItems := mapped;
      isLoading := false;
    }
  }
}
