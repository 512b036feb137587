/**
 * The customer's menu page (frontend/src/pages/CustomerMenu.tsx): the table
 * number from the `table` query parameter, the active category, the
 * preference-based recommendations and their recommended-first order, and
 * the "Place Order" handler that ties the cart to the order store.
 */
module CustomerMenu {
  import opened Wrappers
  import opened MenuTypes
  import Seqs
  import Strings
  import Onboarding
  import CartContext
  import OrderContext

  /** `tableFromUrl ? parseInt(tableFromUrl, 10) : fallback` (the fallback is the restaurant's configured table). */
  function TableNumber(param: Option<string>, fallback: int): (n: Num)
    ensures !Truthy(param) ==> n == Int(fallback)
    ensures Truthy(param) ==> (n.NaN? <==> Strings.ParseInt(param.value).None?)
    ensures Truthy(param) && Strings.ParseInt(param.value).Some? ==> n == Int(Strings.ParseInt(param.value).value)
  {
    if Truthy(param) then
      match Strings.ParseInt(param.value)
      case Some(v) => Int(v)
      case None => NaN
    else Int(fallback)
  }

  /** The category effect: once categories arrive, an unset active category becomes the first one. */
  function InitialCategory(categories: seq<Category>, active: string): (r: string)
    ensures active != "" ==> r == active
    ensures active == "" && |categories| > 0 ==> r == categories[0].id
  {
    if |categories| > 0 && active == "" then categories[0].id else active
  }

  /** Running the effect again changes nothing. */
  lemma InitialCategorySettles(categories: seq<Category>, active: string)
    ensures InitialCategory(categories, InitialCategory(categories, active)) == InitialCategory(categories, active)
  {
  }

  /** The items of the active category, in menu order. */
  function FilteredItems(items: seq<MenuItem>, active: string): (r: seq<MenuItem>)
    ensures forall m :: m in r <==> m in items && m.category == active
  {
    Seqs.Filter(items, (m: MenuItem) => m.category == active)
  }

  /** An item with its recommendation; `reason` is `None` where the source leaves the field undefined. */
  datatype Personalized = Personalized(item: MenuItem, isRecommended: bool, reason: Option<string>)

  /** The description mentions "spicy" or "chili", in any letter case. */
  predicate SpicyMatch(item: MenuItem) {
    var d := Strings.Lower(item.description);
    Strings.Contains(d, "spicy") || Strings.Contains(d, "chili")
  }

  /** The item's category field equals "Desserts". */
  predicate SweetMatch(item: MenuItem) {
    item.category == "Desserts"
  }

  /**
   * The score of one item: two points each for a vegetarian match, a spicy
   * match and a dessert match; a vegetarian diner's non-vegetarian items are
   * returned at once, unrecommended and without a reason. The later rule's
   * reason wins.
   */
  function Personalize(prefs: Option<Onboarding.Preferences>, item: MenuItem): (r: Personalized)
    ensures r.item == item
    ensures prefs.None? ==> !r.isRecommended && r.reason == Some("")
    ensures prefs.Some? && prefs.value.isVeg && !item.isVeg ==> !r.isRecommended && r.reason.None?
    ensures r.reason.None? ==> prefs.Some? && prefs.value.isVeg && !item.isVeg
  {
    match prefs
    case None => Personalized(item, false, Some(""))
    case Some(p) =>
      if p.isVeg && !item.isVeg then Personalized(item, false, None)
      else
        var score0 := if p.isVeg && item.isVeg then 2 else 0;
        var spicy := p.spicyLover && SpicyMatch(item);
        var score1 := if spicy then score0 + 2 else score0;
        var reason1 := if spicy then "Spicy pick" else "";
        var sweet := p.sweetTooth && SweetMatch(item);
        var score2 := if sweet then score1 + 2 else score1;
        var reason2 := if sweet then "For your sweet tooth" else reason1;
        Personalized(item, score2 >= 2, Some(reason2))
  }

  /** Which rules fire for a diner's preferences. */
  predicate AnyRuleFires(p: Onboarding.Preferences, item: MenuItem) {
    (p.isVeg && item.isVeg) || (p.spicyLover && SpicyMatch(item)) || (p.sweetTooth && SweetMatch(item))
  }

  /**
   * An item is recommended exactly when the diner has preferences, the
   * vegetarian filter lets it through, and at least one rule fires; a
   * vegetarian diner is never recommended a non-vegetarian item.
   */
  lemma RecommendedIff(prefs: Option<Onboarding.Preferences>, item: MenuItem)
    ensures Personalize(prefs, item).item == item
    ensures Personalize(prefs, item).isRecommended <==>
      prefs.Some? && !(prefs.value.isVeg && !item.isVeg) && AnyRuleFires(prefs.value, item)
    ensures prefs.Some? && prefs.value.isVeg && Personalize(prefs, item).isRecommended ==> item.isVeg
  {
  }

  /** `recommendationReason || "Recommended"`: the text of the badge on a recommended item. */
  function BadgeText(p: Personalized): (r: string)
    ensures r != ""
    ensures Truthy(p.reason) ==> r == p.reason.value
    ensures !Truthy(p.reason) ==> r == "Recommended"
  {
    if Truthy(p.reason) then p.reason.value else "Recommended"
  }

  /** A dessert match names the sweet tooth even when the item is also spicy; a vegetarian-only match shows the generic text. */
  lemma BadgeReasons(p: Onboarding.Preferences, item: MenuItem)
    requires Personalize(Some(p), item).isRecommended
    ensures BadgeText(Personalize(Some(p), item)) ==
      if p.sweetTooth && SweetMatch(item) then "For your sweet tooth"
      else if p.spicyLover && SpicyMatch(item) then "Spicy pick"
      else "Recommended"
  {
  }

  function PersonalizeAll(prefs: Option<Onboarding.Preferences>, items: seq<MenuItem>): (r: seq<Personalized>)
    ensures |r| == |items|
    ensures forall i :: 0 <= i < |items| ==> r[i] == Personalize(prefs, items[i])
  {
    if items == [] then [] else [Personalize(prefs, items[0])] + PersonalizeAll(prefs, items[1..])
  }

  predicate IsRecommended(p: Personalized) {
    p.isRecommended
  }

  predicate NotRecommended(p: Personalized) {
    !p.isRecommended
  }

  /**
   * `sort((a, b) => (b.isRecommended ? 1 : 0) - (a.isRecommended ? 1 : 0))`.
   * The sort is stable and its key has two values, so its result is the
   * recommended items followed by the others, each group in its old order.
   */
  function RecommendedFirst(ps: seq<Personalized>): (r: seq<Personalized>)
    ensures |r| == |ps|
  {
    Seqs.FilterSplit(ps, IsRecommended, NotRecommended);
    Seqs.Filter(ps, IsRecommended) + Seqs.Filter(ps, NotRecommended)
  }

  /** The order is a permutation that puts every recommended item before every other one and keeps each group's order. */
  lemma RecommendedFirstSorts(ps: seq<Personalized>)
    ensures multiset(RecommendedFirst(ps)) == multiset(ps)
    ensures forall i, j :: 0 <= i < j < |RecommendedFirst(ps)| && RecommendedFirst(ps)[j].isRecommended ==>
      RecommendedFirst(ps)[i].isRecommended
    ensures Seqs.Filter(RecommendedFirst(ps), IsRecommended) == Seqs.Filter(ps, IsRecommended)
    ensures Seqs.Filter(RecommendedFirst(ps), NotRecommended) == Seqs.Filter(ps, NotRecommended)
  {
    var rec := Seqs.Filter(ps, IsRecommended);
    var other := Seqs.Filter(ps, NotRecommended);
    Seqs.FilterSplit(ps, IsRecommended, NotRecommended);
    GroupsOrdered(rec, other);
    GroupsFiltered(rec, other);
  }

  /** A recommended group followed by an unrecommended one has no unrecommended entry before a recommended one. */
  lemma GroupsOrdered(rec: seq<Personalized>, other: seq<Personalized>)
    requires forall p :: p in rec ==> p.isRecommended
    requires forall p :: p in other ==> !p.isRecommended
    ensures forall i, j :: 0 <= i < j < |rec + other| && (rec + other)[j].isRecommended ==> (rec + other)[i].isRecommended
  {
    var r := rec + other;
    forall k | 0 <= k < |r| ensures r[k].isRecommended <==> k < |rec| {
      if k < |rec| {
        assert r[k] == rec[k] && r[k] in rec;
      } else {
        assert r[k] == other[k - |rec|] && r[k] in other;
      }
    }
  }

  /** Filtering the two groups back apart gives each group again. */
  lemma GroupsFiltered(rec: seq<Personalized>, other: seq<Personalized>)
    requires forall p :: p in rec ==> p.isRecommended
    requires forall p :: p in other ==> !p.isRecommended
    ensures Seqs.Filter(rec + other, IsRecommended) == rec
    ensures Seqs.Filter(rec + other, NotRecommended) == other
  {
    Seqs.FilterConcat(rec, other, IsRecommended);
    Seqs.FilterConcat(rec, other, NotRecommended);
    Seqs.FilterAll(rec, IsRecommended);
    Seqs.FilterNone(other, IsRecommended);
    Seqs.FilterNone(rec, NotRecommended);
    Seqs.FilterAll(other, NotRecommended);
    assert rec + [] == rec;
    assert [] + other == other;
  }

  /** The cards the page shows, in order. */
  function MenuShown(prefs: Option<Onboarding.Preferences>, items: seq<MenuItem>, active: string): seq<Personalized> {
    RecommendedFirst(PersonalizeAll(prefs, FilteredItems(items, active)))
  }

  /** A diner without preferences sees the active category in menu order, with no badge. */
  lemma NoPreferencesPlainMenu(items: seq<MenuItem>, active: string)
    ensures MenuShown(None, items, active) == PersonalizeAll(None, FilteredItems(items, active))
    ensures forall p :: p in MenuShown(None, items, active) ==> !p.isRecommended
  {
    var ps := PersonalizeAll(None, FilteredItems(items, active));
    forall p | p in ps ensures !IsRecommended(p) && NotRecommended(p) {
      var k :| 0 <= k < |ps| && ps[k] == p;
    }
    Seqs.FilterNone(ps, IsRecommended);
    Seqs.FilterAll(ps, NotRecommended);
    assert MenuShown(None, items, active) == [] + ps;
  }

  /** What "Place Order" ended in. */
  datatype PlaceOutcome = NothingToPlace | LoginRedirect(target: string) | OrderPlaced(order: Order) | NotPlaced

  class MenuPage {
    var activeCategory: string
    var showCart: bool
    var navigatedTo: Option<string>

    constructor ()
      ensures activeCategory == "" && !showCart && navigatedTo == None
    {
      activeCategory := "";
      showCart := false;
      navigatedTo := None;
    }

    /** The category effect, run when the categories change. */
    method SyncCategory(categories: seq<Category>)
      modifies this
      ensures activeCategory == InitialCategory(categories, old(activeCategory))
      ensures showCart == old(showCart) && navigatedTo == old(navigatedTo)
    {
      if |categories| > 0 && activeCategory == "" {
        activeCategory := categories[0].id;
      }
    }

    /** A category tab. */
    method SelectCategory(id: string)
      modifies this
      ensures activeCategory == id
      ensures showCart == old(showCart) && navigatedTo == old(navigatedTo)
    {
      activeCategory := id;
    }

    /**
     * `handlePlaceOrder`: an empty cart does nothing; a guest is sent to the
     * login page with the return path (given here already URI-encoded); a
     * signed-in diner's cart is sent as it stands, and only an order that
     * comes back clears the cart, closes the sheet and opens the status page.
     */
    method HandlePlaceOrder(cart: CartContext.Cart, store: OrderContext.OrderStore, signedIn: bool,
                            tableNumber: Num, encodedReturnPath: string,
                            newOrderId: string, faults: OrderContext.Faults, refetchFails: bool)
      returns (outcome: PlaceOutcome)
      modifies this, cart, store
      ensures old(cart.items) == [] ==> outcome == NothingToPlace
      ensures old(cart.items) != [] && !signedIn ==> outcome == LoginRedirect("/login?redirectTo=" + encodedReturnPath)
      ensures outcome.NothingToPlace? || outcome.LoginRedirect? ==>
        cart.items == old(cart.items) && cart.stored == old(cart.stored) && showCart == old(showCart)
        && store.orderRows == old(store.orderRows) && store.itemRows == old(store.itemRows)
        && store.modifierRows == old(store.modifierRows) && store.orders == old(store.orders)
        && store.currentOrder == old(store.currentOrder) && store.isLoading == old(store.isLoading)
      ensures outcome.NothingToPlace? ==> navigatedTo == old(navigatedTo)
      ensures outcome.LoginRedirect? ==> navigatedTo == Some(outcome.target)
      ensures old(cart.items) != [] && signedIn ==>
        (outcome.OrderPlaced? <==> OrderContext.Placed(store.restaurantConfigured, store.tables, tableNumber, old(cart.items), faults))
      ensures old(cart.items) != [] && signedIn ==> outcome.OrderPlaced? || outcome.NotPlaced?
      ensures outcome.OrderPlaced? ==>
        outcome.order == Order(newOrderId, tableNumber, old(cart.items), Pending, old(cart.Subtotal()), old(cart.Tax()), old(cart.Total()))
        && store.currentOrder == Some(outcome.order)
        && cart.items == [] && cart.stored == CartContext.Parsed([])
        && !showCart && navigatedTo == Some("/order-status")
        && !store.isLoading
        && store.orders == (if !refetchFails && store.Fetched().Some? then store.Fetched().value else old(store.orders))
      ensures outcome.NotPlaced? ==>
        cart.items == old(cart.items) && cart.stored == old(cart.stored)
        && showCart == old(showCart) && navigatedTo == old(navigatedTo)
        && store.currentOrder == old(store.currentOrder) && store.orders == old(store.orders)
        && store.isLoading == old(store.isLoading)
      ensures outcome.OrderPlaced? || outcome.NotPlaced? ==>
        var inserted := OrderContext.OrderInserted(store.restaurantConfigured, store.tables, tableNumber, faults);
        && store.orderRows == (if inserted
             then [OrderContext.OrderRow(newOrderId, OrderContext.ResolveTable(store.tables, tableNumber).value, Pending, old(cart.Total()))] + old(store.orderRows)
             else old(store.orderRows))
        && store.itemRows == (if inserted
             then old(store.itemRows) + OrderContext.ItemRowsWritten(newOrderId, old(cart.items), faults)
             else old(store.itemRows))
        && store.modifierRows == (if inserted
             then old(store.modifierRows) + OrderContext.ModifierRowsUpTo(newOrderId, old(cart.items), OrderContext.FirstFailure(old(cart.items), faults, 0))
             else old(store.modifierRows))
      ensures activeCategory == old(activeCategory)
    {
      if |cart.items| == 0 {
        return NothingToPlace;
      }
      if !signedIn {
        navigatedTo := Some("/login?redirectTo=" + encodedReturnPath);
        return LoginRedirect("/login?redirectTo=" + encodedReturnPath);
      }
      var placed := store.PlaceOrder(tableNumber, cart.items, cart.Subtotal(), cart.Tax(), cart.Total(),
                                     newOrderId, faults, refetchFails);
      if placed.Some? {
        cart.ClearCart();
        showCart := false;
        navigatedTo := Some("/order-status");
        outcome := OrderPlaced(placed.value);
      } else {
        outcome := NotPlaced;
      }
    }
  }
}
