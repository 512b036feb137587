/**
 * New-order alerts on the kitchen screen
 * (frontend/src/hooks/useOrderNotifications.ts): each time the order list
 * is seen, the ids of the orders the kitchen works on are compared with
 * those seen the time before; new ones raise a sound and one toast per
 * order. Playing the sound and showing toasts are returned as values.
 */
module OrderNotifications {
  import opened MenuTypes
  import Seqs
  import Strings
  import KitchenDisplay

  /** The orders the hook watches: accepted or preparing. */
  predicate IsActive(o: Order) {
    o.status == Accepted || o.status == Preparing
  }

  /** The ids of the orders, in order. */
  function IdsOf(orders: seq<Order>): (r: seq<string>)
    ensures |r| == |orders|
    ensures forall k :: 0 <= k < |orders| ==> r[k] == orders[k].id
  {
    if orders == [] then [] else [orders[0].id] + IdsOf(orders[1..])
  }

  /** `currentOrderIds`. */
  function CurrentIds(orders: seq<Order>): seq<string> {
    IdsOf(Seqs.Filter(orders, IsActive))
  }

  /** `newOrders`: the current ids the previous evaluation did not see, in order. */
  function NewIds(current: seq<string>, previous: seq<string>): (r: seq<string>)
    ensures forall id :: id in r <==> id in current && id !in previous
  {
    Seqs.Filter(current, (id: string) => id !in previous)
  }

  /** The notification fires when something is new and this is not the first non-empty observation. */
  predicate Notifies(current: seq<string>, previous: seq<string>) {
    |NewIds(current, previous)| > 0 && |previous| > 0
  }

  datatype Toast = Toast(title: string, description: string)

  /** The toast for one new order: its table and its number of lines. */
  function ToastFor(o: Order): Toast {
    var n := |o.items|;
    Toast("\U{1F514} New Order - Table " + NumText(o.tableNumber),
          Strings.IntToDecimal(n) + " item" + (if n != 1 then "s" else "") + " to prepare")
  }

  function ToastsOf(orders: seq<Order>): (r: seq<Toast>)
    ensures |r| == |orders|
    ensures forall k :: 0 <= k < |orders| ==> r[k] == ToastFor(orders[k])
  {
    if orders == [] then [] else [ToastFor(orders[0])] + ToastsOf(orders[1..])
  }

  /** `newOrderDetails`: the orders, of any status, whose id is new. */
  function NewOrderDetails(orders: seq<Order>, newIds: seq<string>): seq<Order> {
    Seqs.Filter(orders, (o: Order) => o.id in newIds)
  }

  /** What one evaluation does. */
  datatype Outcome = Outcome(notified: bool, playSound: bool, toasts: seq<Toast>)

  class OrderNotifier {
    var soundEnabled: bool
    /** `previousOrdersRef.current`. */
    var previousIds: seq<string>
    /** Whether the audio element was created. */
    const audioLoaded: bool

    constructor (audioLoaded: bool)
      ensures soundEnabled && previousIds == [] && this.audioLoaded == audioLoaded
    {
      soundEnabled := true;
      previousIds := [];
      this.audioLoaded := audioLoaded;
    }

    /** One run of the effect on an order list; the ids seen are remembered whether or not anything fired. */
    method Evaluate(orders: seq<Order>) returns (out: Outcome)
      modifies this
      ensures previousIds == CurrentIds(orders)
      ensures soundEnabled == old(soundEnabled)
      ensures out.notified == Notifies(CurrentIds(orders), old(previousIds))
      ensures out.playSound == (out.notified && soundEnabled && audioLoaded)
      ensures out.toasts == if out.notified then ToastsOf(NewOrderDetails(orders, NewIds(CurrentIds(orders), old(previousIds)))) else []
    {
      var current := CurrentIds(orders);
      var newIds := NewIds(current, previousIds);
      if |newIds| > 0 && |previousIds| > 0 {
        out := Outcome(true, soundEnabled && audioLoaded, ToastsOf(NewOrderDetails(orders, newIds)));
      } else {
        out := Outcome(false, false, []);
      }
      previousIds := current;
    }

    /** `toggleSound`. */
    method ToggleSound()
      modifies this
      ensures soundEnabled == !old(soundEnabled)
      ensures previousIds == old(previousIds)
    {
      soundEnabled := !soundEnabled;
    }
  }

  /** The first observation never notifies, however many orders it sees. */
  lemma FirstObservationSilent(current: seq<string>)
    ensures !Notifies(current, [])
  {
  }

  /** Seeing the same ids again notifies nothing (as when the effect re-runs after a sound toggle). */
  lemma RepeatSilent(current: seq<string>)
    ensures NewIds(current, current) == []
    ensures !Notifies(current, current)
  {
    Seqs.FilterNone(current, (id: string) => id !in current);
  }

  /** The watched orders are exactly the kitchen screen's orders. */
  lemma WatchesKitchenOrders(orders: seq<Order>)
    ensures CurrentIds(orders) == IdsOf(KitchenDisplay.KitchenOrders(orders))
  {
    Seqs.FilterEquiv(orders, IsActive, KitchenDisplay.NeedsKitchen);
  }

  /** Filtering the ids is filtering the orders by their ids. */
  lemma {:induction false} IdsOfFilter(orders: seq<Order>, q: string -> bool, p: Order -> bool)
    requires forall o :: p(o) == q(o.id)
    ensures Seqs.Filter(IdsOf(orders), q) == IdsOf(Seqs.Filter(orders, p))
  {
    if orders != [] {
      IdsOfFilter(orders[1..], q, p);
      assert IdsOf(orders)[1..] == IdsOf(orders[1..]);
    }
  }

  /** All order ids are distinct. */
  predicate UniqueIds(orders: seq<Order>) {
    forall i, j :: 0 <= i < |orders| && 0 <= j < |orders| && orders[i].id == orders[j].id ==> i == j
  }

  /** With distinct order ids, a notification shows exactly one toast per new id. */
  lemma OneToastPerNewOrder(orders: seq<Order>, previous: seq<string>)
    requires UniqueIds(orders)
    ensures |ToastsOf(NewOrderDetails(orders, NewIds(CurrentIds(orders), previous)))|
         == |NewIds(CurrentIds(orders), previous)|
  {
    var active := Seqs.Filter(orders, IsActive);
    var newIds := NewIds(CurrentIds(orders), previous);
    var notSeen := (o: Order) => o.id !in previous;
    var both := (o: Order) => IsActive(o) && o.id !in previous;
    IdsOfFilter(active, (id: string) => id !in previous, notSeen);
    Seqs.FilterFilter(orders, IsActive, notSeen, both);
    assert newIds == IdsOf(Seqs.Filter(orders, both));
    forall o | o in orders ensures (o.id in newIds) == both(o) {
      if o.id in newIds {
        var k :| 0 <= k < |newIds| && newIds[k] == o.id;
        var others := Seqs.Filter(orders, both);
        assert others[k] in others;
        var i :| 0 <= i < |orders| && orders[i] == others[k];
        var j :| 0 <= j < |orders| && orders[j] == o;
        assert orders[i].id == orders[j].id;
      }
    }
    Seqs.FilterEquiv(orders, (o: Order) => o.id in newIds, both);
  }
}
