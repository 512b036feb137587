/**
 * One order on the staff dashboard (frontend/src/components/dashboard/OrderCard.tsx):
 * the status badge, the special-notes panel, and the single action button
 * that asks for the next status.
 */
module OrderCard {
  import opened Wrappers
  import opened MenuTypes
  import Strings
  import Seqs

  /** The button an order shows: the status it moves to and its label. */
  datatype StatusAction = StatusAction(next: OrderStatus, title: string)

  /** A request passed to the card's status-change callback. */
  datatype StatusRequest = StatusRequest(orderId: string, status: OrderStatus)

  /** The `statusActions` table: each status but the last has one forward action. */
  function ActionFor(s: OrderStatus): (r: Option<StatusAction>)
    ensures r.None? <==> s == Served
    ensures r.Some? ==> r.value.next != s && r.value.next != Pending
  {
    match s
    case Pending => Some(StatusAction(Accepted, "Accept"))
    case Accepted => Some(StatusAction(Preparing, "Start Preparing"))
    case Preparing => Some(StatusAction(Ready, "Mark Ready"))
    case Ready => Some(StatusAction(Served, "Mark Served"))
    case Served => None
  }

  /** The badge variant: the status's own name, except that `accepted` is drawn as `accent`. */
  function StatusVariant(s: OrderStatus): (v: string)
    ensures s == Accepted ==> v == "accent"
    ensures s != Accepted ==> v == StatusName(s)
  {
    match s
    case Pending => "pending"
    case Accepted => "accent"
    case Preparing => "preparing"
    case Ready => "ready"
    case Served => "served"
  }

  /** The badge text: the status name with its first letter upper-cased. */
  function BadgeText(s: OrderStatus): string {
    Strings.Capitalize(StatusName(s))
  }

  /** The action button is drawn in the accent style only for a pending order. */
  function ButtonVariant(s: OrderStatus): (r: string)
    ensures r == "accent" <==> s == Pending
    ensures r != "accent" ==> r == "default"
  {
    if s == Pending then "accent" else "default"
  }

  /** Clicking the button: the callback receives the order's id and the action's next status; a served order has no button. */
  function ActionRequest(order: Order): (r: Option<StatusRequest>)
    ensures r.None? <==> order.status == Served
    ensures r.Some? ==> r.value.orderId == order.id && ActionFor(order.status) == Some(StatusAction(r.value.status, ActionFor(order.status).value.title))
  {
    match ActionFor(order.status)
    case None => None
    case Some(a) => Some(StatusRequest(order.id, a.next))
  }

  /** A line whose instructions are truthy. */
  predicate HasNote(line: CartItem) {
    Truthy(line.specialInstructions)
  }

  /** The lines listed in the notes panel, in order. */
  function NotedItems(items: seq<CartItem>): seq<CartItem> {
    Seqs.Filter(items, HasNote)
  }

  /** `items.some(i => i.specialInstructions)`: the panel is shown. */
  predicate ShowsNotes(items: seq<CartItem>) {
    exists i :: 0 <= i < |items| && HasNote(items[i])
  }

  /** The panel is shown exactly when it would list at least one line, and it lists only noted lines. */
  lemma NotesPanel(items: seq<CartItem>)
    ensures ShowsNotes(items) <==> NotedItems(items) != []
    ensures forall l :: l in NotedItems(items) ==> l in items && Truthy(l.specialInstructions)
  {
    if ShowsNotes(items) {
      var i :| 0 <= i < |items| && HasNote(items[i]);
      assert items[i] in NotedItems(items);
    }
    if NotedItems(items) != [] {
      assert NotedItems(items)[0] in NotedItems(items);
    }
  }

  /** The badge texts are the five capitalized status names, so no two statuses share one. */
  lemma BadgeTextsDistinct(s: OrderStatus, t: OrderStatus)
    ensures BadgeText(Pending) == "Pending" && BadgeText(Accepted) == "Accepted"
    ensures BadgeText(Preparing) == "Preparing" && BadgeText(Ready) == "Ready" && BadgeText(Served) == "Served"
    ensures BadgeText(s) == BadgeText(t) ==> s == t
  {
    assert BadgeText(Pending) == "Pending";
    assert BadgeText(Accepted) == "Accepted";
    assert BadgeText(Preparing) == "Preparing";
    assert BadgeText(Ready) == "Ready";
    assert BadgeText(Served) == "Served";
  }
}
