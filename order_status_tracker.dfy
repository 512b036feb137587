/**
 * The diner's order progress view
 * (frontend/src/components/customer/OrderStatusTracker.tsx): the header
 * badge and a four-step timeline whose steps are completed, current or
 * in progress according to the order's position in the status order.
 */
module OrderStatusTracker {
  import opened MenuTypes
  import Strings

  /** One timeline step. */
  datatype Step = Step(status: OrderStatus, title: string)

  /** `statusOrder`: the five statuses in the order an order moves through them. */
  const StatusOrder: seq<OrderStatus> := [Pending, Accepted, Preparing, Ready, Served]

  /** `statusSteps`: the timeline, which has no step for `pending`. */
  const StatusSteps: seq<Step> := [
    Step(Accepted, "Accepted"), Step(Preparing, "Preparing"), Step(Ready, "Ready"), Step(Served, "Served")]

  /** `Array.prototype.indexOf`: the first position of `x`, or -1. */
  function IndexOf(s: seq<OrderStatus>, x: OrderStatus): (k: int)
    ensures -1 <= k < |s|
    ensures k >= 0 ==> s[k] == x
    ensures forall j :: 0 <= j < |s| && (k < 0 || j < k) ==> s[j] != x
  {
    if s == [] then -1
    else if s[0] == x then 0
    else
      var k := IndexOf(s[1..], x);
      if k < 0 then -1 else k + 1
  }

  /** `currentStatusIndex`: where the order's status stands in the status order. */
  function CurrentIndex(s: OrderStatus): int {
    IndexOf(StatusOrder, s)
  }

  /** Every status is found, nowhere but at its own position. */
  lemma CurrentIndexFound(s: OrderStatus)
    ensures 0 <= CurrentIndex(s) < |StatusOrder| && StatusOrder[CurrentIndex(s)] == s
    ensures s == Pending ==> CurrentIndex(s) == 0
    ensures s == Served ==> CurrentIndex(s) == |StatusOrder| - 1
  {
    assert StatusOrder[0] == Pending && StatusOrder[1] == Accepted && StatusOrder[2] == Preparing;
    assert StatusOrder[3] == Ready && StatusOrder[4] == Served;
  }

  /** The position of each timeline step's status: one past its index in the timeline. */
  lemma StepIndex(i: nat)
    requires i < |StatusSteps|
    ensures IndexOf(StatusOrder, StatusSteps[i].status) == i + 1
  {
    CurrentIndexFound(StatusSteps[i].status);
  }

  /** `isCompleted`: the order has reached the step or gone beyond it. */
  predicate IsCompleted(s: OrderStatus, step: Step) {
    CurrentIndex(s) >= IndexOf(StatusOrder, step.status)
  }

  /** `isCurrent`: the step is the order's status. */
  predicate IsCurrent(s: OrderStatus, step: Step) {
    s == step.status
  }

  /** The connector below a step: drawn for every step but the last. */
  predicate ConnectorShown(index: int) {
    index < |StatusSteps| - 1
  }

  /** The connector is filled once the order has passed the step. */
  predicate ConnectorFilled(s: OrderStatus, step: Step) {
    CurrentIndex(s) > IndexOf(StatusOrder, step.status)
  }

  /** The "In progress..." line under the current step, which a served order does not get. */
  predicate ShowsInProgress(s: OrderStatus, step: Step) {
    IsCurrent(s, step) && s != Served
  }

  /** The header badge text. */
  function HeaderLabel(s: OrderStatus): (r: string)
    ensures s == Pending ==> r == "Waiting for confirmation"
    ensures s != Pending ==> r == Strings.Capitalize(StatusName(s))
  {
    if s == Pending then "Waiting for confirmation" else Strings.Capitalize(StatusName(s))
  }

  /** The number of the given steps drawn as completed. */
  function CompletedCount(s: OrderStatus, steps: seq<Step>): nat {
    if steps == [] then 0 else (if IsCompleted(s, steps[0]) then 1 else 0) + CompletedCount(s, steps[1..])
  }

  /** The completed steps form a prefix of the timeline. */
  lemma CompletedIsPrefix(s: OrderStatus, i: nat, j: nat)
    requires i <= j < |StatusSteps|
    requires IsCompleted(s, StatusSteps[j])
    ensures IsCompleted(s, StatusSteps[i])
  {
    StepIndex(i);
    StepIndex(j);
  }

  /** As many steps are completed as the status's position: none while pending, all four once served. */
  lemma CompletedCountIsIndex(s: OrderStatus)
    ensures CompletedCount(s, StatusSteps) == CurrentIndex(s)
  {
    CurrentIndexFound(s);
    var st := StatusSteps;
    assert st[1..] == [st[1], st[2], st[3]];
    assert st[1..][1..] == [st[2], st[3]];
    assert st[1..][1..][1..] == [st[3]];
    assert st[1..][1..][1..][1..] == [];
    StepIndex(0);
    StepIndex(1);
    StepIndex(2);
    StepIndex(3);
  }

  /** A later status completes every step an earlier one completes. */
  lemma CompletedMonotone(s: OrderStatus, t: OrderStatus, step: Step)
    requires CurrentIndex(s) <= CurrentIndex(t)
    requires IsCompleted(s, step)
    ensures IsCompleted(t, step)
  {
  }

  /**
   * The current step is itself drawn completed; at most one step is current,
   * and none while the order is pending.
   */
  lemma CurrentStep(s: OrderStatus, i: nat, j: nat)
    requires i < |StatusSteps| && j < |StatusSteps|
    ensures IsCurrent(s, StatusSteps[i]) ==> IsCompleted(s, StatusSteps[i])
    ensures IsCurrent(s, StatusSteps[i]) && IsCurrent(s, StatusSteps[j]) ==> i == j
    ensures s == Pending ==> !IsCurrent(s, StatusSteps[i])
  {
    StepIndex(i);
    StepIndex(j);
  }

  /** A shown connector is filled exactly when the step after it is completed. */
  lemma ConnectorMeansNextCompleted(s: OrderStatus, i: nat)
    requires i < |StatusSteps| && ConnectorShown(i)
    ensures ConnectorFilled(s, StatusSteps[i]) <==> IsCompleted(s, StatusSteps[i + 1])
  {
    StepIndex(i);
    StepIndex(i + 1);
  }

  /** Some step shows "In progress..." exactly when the order is accepted, preparing or ready. */
  lemma InProgressShown(s: OrderStatus)
    ensures (exists i :: 0 <= i < |StatusSteps| && ShowsInProgress(s, StatusSteps[i]))
        <==> s in {Accepted, Preparing, Ready}
  {
    if s in {Accepted, Preparing, Ready} {
      var i := CurrentIndex(s) - 1;
      CurrentIndexFound(s);
      assert ShowsInProgress(s, StatusSteps[i]);
    }
  }
}
