/**
  What one change of a kitchen ticket does: the status that is shown afterwards, and what happens to the
  order's reservations when cooking starts or the ticket is cancelled.
*/
module KitchenChanges {
  import opened Fifo
  import opened InventoryLedger
  import opened LedgerInvariants
  import opened LedgerRuns
  import opened StockMovements
  import opened ReservationMovements
  import RetailOrder
  import opened KitchenOrder

  /** mapOrderStatusToKitchenStatus: what a ticket shows for its order. */
  function ShownFor(s: RetailOrder.OrderStatus): KitchenStatus
  {
    if s == RetailOrder.ORDER_PENDING then QUEUED
    else if s == RetailOrder.IN_PROGRESS then COOKING
    else if s == RetailOrder.READY then DISHED
    else if s == RetailOrder.COMPLETED then SERVED
    else if s == RetailOrder.ORDER_CANCELLED then DROPPED
    else NEW
  }

  /** New and recalled tickets wait in the queue; every other status is shown as it was set. */
  lemma StatusIsShownAsSet(k: KitchenStatus)
    ensures ShownFor(OrderStatusOf(k)) == if k in {NEW, RECALLED} then QUEUED else k
    ensures ShownFor(OrderStatusOf(k)) != NEW && OrderStatusOf(ShownFor(OrderStatusOf(k))) == OrderStatusOf(k)
  {
  }

  /** Cooking starts: every active reservation of the order is used up, from the oldest units of its location. */
  ghost predicate Cooks(b: Books, d: Books, order: nat)
  {
    ReservationMovements.UsedUp(b, d, ReservationMovements.Held(b.log, |b.log|, order)) && CommitsLog(b, d, order, CONSUMPTION, |b.log|)
  }

  /** The ticket is cancelled: every active reservation of the order goes back on its stock row. */
  ghost predicate PutsBack(b: Books, d: Books, order: nat)
  {
    ReleasesAll(b, d, Claim.OfOrder(order), Released)
  }

  predicate HeldIsConfigured(b: Books, order: nat)
  {
    forall i :: 0 <= i < |b.log| && HeldBy(b.log[i], order) ==> b.log[i].loc.item in b.configured
  }

  /**
    A change from the expected status of a ticket in the kitchen: it shows the new status, starting to cook
    uses up what the order holds, cancelling gives it back, and any other change leaves the books alone.
  */
  lemma ChangeEffect(t: Ticket, order: nat, to: KitchenStatus, expected: KitchenStatus)
    requires Healthy(t.books) && HeldIsConfigured(t.books, order)
    requires t.inKitchen && t.status == OrderStatusOf(expected)
    ensures var n := AfterUpdate(t, order, to, expected);
            && n.inKitchen && ShownFor(n.status) == (if to in {NEW, RECALLED} then QUEUED else to)
            && (to == COOKING ==> Cooks(t.books, n.books, order))
            && (to == DROPPED ==> PutsBack(t.books, n.books, order))
            && (to != COOKING && to != DROPPED ==> n.books == t.books)
  {
    if to == COOKING {
      CookingEffect(t.books, order);
    } else if to == DROPPED {
      DroppingEffect(t.books, order);
    }
  }

  lemma CookingEffect(b: Books, order: nat)
    requires Sound(b) && HeldIsConfigured(b, order)
    ensures Commit(b, order, CONSUMPTION).Ok? && Cooks(b, Commit(b, order, CONSUMPTION).value, order)
  {
    CommitUpToSucceeds(b, order, CONSUMPTION, |b.log|);
    CommitEffect(b, order, CONSUMPTION);
  }

  lemma DroppingEffect(b: Books, order: nat)
    requires Sound(b)
    ensures Release(b, Claim.OfOrder(order), Released).Ok? && PutsBack(b, Release(b, Claim.OfOrder(order), Released).value, order)
  {
    ReleaseEffect(b, Claim.OfOrder(order), Released);
  }

  /** From any other status, or outside the kitchen, nothing changes; and a change that cannot be costed is undone as a whole. */
  lemma UnexpectedChangesNothing(t: Ticket, order: nat, to: KitchenStatus, expected: KitchenStatus)
    ensures !t.inKitchen || t.status != OrderStatusOf(expected) ==> AfterUpdate(t, order, to, expected) == t
    ensures AfterUpdate(t, order, to, expected).status == t.status && t.status != OrderStatusOf(to) ==>
              AfterUpdate(t, order, to, expected) == t
  {
  }

  /** An order cancelled before it entered the kitchen never does, and is never changed from there; any other may enter. */
  lemma {:induction false} CancelledStaysOut(t: Ticket, o: RetailOrder.Order, actions: seq<Action>)
    requires !t.inKitchen
    ensures t.status == RetailOrder.ORDER_CANCELLED ==> !ActAll(t, o, actions).inKitchen && ActAll(t, o, actions).status == t.status
    ensures t.status != RetailOrder.ORDER_CANCELLED ==> Act(t, o, Enter) == t.(inKitchen := true)
  {
    if actions != [] { CancelledStaysOut(t, o, actions[..|actions| - 1]); }
  }
}
