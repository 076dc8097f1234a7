/**
 * The order status lifecycle that the seller's and the buyer's pages
 * together allow: a vendor moves an order forward, a buyer may cancel it
 * early, and nothing on these pages marks it completed.
 */
module OrderLifecycle {
  import opened Schema
  import opened OrderActions
  import SellerOrderCard
  import SellerDashboard
  import BuyerOrdersPage

  /** The moves the vendor's buttons offer from each status. */
  predicate VendorStep(from: Status, to: Status) {
    (from == Pending && (to == Confirmed || to == Cancelled)) ||
    (from == Confirmed && to == Delivering)
  }

  /** The statuses from which the buyer is offered a cancel button. */
  predicate BuyerCancelFrom(from: Status) {
    from == Pending || from == Confirmed
  }

  /** How far along an order is; both terminal statuses share the last rank. */
  function Rank(s: Status): nat {
    match s
    case Pending => 0
    case Confirmed => 1
    case Delivering => 2
    case Completed => 3
    case Cancelled => 3
  }

  predicate Terminal(s: Status) { s == Completed || s == Cancelled }

  /** The order card offers exactly the vendor's steps. */
  lemma CardOffersVendorSteps(from: Status, to: Status)
    ensures to in SellerOrderCard.CardTargets(from) <==> VendorStep(from, to)
  {
    match from {
      case Pending => SellerOrderCard.PendingCard();
      case Confirmed => SellerOrderCard.ConfirmedCard();
      case Delivering => SellerOrderCard.DeliveringCard();
      case Completed => SellerOrderCard.TerminalCards();
      case Cancelled => SellerOrderCard.TerminalCards();
    }
  }

  /** The dashboard's buttons send exactly the mutations of the vendor's steps. */
  lemma DashboardOffersVendorSteps(from: Status, orderId: Id, m: Mutation)
    ensures m in SellerDashboard.DashboardMutations(from, orderId) <==>
      m.orderId == orderId && !m.CancelOrder? && VendorStep(from, RequestedStatus(m))
  {
    SellerDashboard.DashboardAgreesWithCard(from, orderId);
    SellerOrderCard.CardMutationsMatchTargets(from, orderId, m);
    CardOffersVendorSteps(from, RequestedStatus(m));
  }

  /** The buyer's cancel button appears exactly where a buyer may cancel. */
  lemma BuyerCancelOffered(from: Status)
    ensures BuyerOrdersPage.Cancel in BuyerOrdersPage.BuyerActions(from) <==> BuyerCancelFrom(from)
  {
    BuyerOrdersPage.BuyerActionGating(from);
  }

  /** Every step either page offers moves an order strictly forward and out of no terminal status. */
  lemma StepsMoveForward(from: Status, to: Status)
    requires VendorStep(from, to) || (BuyerCancelFrom(from) && to == Cancelled)
    ensures Rank(from) < Rank(to)
    ensures !Terminal(from)
    ensures to != Completed
  {
  }
}
