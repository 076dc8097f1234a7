/**
 * The seller dashboard: the tab that selects which orders are queried, the
 * open/closed toggle, and per order the badge colour, the buyer's initial
 * and the action controls.
 */
module SellerDashboard {
  import opened Wrappers
  import opened Schema
  import opened OrderActions
  import SellerOrderCard
  import UsersRouter

  datatype Tab = Incoming | Active | History

  function TabName(t: Tab): string {
    match t
    case Incoming => "incoming"
    case Active => "active"
    case History => "history"
  }

  function ParseTab(text: string): (r: Option<Tab>)
    ensures r.Some? ==> TabName(r.value) == text
    ensures r.None? ==> forall t: Tab :: TabName(t) != text
  {
    if text == "incoming" then Some(Incoming)
    else if text == "active" then Some(Active)
    else if text == "history" then Some(History)
    else None
  }

  /** The page's state and the vendor-status values it has sent. */
  class Dashboard {
    var activeTab: Tab
    var isVendorOpen: bool
    /** Every value passed to updateVendorStatus, in order. */
    var statusSent: seq<bool>

    constructor ()
      ensures activeTab == Incoming && !isVendorOpen && statusSent == []
    {
      activeTab := Incoming;
      isVendorOpen := false;
      statusSent := [];
    }

    /** The `status` input of getVendorOrders: always the selected tab. */
    function OrdersQueryStatus(): (status: string)
      reads this
      ensures ParseTab(status) == Some(activeTab)
    {
      TabName(activeTab)
    }

    method SelectTab(t: Tab)
      modifies this
      ensures activeTab == t
      ensures isVendorOpen == old(isVendorOpen) && statusSent == old(statusSent)
    {
      activeTab := t;
    }

    /** toggleStatus: flips the open flag and sends the new value. */
    method ToggleStatus()
      modifies this
      ensures isVendorOpen == !old(isVendorOpen)
      ensures statusSent == old(statusSent) + [isVendorOpen]
      ensures activeTab == old(activeTab)
    {
      var newState := !isVendorOpen;
      isVendorOpen := newState;
      statusSent := statusSent + [newState];
    }
  }

  /**
   * A toggle followed by the server's updateVendorStatus for the same caller.
   * The flag flips before the call and there is no error handler, so when the
   * call fails (`fails`) the rows stay as they were while the button shows the
   * new value; when it succeeds the caller's isActive equals the button.
   */
  method ToggleAndPersist(d: Dashboard, table: UsersRouter.UserTable, callerId: Id, fails: bool)
    requires d != table as object
    modifies d, table
    ensures d.isVendorOpen == !old(d.isVendorOpen)
    ensures d.statusSent == old(d.statusSent) + [d.isVendorOpen]
    ensures fails ==> table.rows == old(table.rows)
    ensures !fails ==> |table.rows| == |old(table.rows)|
    ensures !fails ==> forall i :: 0 <= i < |table.rows| && old(table.rows)[i].id != callerId ==>
      table.rows[i] == old(table.rows)[i]
    ensures !fails ==> forall i :: 0 <= i < |table.rows| && table.rows[i].id == callerId ==>
      table.rows[i].isActive == d.isVendorOpen
    ensures fails && (forall i :: 0 <= i < |table.rows| && table.rows[i].id == callerId ==>
                        old(table.rows)[i].isActive == old(d.isVendorOpen)) ==>
      forall i :: 0 <= i < |table.rows| && table.rows[i].id == callerId ==>
        table.rows[i].isActive != d.isVendorOpen
  {
    d.ToggleStatus();
    if !fails {
      var _ := table.UpdateVendorStatus(callerId, d.statusSent[|d.statusSent| - 1]);
    }
  }

  /** The badge colour of an order. */
  datatype BadgeColour = Yellow | Purple | Gray

  function Badge(s: Status): (c: BadgeColour)
    ensures c == Yellow <==> s == Pending
    ensures c == Purple <==> s == Delivering
    ensures c == Gray <==> s == Confirmed || s == Completed || s == Cancelled
  {
    match s
    case Pending => Yellow
    case Delivering => Purple
    case _ => Gray
  }

  /** The buyer columns the dashboard reads from an order. */
  datatype BuyerInfo = BuyerInfo(name: Option<string>)

  /** `order.buyer?.name?.[0] || "B"`: one character in every case. */
  function BuyerInitial(buyer: Option<BuyerInfo>): (r: string)
    ensures |r| == 1
    ensures buyer.Some? && buyer.value.name.Some? && buyer.value.name.value != "" ==>
      r[0] == buyer.value.name.value[0]
    ensures !(buyer.Some? && buyer.value.name.Some? && buyer.value.name.value != "") ==> r == "B"
  {
    match buyer
    case Some(BuyerInfo(Some(name))) => if name != "" then [name[0]] else "B"
    case _ => "B"
  }

  datatype Control = RejectButton | AcceptButton | StartDeliveryButton | ContinueLink | CompletedLabel

  /** The controls under an order, left to right. */
  function Controls(s: Status): (r: seq<Control>)
    ensures |r| <= 2
    ensures forall i, j :: 0 <= i < j < |r| ==> r[i] != r[j]
    ensures r == [] <==> s == Cancelled
    ensures CompletedLabel in r <==> s == Completed
  {
    match s
    case Pending => [RejectButton, AcceptButton]
    case Confirmed => [StartDeliveryButton]
    case Delivering => [ContinueLink]
    case Completed => [CompletedLabel]
    case Cancelled => []
  }

  /** The mutation a control sends; the link and the label send none. */
  function ControlMutation(c: Control, orderId: Id): Option<Mutation> {
    match c
    case RejectButton => Some(RejectOrder(orderId))
    case AcceptButton => Some(AcceptOrder(orderId))
    case StartDeliveryButton => Some(StartDelivery(orderId))
    case ContinueLink => None
    case CompletedLabel => None
  }

  /** Where a control navigates: only the Continue link, to the order's delivery page. */
  function ControlLink(c: Control, orderId: Id): (r: Option<string>)
    ensures r.Some? <==> c == ContinueLink
    ensures r.Some? ==> r.value == SellerOrderCard.DeliveryPath(orderId)
  {
    if c == ContinueLink then Some("/seller/orders/" + orderId + "/delivery") else None
  }

  /**
   * The dashboard shows a link exactly under a delivering order, and it opens
   * the same delivery page as the order card's Continue Delivery button.
   */
  lemma LinkOnlyWhileDelivering(s: Status, orderId: Id)
    ensures (exists c :: c in Controls(s) && ControlLink(c, orderId).Some?) <==> s == Delivering
    ensures forall c :: c in Controls(s) && ControlLink(c, orderId).Some? ==>
      ControlLink(c, orderId) == Some(SellerOrderCard.DeliveryPath(orderId))
  {
    if s == Delivering {
      assert ContinueLink in Controls(s);
    }
  }

  function DashboardMutations(s: Status, orderId: Id): set<Mutation> {
    set c | c in Controls(s) && ControlMutation(c, orderId).Some? :: ControlMutation(c, orderId).value
  }

  lemma PendingControls(orderId: Id)
    ensures Controls(Pending) == [RejectButton, AcceptButton]
    ensures DashboardMutations(Pending, orderId) == {RejectOrder(orderId), AcceptOrder(orderId)}
  {
    assert RejectButton in Controls(Pending) && AcceptButton in Controls(Pending);
  }

  lemma ConfirmedControls(orderId: Id)
    ensures DashboardMutations(Confirmed, orderId) == {StartDelivery(orderId)}
  {
    assert StartDeliveryButton in Controls(Confirmed);
  }

  lemma LaterControls(orderId: Id)
    ensures Controls(Delivering) == [ContinueLink] && DashboardMutations(Delivering, orderId) == {}
    ensures Controls(Completed) == [CompletedLabel] && DashboardMutations(Completed, orderId) == {}
    ensures Controls(Cancelled) == [] && DashboardMutations(Cancelled, orderId) == {}
  {
  }

  /** The dashboard and the order card send the same mutations for every status. */
  lemma DashboardAgreesWithCard(s: Status, orderId: Id)
    ensures DashboardMutations(s, orderId) == SellerOrderCard.CardMutations(s, orderId)
  {
    var card := SellerOrderCard.CardMutations(s, orderId);
    match s
    case Pending =>
      PendingControls(orderId);
      assert SellerOrderCard.Reject in SellerOrderCard.CardButtons(s);
      assert SellerOrderCard.Confirm in SellerOrderCard.CardButtons(s);
      assert SellerOrderCard.MutationFor(Cancelled, orderId) in card;
      assert SellerOrderCard.MutationFor(Confirmed, orderId) in card;
    case Confirmed =>
      ConfirmedControls(orderId);
      assert SellerOrderCard.StartDeliveryButton in SellerOrderCard.CardButtons(s);
      assert SellerOrderCard.MutationFor(Delivering, orderId) in card;
    case _ =>
      LaterControls(orderId);
  }
}
