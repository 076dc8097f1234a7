/**
 * The seller's order card: which buttons each status shows, the mutation
 * each button sends through handleStatusUpdate, the loading flag around
 * that call, the line subtotals and the status label.
 */
module SellerOrderCard {
  import opened Wrappers
  import opened Schema
  import opened OrderActions

  /** The argument type of handleStatusUpdate: every status except pending. */
  type TargetStatus = s: Status | s != Pending witness Confirmed

  /** The one mutation handleStatusUpdate sends for a requested status. */
  function MutationFor(target: TargetStatus, orderId: Id): (m: Mutation)
    ensures m.orderId == orderId
    ensures RequestedStatus(m) == target
    ensures !m.CancelOrder?
  {
    if target == Confirmed then AcceptOrder(orderId)
    else if target == Cancelled then RejectOrder(orderId)
    else if target == Delivering then StartDelivery(orderId)
    else CompleteOrder(orderId)
  }

  /** Different requested statuses send different mutations. */
  lemma MutationForInjective(a: TargetStatus, b: TargetStatus, orderId: Id)
    requires MutationFor(a, orderId) == MutationFor(b, orderId)
    ensures a == b
  {
    assert RequestedStatus(MutationFor(a, orderId)) == a;
  }

  /** `/seller/orders/${order.id}/delivery`, the page a delivery is run from. */
  function DeliveryPath(orderId: Id): string {
    "/seller/orders/" + orderId + "/delivery"
  }

  /** The card's component state, what it has sent and where it has navigated. */
  class OrderCard {
    const orderId: Id
    /** True while a status update is awaited; every button has `disabled={isLoading}`. */
    var isLoading: bool
    /** Every mutation sent, in order. */
    var sent: seq<Mutation>
    /** How many "Failed to update status" alerts were shown. */
    var alerts: nat
    /** Every path passed to `router.push`, in order. */
    var pushed: seq<string>

    constructor (orderId: Id)
      ensures this.orderId == orderId && !isLoading && sent == [] && alerts == 0 && pushed == []
    {
      this.orderId := orderId;
      isLoading := false;
      sent := [];
      alerts := 0;
      pushed := [];
    }

    /** The first half of handleStatusUpdate: set isLoading and send the one mutation for the status. */
    method BeginUpdate(newStatus: TargetStatus)
      modifies this
      ensures isLoading
      ensures sent == old(sent) + [MutationFor(newStatus, orderId)]
      ensures alerts == old(alerts) && pushed == old(pushed)
    {
      isLoading := true;
      var m: Mutation;
      if newStatus == Confirmed {
        m := AcceptOrder(orderId);
      } else if newStatus == Cancelled {
        m := RejectOrder(orderId);
      } else if newStatus == Delivering {
        m := StartDelivery(orderId);
      } else {
        m := CompleteOrder(orderId);
      }
      sent := sent + [m];
    }

    /**
     * The awaited mutation settles (`fails` is its outcome): startDelivery's
     * onSuccess opens the delivery page, a failure shows the alert, and
     * `finally` clears isLoading.
     */
    method FinishUpdate(newStatus: TargetStatus, fails: bool)
      modifies this
      ensures !isLoading && sent == old(sent)
      ensures alerts == old(alerts) + (if fails then 1 else 0)
      ensures pushed == old(pushed) + (if !fails && newStatus == Delivering then [DeliveryPath(orderId)] else [])
    {
      if !fails && newStatus == Delivering {
        pushed := pushed + [DeliveryPath(orderId)];
      }
      if fails {
        alerts := alerts + 1;
      }
      isLoading := false;
    }

    /** handleStatusUpdate: one mutation, an alert only on failure, isLoading cleared at the end. */
    method HandleStatusUpdate(newStatus: TargetStatus, fails: bool)
      modifies this
      ensures sent == old(sent) + [MutationFor(newStatus, orderId)]
      ensures !isLoading
      ensures alerts == old(alerts) + (if fails then 1 else 0)
      ensures pushed == old(pushed) + (if !fails && newStatus == Delivering then [DeliveryPath(orderId)] else [])
    {
      BeginUpdate(newStatus);
      FinishUpdate(newStatus, fails);
    }

    /**
     * A click on a button the card shows for status `s`. While isLoading the
     * button is disabled and the click does nothing; otherwise Reject,
     * Confirm and Start Delivery run handleStatusUpdate, and Continue
     * Delivery opens the delivery page.
     */
    method Click(s: Status, b: CardButton, fails: bool)
      requires b in CardButtons(s)
      modifies this
      ensures old(isLoading) ==>
        isLoading && sent == old(sent) && alerts == old(alerts) && pushed == old(pushed)
      ensures !old(isLoading) && ButtonTarget(b).Some? ==>
        !isLoading && sent == old(sent) + [MutationFor(ButtonTarget(b).value, orderId)] &&
        alerts == old(alerts) + (if fails then 1 else 0) &&
        pushed == old(pushed) + (if !fails && ButtonTarget(b).value == Delivering then [DeliveryPath(orderId)] else [])
      ensures !old(isLoading) && ButtonTarget(b).None? ==>
        !isLoading && sent == old(sent) && alerts == old(alerts) && pushed == old(pushed) + [DeliveryPath(orderId)]
    {
      if !isLoading {
        match ButtonTarget(b) {
          case Some(t) => HandleStatusUpdate(t, fails);
          case None => pushed := pushed + [DeliveryPath(orderId)];
        }
      }
    }
  }

  /**
   * A second click while an update is awaited sends nothing: the card sends
   * exactly one mutation per update.
   */
  method ClickDuringUpdate(card: OrderCard, t: TargetStatus, s: Status, b: CardButton, fails: bool)
    requires !card.isLoading && b in CardButtons(s)
    modifies card
    ensures card.sent == old(card.sent) + [MutationFor(t, card.orderId)]
    ensures !card.isLoading
  {
    card.BeginUpdate(t);
    card.Click(s, b, fails);
    card.FinishUpdate(t, fails);
  }

  datatype CardButton = Reject | Confirm | StartDeliveryButton | ContinueDelivery

  /** The buttons of the actions row, left to right. */
  function CardButtons(s: Status): (r: seq<CardButton>)
    ensures |r| <= 2
    ensures forall i, j :: 0 <= i < j < |r| ==> r[i] != r[j]
    ensures r == [] <==> s == Completed || s == Cancelled
    ensures ContinueDelivery in r <==> s == Delivering
  {
    match s
    case Pending => [Reject, Confirm]
    case Confirmed => [StartDeliveryButton]
    case Delivering => [ContinueDelivery]
    case Completed => []
    case Cancelled => []
  }

  /** The status a button passes to handleStatusUpdate; ContinueDelivery only navigates. */
  function ButtonTarget(b: CardButton): Option<TargetStatus> {
    match b
    case Reject => Some(Cancelled)
    case Confirm => Some(Confirmed)
    case StartDeliveryButton => Some(Delivering)
    case ContinueDelivery => None
  }

  /** The statuses the card of an order in status `s` can request. */
  function CardTargets(s: Status): set<Status> {
    set b | b in CardButtons(s) && ButtonTarget(b).Some? :: var t: Status := ButtonTarget(b).value; t
  }

  /** The mutations the card of an order can send. */
  function CardMutations(s: Status, orderId: Id): set<Mutation> {
    set b | b in CardButtons(s) && ButtonTarget(b).Some? :: MutationFor(ButtonTarget(b).value, orderId)
  }

  lemma PendingCard()
    ensures |CardButtons(Pending)| == 2
    ensures CardTargets(Pending) == {Cancelled, Confirmed}
  {
    assert Reject in CardButtons(Pending) && Confirm in CardButtons(Pending);
  }

  lemma ConfirmedCard()
    ensures |CardButtons(Confirmed)| == 1
    ensures CardTargets(Confirmed) == {Delivering}
  {
    assert StartDeliveryButton in CardButtons(Confirmed);
  }

  lemma DeliveringCard()
    ensures CardButtons(Delivering) == [ContinueDelivery]
    ensures CardTargets(Delivering) == {}
  {
  }

  lemma TerminalCards()
    ensures CardButtons(Completed) == [] && CardButtons(Cancelled) == []
  {
  }

  /** No button requests completed, although handleStatusUpdate would send completeOrder for it. */
  lemma NoButtonCompletes(s: Status, orderId: Id)
    ensures Completed !in CardTargets(s)
    ensures CompleteOrder(orderId) !in CardMutations(s, orderId)
  {
  }

  /** The mutations a card sends are exactly those for its targets. */
  lemma CardMutationsMatchTargets(s: Status, orderId: Id, m: Mutation)
    ensures m in CardMutations(s, orderId) <==> m.orderId == orderId && !m.CancelOrder? && RequestedStatus(m) in CardTargets(s)
  {
    if m.orderId == orderId && !m.CancelOrder? && RequestedStatus(m) in CardTargets(s) {
      var b :| b in CardButtons(s) && ButtonTarget(b).Some? && ButtonTarget(b).value == RequestedStatus(m);
      assert MutationFor(ButtonTarget(b).value, orderId) == m;
    }
  }

  /** One line of the card: quantity, product name and the price snapshot. */
  datatype CardItem = CardItem(quantity: int, productName: string, priceAtOrder: int)

  /** The card line of an order item: its quantity and snapshot price, and its product's name. */
  function CardItemFor(i: OrderItem, p: Product): CardItem {
    CardItem(i.quantity, p.name, i.priceAtOrder)
  }

  /** The amount shown beside a line: `item.priceAtOrder * item.quantity`. */
  function LineSubtotal(item: CardItem): (amount: int)
    ensures item.quantity == 1 ==> amount == item.priceAtOrder
    ensures item.quantity == 0 ==> amount == 0
    ensures item.quantity >= 0 && item.priceAtOrder >= 0 ==> amount >= 0
  {
    item.priceAtOrder * item.quantity
  }

  /**
   * A line's amount comes from the item's price snapshot, not from the
   * product: repricing or renaming the product changes no amount.
   */
  lemma SubtotalUsesSnapshotPrice(i: OrderItem, p: Product, q: Product)
    requires q.id == p.id
    ensures LineSubtotal(CardItemFor(i, p)) == i.priceAtOrder * i.quantity
    ensures LineSubtotal(CardItemFor(i, q)) == LineSubtotal(CardItemFor(i, p))
  {
  }

  /** ASCII upper-casing of one character (status names are lower-case ASCII). */
  function UpperChar(c: char): char {
    if 'a' <= c <= 'z' then (c as int - 32) as char else c
  }

  function LowerChar(c: char): char {
    if 'A' <= c <= 'Z' then (c as int + 32) as char else c
  }

  /** `text.charAt(0).toUpperCase() + text.slice(1)`. */
  function Capitalize(text: string): (r: string)
    ensures |r| == |text|
    ensures text != [] ==> r[0] == UpperChar(text[0]) && r[1..] == text[1..]
  {
    if text == [] then [] else [UpperChar(text[0])] + text[1..]
  }

  function Decapitalize(text: string): string {
    if text == [] then [] else [LowerChar(text[0])] + text[1..]
  }

  /** The label under the buyer's name. */
  function StatusLabel(s: Status): (r: string)
    ensures |r| == |StatusName(s)|
    ensures 'A' <= r[0] <= 'Z' && r[1..] == StatusName(s)[1..]
  {
    Capitalize(StatusName(s))
  }

  lemma StatusLabels()
    ensures StatusLabel(Pending) == "Pending"
    ensures StatusLabel(Confirmed) == "Confirmed"
    ensures StatusLabel(Delivering) == "Delivering"
    ensures StatusLabel(Completed) == "Completed"
    ensures StatusLabel(Cancelled) == "Cancelled"
  {
  }

  /** The label gives back the status: lowering its first letter yields the stored name. */
  lemma StatusLabelRoundTrip(s: Status)
    ensures Decapitalize(StatusLabel(s)) == StatusName(s)
    ensures ParseStatus(Decapitalize(StatusLabel(s))) == Some(s)
  {
    StatusNameRoundTrip(s);
  }

  /** The colour family of a status badge. */
  datatype Tint = Yellow | Blue | Purple | Green | Red | Muted

  /** `statusColors`: the badge colour keyed by the stored status name. */
  const StatusColors: map<string, Tint> :=
    map["pending" := Yellow, "confirmed" := Blue, "delivering" := Purple,
        "completed" := Green, "cancelled" := Red]

  /** Every status has an entry, and distinct statuses get distinct colours. */
  lemma StatusColorsCoverStatuses(s: Status, t: Status)
    ensures StatusName(s) in StatusColors
    ensures StatusColors[StatusName(s)] != Muted
    ensures StatusColors[StatusName(s)] == StatusColors[StatusName(t)] ==> s == t
  {
  }
}
