/**
 * The buyer's orders page: the active/history tabs over getBuyerOrders, the
 * pending total and checkout bar, and the buttons each order shows.
 */
module BuyerOrdersPage {
  import opened Wrappers
  import opened Relational
  import opened Schema
  import opened OrderActions
  import opened OrdersRouter
  import SellerOrderCard

  datatype Tab = Active | History

  /** `["pending", "confirmed", "delivering"].includes(order.status)`. */
  predicate InActiveTab(s: Status) {
    s == Pending || s == Confirmed || s == Delivering
  }

  /** `["completed", "cancelled"].includes(order.status)`. */
  predicate InHistoryTab(s: Status) {
    s == Completed || s == Cancelled
  }

  predicate ActiveRow(row: BuyerOrderRow) { InActiveTab(row.status) }
  predicate HistoryRow(row: BuyerOrderRow) { InHistoryTab(row.status) }
  predicate PendingRow(row: BuyerOrderRow) { row.status == Pending }

  function TabFilter(tab: Tab): BuyerOrderRow -> bool {
    if tab == Active then ActiveRow else HistoryRow
  }

  /** `orders?.filter(...)`: nothing while the query has no data. */
  function FilteredOrders(tab: Tab, orders: Option<seq<BuyerOrderRow>>): (r: Option<seq<BuyerOrderRow>>)
    ensures r.Some? <==> orders.Some?
    ensures r.Some? && tab == Active ==>
      forall row :: row in r.value <==> row in orders.value && InActiveTab(row.status)
    ensures r.Some? && tab == History ==>
      forall row :: row in r.value <==> row in orders.value && InHistoryTab(row.status)
  {
    match orders
    case None => None
    case Some(rows) => Some(Filter(TabFilter(tab), rows))
  }

  /** Each tab keeps the order of the list it filters. */
  lemma TabsKeepOrder(tab: Tab, a: seq<BuyerOrderRow>, b: seq<BuyerOrderRow>)
    ensures FilteredOrders(tab, Some(a + b)).value ==
            FilteredOrders(tab, Some(a)).value + FilteredOrders(tab, Some(b)).value
  {
    FilterAppend(TabFilter(tab), a, b);
  }

  /** Over the five statuses the two tabs split the list: every order is on exactly one tab. */
  lemma TabsPartition(rows: seq<BuyerOrderRow>)
    ensures |FilteredOrders(Active, Some(rows)).value| + |FilteredOrders(History, Some(rows)).value| == |rows|
    ensures multiset(FilteredOrders(Active, Some(rows)).value) + multiset(FilteredOrders(History, Some(rows)).value)
            == multiset(rows)
  {
    FilterPartition(ActiveRow, HistoryRow, rows);
  }

  /** `orders?.filter(o => o.status === "pending") || []`. */
  function PendingOrders(orders: Option<seq<BuyerOrderRow>>): (r: seq<BuyerOrderRow>)
    ensures forall row :: row in r <==> orders.Some? && row in orders.value && row.status == Pending
  {
    Filter(PendingRow, orders.GetOr([]))
  }

  /** The sum of totalPrice over a list, element by element from the right. */
  function SumTotals(rows: seq<BuyerOrderRow>): int {
    if rows == [] then 0 else rows[0].totalPrice + SumTotals(rows[1..])
  }

  /** `rows.reduce((sum, order) => sum + order.totalPrice, acc)`: a fold from the left. */
  function Reduce(acc: int, rows: seq<BuyerOrderRow>): int
    decreases |rows|
  {
    if rows == [] then acc else Reduce(acc + rows[0].totalPrice, rows[1..])
  }

  lemma {:induction false} ReduceIsSum(acc: int, rows: seq<BuyerOrderRow>)
    ensures Reduce(acc, rows) == acc + SumTotals(rows)
    decreases |rows|
  {
    if rows != [] {
      ReduceIsSum(acc + rows[0].totalPrice, rows[1..]);
    }
  }

  function TotalPendingPrice(orders: Option<seq<BuyerOrderRow>>): (total: int)
    ensures total == SumTotals(PendingOrders(orders))
  {
    ReduceIsSum(0, PendingOrders(orders));
    Reduce(0, PendingOrders(orders))
  }

  /** The pending total is the sum of totalPrice over the pending orders, and 0 when there are none. */
  lemma TotalPendingIsSum(orders: Option<seq<BuyerOrderRow>>)
    ensures TotalPendingPrice(orders) == SumTotals(PendingOrders(orders))
    ensures PendingOrders(orders) == [] ==> TotalPendingPrice(orders) == 0
  {
    ReduceIsSum(0, PendingOrders(orders));
  }

  /** The pending total of two lists is the sum of their pending totals. */
  lemma {:induction false} SumTotalsAppend(a: seq<BuyerOrderRow>, b: seq<BuyerOrderRow>)
    ensures SumTotals(a + b) == SumTotals(a) + SumTotals(b)
  {
    if a == [] {
      assert a + b == b;
    } else {
      assert (a + b)[1..] == a[1..] + b;
      SumTotalsAppend(a[1..], b);
    }
  }

  /** Every pending order is also on the active tab, so the pending count never exceeds it. */
  lemma PendingWithinActive(rows: seq<BuyerOrderRow>)
    ensures |PendingOrders(Some(rows))| <= |FilteredOrders(Active, Some(rows)).value|
  {
    FilterWeakerKeepsMore(PendingRow, ActiveRow, rows);
  }

  datatype BuyerAction = PayNow | Cancel | Track

  /** The buttons of one order, left to right. */
  function BuyerActions(s: Status): (r: seq<BuyerAction>)
    ensures |r| <= 2
    ensures forall i, j :: 0 <= i < j < |r| ==> r[i] != r[j]
    ensures PayNow in r ==> Cancel in r
    ensures Track in r ==> r == [Track]
  {
    (if s == Pending then [PayNow] else []) +
    (if s == Pending || s == Confirmed then [Cancel] else []) +
    (if s == Delivering then [Track] else [])
  }

  lemma BuyerActionGating(s: Status)
    ensures PayNow in BuyerActions(s) <==> s == Pending
    ensures Cancel in BuyerActions(s) <==> s == Pending || s == Confirmed
    ensures Track in BuyerActions(s) <==> s == Delivering
    ensures InHistoryTab(s) <==> BuyerActions(s) == []
  {
  }

  /** The Cancel button sends cancelOrder for the order once the buyer confirms the dialog. */
  function CancelClick(row: BuyerOrderRow, buyerConfirms: bool): (m: Option<Mutation>)
    ensures m.Some? <==> buyerConfirms
    ensures m.Some? ==> m.value == CancelOrder(row.id) && RequestedStatus(m.value) == Cancelled
  {
    if buyerConfirms then Some(CancelOrder(row.id)) else None
  }

  /** The fixed checkout bar: the pending total and the number of pending orders. */
  datatype CheckoutBar = CheckoutBar(total: int, count: nat)

  function CheckoutBarFor(tab: Tab, orders: Option<seq<BuyerOrderRow>>): (bar: Option<CheckoutBar>)
    ensures bar.Some? ==> tab == Active && bar.value.count >= 1 && bar.value.count == |PendingOrders(orders)|
    ensures tab == History ==> bar.None?
  {
    if tab == Active && |PendingOrders(orders)| > 0 then
      Some(CheckoutBar(TotalPendingPrice(orders), |PendingOrders(orders)|))
    else None
  }

  /** The bar shows exactly on the active tab with a pending order, counting the pending orders. */
  lemma CheckoutBarShown(tab: Tab, orders: Option<seq<BuyerOrderRow>>)
    ensures CheckoutBarFor(tab, orders).Some? <==>
      tab == Active && orders.Some? && exists row :: row in orders.value && row.status == Pending
    ensures CheckoutBarFor(tab, orders).Some? ==>
      CheckoutBarFor(tab, orders).value.count == |PendingOrders(orders)| >= 1 &&
      CheckoutBarFor(tab, orders).value.count <= |FilteredOrders(Active, orders).value| &&
      CheckoutBarFor(tab, orders).value.total == SumTotals(PendingOrders(orders))
  {
    var pending := PendingOrders(orders);
    if tab == Active && orders.Some? && exists row :: row in orders.value && row.status == Pending {
      var row :| row in orders.value && row.status == Pending;
      assert row in pending;
    }
    if |pending| > 0 {
      assert pending[0] in pending;
      PendingWithinActive(orders.value);
    }
    TotalPendingIsSum(orders);
  }

  /** getStatusColor: a switch on the status text with a muted default. */
  function GetStatusColor(status: string): (t: SellerOrderCard.Tint)
    ensures ParseStatus(status).None? ==> t == SellerOrderCard.Muted
  {
    if status == "pending" then SellerOrderCard.Yellow
    else if status == "confirmed" then SellerOrderCard.Blue
    else if status == "delivering" then SellerOrderCard.Purple
    else if status == "completed" then SellerOrderCard.Green
    else if status == "cancelled" then SellerOrderCard.Red
    else SellerOrderCard.Muted
  }

  /** The orders page colours each status as the seller's order card does, and only unknown text is muted. */
  lemma StatusColorMatchesCard(status: string)
    ensures status in SellerOrderCard.StatusColors ==> GetStatusColor(status) == SellerOrderCard.StatusColors[status]
    ensures GetStatusColor(status) == SellerOrderCard.Muted <==> ParseStatus(status).None?
  {
    if ParseStatus(status).Some? {
      SellerOrderCard.StatusColorsCoverStatuses(ParseStatus(status).value, ParseStatus(status).value);
    }
  }

  /** One rendered order card: the order, its item lines and its buttons. */
  datatype OrderCardView = OrderCardView(orderId: Id, lines: seq<ItemLine>, actions: seq<BuyerAction>)

  /** What the page renders once loading is over. */
  datatype PageView =
    | /** Rendering threw: `order.items.map` on a row without items. */
      Crashed
    | Rendered(cards: seq<OrderCardView>, bar: Option<CheckoutBar>)

  function ViewFilter(tab: Tab): BuyerOrderView -> bool {
    (v: BuyerOrderView) => TabFilter(tab)(v.row)
  }

  function CardFor(v: BuyerOrderView): OrderCardView {
    OrderCardView(v.row.id, v.items.GetOr([]), BuyerActions(v.row.status))
  }

  /**
   * The list of the selected tab, then the checkout bar. Every card calls
   * `order.items.map`, so one shown row without items makes the render throw.
   */
  function RenderPage(tab: Tab, orders: Option<seq<BuyerOrderView>>): (page: PageView)
    ensures page.Crashed? <==>
      orders.Some? && exists v :: v in orders.value && TabFilter(tab)(v.row) && v.items.None?
  {
    match orders
    case None => Rendered([], None)
    case Some(views) =>
      var shown := Filter(ViewFilter(tab), views);
      if exists v :: v in shown && v.items.None? then Crashed
      else Rendered(Map(CardFor, shown), CheckoutBarFor(tab, Some(Map(ViewRow, views))))
  }

  /**
   * As written, getBuyerOrders selects no items, so whenever the tab has an
   * order to show the page fails to render: no card, button or checkout bar
   * appears.
   */
  lemma AsWrittenPageCrashes(tab: Tab, orders: seq<Order>, users: seq<User>, buyerId: Id)
    requires FilteredOrders(tab, Some(GetBuyerOrders(orders, users, buyerId))).value != []
    ensures RenderPage(tab, Some(AsReceived(GetBuyerOrders(orders, users, buyerId)))) == Crashed
  {
    var rows := GetBuyerOrders(orders, users, buyerId);
    var shown := FilteredOrders(tab, Some(rows)).value;
    var views := AsReceived(rows);
    assert shown[0] in shown;
    var j :| 0 <= j < |rows| && rows[j] == shown[0];
    assert Map(ViewRow, views)[j] == views[j].row;
    assert views[j] in views && TabFilter(tab)(views[j].row);
  }

  /**
   * With the items selected, the page renders one card per order on the
   * tab, in the query's order, each with its status's buttons and its item
   * lines, and the checkout bar of CheckoutBarShown.
   */
  lemma CorrectedPageRenders(tab: Tab, orders: seq<Order>, users: seq<User>, items: seq<OrderItem>,
                             products: seq<Product>, buyerId: Id)
    ensures var rows := GetBuyerOrders(orders, users, buyerId);
            var shown := FilteredOrders(tab, Some(rows)).value;
            var page := RenderPage(tab, Some(GetBuyerOrdersWithItems(orders, users, items, products, buyerId)));
            page.Rendered? && |page.cards| == |shown| &&
            (forall i :: 0 <= i < |shown| ==>
               page.cards[i].orderId == shown[i].id &&
               page.cards[i].actions == BuyerActions(shown[i].status) &&
               page.cards[i].lines == ItemsOf(shown[i].id, items, products)) &&
            page.bar == CheckoutBarFor(tab, Some(rows))
  {
    var rows := GetBuyerOrders(orders, users, buyerId);
    var views := GetBuyerOrdersWithItems(orders, users, items, products, buyerId);
    var shownViews := Filter(ViewFilter(tab), views);
    FilterMap(TabFilter(tab), ViewFilter(tab), ViewRow, views);
    assert Map(ViewRow, shownViews) == FilteredOrders(tab, Some(rows)).value;
    forall i | 0 <= i < |shownViews|
      ensures shownViews[i].row == Map(ViewRow, shownViews)[i]
      ensures shownViews[i].items == Some(ItemsOf(shownViews[i].row.id, items, products))
    {
      assert shownViews[i] in views;
    }
  }
}
