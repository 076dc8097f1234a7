/** The buyer's floating button that shows how many orders are in progress. */
module FloatingOrderButton {
  import opened Wrappers
  import opened Relational
  import opened Schema
  import opened OrdersRouter
  import BuyerOrdersPage

  /** This component's own list: `["pending", "confirmed", "delivering"].includes(order.status)`. */
  predicate CountsAsActive(row: BuyerOrderRow) {
    row.status == Pending || row.status == Confirmed || row.status == Delivering
  }

  /** `orders?.filter(...).length || 0`. */
  function ActiveCount(orders: Option<seq<BuyerOrderRow>>): (n: nat)
    ensures orders.None? ==> n == 0
    ensures orders.Some? ==> n <= |orders.value|
    ensures n == 0 <==> orders.None? || forall row :: row in orders.value ==> !CountsAsActive(row)
  {
    match orders
    case None => 0
    case Some(rows) =>
      var active := Filter(CountsAsActive, rows);
      if active == [] then 0 else assert active[0] in active; |active|
  }

  /** `if (activeCount === 0) return null`. */
  predicate Visible(orders: Option<seq<BuyerOrderRow>>): (shown: bool)
    ensures shown ==> orders.Some? && orders.value != []
  {
    ActiveCount(orders) != 0
  }

  lemma VisibleIffActiveOrder(orders: Option<seq<BuyerOrderRow>>)
    ensures Visible(orders) <==> orders.Some? && exists row :: row in orders.value && CountsAsActive(row)
  {
  }

  /** The badge count is the length of the orders page's active tab for the same data. */
  lemma CountMatchesActiveTab(rows: seq<BuyerOrderRow>)
    ensures ActiveCount(Some(rows)) == |BuyerOrdersPage.FilteredOrders(BuyerOrdersPage.Active, Some(rows)).value|
  {
    FilterWeakerKeepsMore(CountsAsActive, BuyerOrdersPage.ActiveRow, rows);
    FilterWeakerKeepsMore(BuyerOrdersPage.ActiveRow, CountsAsActive, rows);
  }
}
