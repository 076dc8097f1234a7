/**
 * The orders router's one query, getBuyerOrders: the caller's orders joined
 * with their vendor's profile, newest first.
 */
module OrdersRouter {
  import opened Wrappers
  import opened Relational
  import opened Schema

  /**
   * One result row. It carries exactly these five columns: there is no list of
   * items and no buyer or vendor id.
   */
  datatype BuyerOrderRow = BuyerOrderRow(
    id: Id,
    status: Status,
    totalPrice: Int4,
    createdAt: Timestamp,
    vendor: VendorInfo)

  function OrderVendorId(o: Order): Id { o.vendorId }
  function RowId(r: BuyerOrderRow): Id { r.id }
  function RowCreatedAt(r: BuyerOrderRow): int { r.createdAt }

  /** The select list: order columns plus the joined vendor's name and avatar. */
  function ProjectBuyerOrder(o: Order, vendor: User): BuyerOrderRow {
    BuyerOrderRow(o.id, o.status, o.totalPrice, o.createdAt, VendorInfo(vendor.name, vendor.avatarUrl))
  }

  /**
   * `SELECT ... FROM orders INNER JOIN users ON orders.vendor_id = users.id
   *  WHERE orders.buyer_id = buyerId ORDER BY orders.created_at DESC`.
   */
  function GetBuyerOrders(orders: seq<Order>, users: seq<User>, buyerId: Id): (rows: seq<BuyerOrderRow>)
    ensures SortedDesc(RowCreatedAt, rows)
    ensures forall row :: row in rows <==>
      exists o, u :: o in orders && u in users && o.buyerId == buyerId && u.id == o.vendorId &&
                     row == ProjectBuyerOrder(o, u)
  {
    var mine := Filter((o: Order) => o.buyerId == buyerId, orders);
    var joined := InnerJoin(mine, users, OrderVendorId, UserId, ProjectBuyerOrder);
    var rows := SortDesc(RowCreatedAt, joined);
    assert forall row :: row in rows <==> row in joined by {
      forall row ensures row in rows <==> row in joined {
        assert row in rows <==> row in multiset(rows);
        assert row in joined <==> row in multiset(joined);
      }
    }
    rows
  }

  /** Every returned row belongs to the caller. */
  lemma OnlyCallersOrders(orders: seq<Order>, users: seq<User>, buyerId: Id, row: BuyerOrderRow)
    requires row in GetBuyerOrders(orders, users, buyerId)
    ensures exists o :: o in orders && o.id == row.id && o.buyerId == buyerId && o.status == row.status
  {
  }

  /**
   * Because users.id is a primary key, each of the caller's orders appears
   * exactly once when its vendor exists and not at all otherwise; no order
   * is duplicated by the join.
   */
  lemma EachOrderOnce(orders: seq<Order>, users: seq<User>, buyerId: Id, o: Order)
    requires UniqueKeys(OrderId, orders) && UniqueKeys(UserId, users)
    requires o in orders
    ensures CountKey(RowId, GetBuyerOrders(orders, users, buyerId), o.id) ==
      (if o.buyerId == buyerId && exists u :: u in users && u.id == o.vendorId then 1 else 0)
  {
    var p := (o: Order) => o.buyerId == buyerId;
    var mine := Filter(p, orders);
    var joined := InnerJoin(mine, users, OrderVendorId, UserId, ProjectBuyerOrder);
    var rows := GetBuyerOrders(orders, users, buyerId);
    assert rows == SortDesc(RowCreatedAt, joined);
    SortDescCountKey(RowCreatedAt, joined, RowId, o.id);
    FilterCountKey(p, OrderId, orders, o.id);
    JoinCountKey(mine, users, OrderVendorId, UserId, ProjectBuyerOrder, OrderId, RowId, o.id);
    assert CountKey(OrderId, orders, o.id) <= 1;
    if o.buyerId == buyerId && exists u :: u in users && u.id == o.vendorId {
      var u :| u in users && u.id == o.vendorId;
      assert o in mine;
      JoinKeepsMatched(mine, users, OrderVendorId, UserId, ProjectBuyerOrder, OrderId, RowId, o, u);
    } else {
      forall row | row in rows ensures row.id != o.id {
        var o', u :| o' in orders && u in users && o'.buyerId == buyerId && u.id == o'.vendorId &&
                     row == ProjectBuyerOrder(o', u);
        if o'.id == o.id {
          KeyedRowsEqual(OrderId, orders, o, o');
        }
      }
    }
  }

  /** One line of an order as a page lists it: `item.quantity` and `item.productName`. */
  datatype ItemLine = ItemLine(id: Id, quantity: Int4, productName: string)

  /**
   * A row as the client reads it. `items` stands for the `order.items`
   * property, absent (`undefined`) when the query does not select it.
   */
  datatype BuyerOrderView = BuyerOrderView(row: BuyerOrderRow, items: Option<seq<ItemLine>>)

  function ViewRow(v: BuyerOrderView): BuyerOrderRow { v.row }

  function WithoutItems(row: BuyerOrderRow): BuyerOrderView { BuyerOrderView(row, None) }

  /** The rows of getBuyerOrders as the client receives them: no row has an `items` property. */
  function AsReceived(rows: seq<BuyerOrderRow>): (views: seq<BuyerOrderView>)
    ensures Map(ViewRow, views) == rows
    ensures forall v :: v in views ==> v.items.None?
  {
    MapInverse(WithoutItems, ViewRow, rows);
    Map(WithoutItems, rows)
  }

  function ItemProductId(i: OrderItem): Id { i.productId }

  function ProjectItemLine(i: OrderItem, p: Product): ItemLine {
    ItemLine(i.id, i.quantity, p.name)
  }

  /** The items of one order joined with their product's name. */
  function ItemsOf(orderId: Id, items: seq<OrderItem>, products: seq<Product>): (lines: seq<ItemLine>)
    ensures forall l :: l in lines <==>
      exists i, p :: i in items && p in products && i.orderId == orderId && p.id == i.productId &&
                     l == ProjectItemLine(i, p)
  {
    InnerJoin(Filter((i: OrderItem) => i.orderId == orderId, items), products, ItemProductId, ProductId, ProjectItemLine)
  }

  /**
   * getBuyerOrders with the order's items selected as well: the rows of the
   * query as written, in the same order, each carrying its item lines.
   */
  function GetBuyerOrdersWithItems(orders: seq<Order>, users: seq<User>, items: seq<OrderItem>,
                                   products: seq<Product>, buyerId: Id): (views: seq<BuyerOrderView>)
    ensures Map(ViewRow, views) == GetBuyerOrders(orders, users, buyerId)
    ensures forall v :: v in views ==> v.items == Some(ItemsOf(v.row.id, items, products))
  {
    var attach := (r: BuyerOrderRow) => BuyerOrderView(r, Some(ItemsOf(r.id, items, products)));
    MapInverse(attach, ViewRow, GetBuyerOrders(orders, users, buyerId));
    Map(attach, GetBuyerOrders(orders, users, buyerId))
  }
}
