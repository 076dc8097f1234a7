/**
 * The three tables of the marketplace store: users, products and orders with
 * their items. Column defaults and the `ON DELETE CASCADE` foreign keys are
 * modelled as functions on a whole-store value.
 */
module Schema {
  import opened Wrappers
  import opened Relational

  /** `uuid` columns are opaque identifiers. */
  type Id = string

  /** `timestamp` columns, as a count of milliseconds. */
  type Timestamp = int

  /** A Postgres `integer` (int4) column value. */
  type Int4 = x: int | -0x8000_0000 <= x < 0x8000_0000

  /** The `order_status` enumeration. */
  datatype Status = Pending | Confirmed | Delivering | Completed | Cancelled

  /** The text the enumeration stores and the client compares against. */
  function StatusName(s: Status): string {
    match s
    case Pending => "pending"
    case Confirmed => "confirmed"
    case Delivering => "delivering"
    case Completed => "completed"
    case Cancelled => "cancelled"
  }

  /** Reads an enumeration value; any text outside the five labels is refused. */
  function ParseStatus(text: string): (r: Option<Status>)
    ensures r.Some? ==> StatusName(r.value) == text
    ensures r.None? ==> forall s: Status :: StatusName(s) != text
  {
    if text == "pending" then Some(Pending)
    else if text == "confirmed" then Some(Confirmed)
    else if text == "delivering" then Some(Delivering)
    else if text == "completed" then Some(Completed)
    else if text == "cancelled" then Some(Cancelled)
    else None
  }

  lemma StatusNameRoundTrip(s: Status)
    ensures ParseStatus(StatusName(s)) == Some(s)
  {
  }

  /** The `role` enumeration; a new user is a buyer. */
  datatype Role = Buyer | Seller

  /** The vendor columns a query joins onto its rows: the user's name and avatar. */
  datatype VendorInfo = VendorInfo(name: Option<string>, avatarUrl: Option<string>)

  /**
   * A users row with the columns the users router reads and writes. The
   * schema file declares only id, name, email, avatarUrl, role and createdAt;
   * the remaining columns are the ones the router's updates set.
   */
  datatype User = User(
    id: Id,
    name: Option<string>,
    email: string,
    avatarUrl: Option<string>,
    role: Role,
    createdAt: Timestamp,
    isActive: bool,
    isOnboarded: bool,
    businessName: Option<string>,
    businessDescription: Option<string>,
    phoneNumber: Option<string>,
    currentLatitude: Option<string>,
    currentLongitude: Option<string>,
    updatedAt: Option<Timestamp>)

  /** A products row. */
  datatype Product = Product(
    id: Id,
    vendorId: Id,
    name: string,
    description: Option<string>,
    price: Int4,
    imageUrl: Option<string>,
    isAvailable: bool,
    createdAt: Timestamp)

  /** An orders row: every order has a buyer, a vendor, a status and an integer total. */
  datatype Order = Order(
    id: Id,
    buyerId: Id,
    vendorId: Id,
    status: Status,
    totalPrice: Int4,
    createdAt: Timestamp)

  /** An order_items row: one product line of one order, with its price snapshot. */
  datatype OrderItem = OrderItem(
    id: Id,
    orderId: Id,
    productId: Id,
    quantity: Int4,
    priceAtOrder: Int4)

  /** The values an insert into orders supplies; status may be left out. */
  datatype NewOrder = NewOrder(
    buyerId: Id,
    vendorId: Id,
    status: Option<Status>,
    totalPrice: Int4)

  /**
   * The row an insert creates: status defaults to pending, the id is the
   * random uuid and createdAt the current time that the database supplies.
   */
  function InsertOrder(n: NewOrder, randomId: Id, now: Timestamp): (o: Order)
    ensures n.status.None? ==> o.status == Pending
    ensures n.status.Some? ==> o.status == n.status.value
    ensures o.buyerId == n.buyerId && o.vendorId == n.vendorId && o.totalPrice == n.totalPrice
    ensures o.id == randomId && o.createdAt == now
  {
    Order(randomId, n.buyerId, n.vendorId, n.status.GetOr(Pending), n.totalPrice, now)
  }

  function UserId(u: User): Id { u.id }
  function ProductId(p: Product): Id { p.id }
  function OrderId(o: Order): Id { o.id }
  function ItemId(i: OrderItem): Id { i.id }

  /** The whole store. */
  datatype Store = Store(
    users: seq<User>,
    products: seq<Product>,
    orders: seq<Order>,
    items: seq<OrderItem>)

  function UserIds(st: Store): set<Id> { set u | u in st.users :: u.id }
  function ProductIds(st: Store): set<Id> { set p | p in st.products :: p.id }
  function OrderIds(st: Store): set<Id> { set o | o in st.orders :: o.id }

  /** Every foreign key refers to an existing row. */
  ghost predicate ForeignKeysHold(st: Store) {
    && (forall p :: p in st.products ==> p.vendorId in UserIds(st))
    && (forall o :: o in st.orders ==> o.buyerId in UserIds(st) && o.vendorId in UserIds(st))
    && (forall i :: i in st.items ==> i.orderId in OrderIds(st) && i.productId in ProductIds(st))
  }

  /** Primary keys are unique and foreign keys hold. */
  ghost predicate Consistent(st: Store) {
    && UniqueKeys(UserId, st.users)
    && UniqueKeys(ProductId, st.products)
    && UniqueKeys(OrderId, st.orders)
    && UniqueKeys(ItemId, st.items)
    && ForeignKeysHold(st)
  }

  /** Deleting an order also deletes its items (order_items.order_id cascades). */
  function DeleteOrder(st: Store, orderId: Id): (r: Store)
    ensures r.users == st.users && r.products == st.products
    ensures forall o :: o in r.orders <==> o in st.orders && o.id != orderId
    ensures forall i :: i in r.items <==> i in st.items && i.orderId != orderId
  {
    st.(orders := Filter((o: Order) => o.id != orderId, st.orders),
        items := Filter((i: OrderItem) => i.orderId != orderId, st.items))
  }

  /** Deleting a product deletes exactly the items that reference it (order_items.product_id cascades). */
  function DeleteProduct(st: Store, productId: Id): (r: Store)
    ensures r.users == st.users && r.orders == st.orders
    ensures forall p :: p in r.products <==> p in st.products && p.id != productId
    ensures forall i :: i in r.items <==> i in st.items && i.productId != productId
  {
    st.(products := Filter((p: Product) => p.id != productId, st.products),
        items := Filter((i: OrderItem) => i.productId != productId, st.items))
  }

  /**
   * Deleting a user cascades to every order in which the user is buyer or
   * vendor, to the user's products, and from those to every item of a
   * deleted order or of a deleted product.
   */
  function DeleteUser(st: Store, userId: Id): (r: Store)
    ensures forall u :: u in r.users <==> u in st.users && u.id != userId
    ensures forall p :: p in r.products <==> p in st.products && p.vendorId != userId
    ensures forall o :: o in r.orders <==> o in st.orders && o.buyerId != userId && o.vendorId != userId
  {
    var goneOrders := set o | o in st.orders && (o.buyerId == userId || o.vendorId == userId) :: o.id;
    var goneProducts := set p | p in st.products && p.vendorId == userId :: p.id;
    Store(
      Filter((u: User) => u.id != userId, st.users),
      Filter((p: Product) => p.vendorId != userId, st.products),
      Filter((o: Order) => o.buyerId != userId && o.vendorId != userId, st.orders),
      Filter((i: OrderItem) => i.orderId !in goneOrders && i.productId !in goneProducts, st.items))
  }

  lemma DeleteOrderConsistent(st: Store, orderId: Id)
    requires Consistent(st)
    ensures Consistent(DeleteOrder(st, orderId))
  {
    var r := DeleteOrder(st, orderId);
    FilterUniqueKeys((o: Order) => o.id != orderId, OrderId, st.orders);
    FilterUniqueKeys((i: OrderItem) => i.orderId != orderId, ItemId, st.items);
    forall i | i in r.items ensures i.orderId in OrderIds(r) {
      var o :| o in st.orders && o.id == i.orderId;
      assert o in r.orders;
    }
  }

  lemma DeleteProductConsistent(st: Store, productId: Id)
    requires Consistent(st)
    ensures Consistent(DeleteProduct(st, productId))
  {
    var r := DeleteProduct(st, productId);
    FilterUniqueKeys((p: Product) => p.id != productId, ProductId, st.products);
    FilterUniqueKeys((i: OrderItem) => i.productId != productId, ItemId, st.items);
    forall i | i in r.items ensures i.productId in ProductIds(r) {
      var p :| p in st.products && p.id == i.productId;
      assert p in r.products;
    }
  }

  /**
   * Within a consistent store, an item survives the deletion of a user exactly
   * when its order and its product both survive.
   */
  lemma DeleteUserItems(st: Store, userId: Id, i: OrderItem)
    requires Consistent(st)
    requires i in st.items
    ensures i in DeleteUser(st, userId).items <==>
      (exists o :: o in DeleteUser(st, userId).orders && o.id == i.orderId) &&
      (exists p :: p in DeleteUser(st, userId).products && p.id == i.productId)
  {
    var r := DeleteUser(st, userId);
    var o :| o in st.orders && o.id == i.orderId;
    var p :| p in st.products && p.id == i.productId;
    var goneOrders := set o | o in st.orders && (o.buyerId == userId || o.vendorId == userId) :: o.id;
    var goneProducts := set p | p in st.products && p.vendorId == userId :: p.id;
    OrderIdDeterminesRow(st.orders, o);
    ProductIdDeterminesRow(st.products, p);
    assert i.orderId in goneOrders <==> (o.buyerId == userId || o.vendorId == userId);
    assert i.productId in goneProducts <==> p.vendorId == userId;
  }

  /** Under a primary key, the row with a given id is the only one. */
  lemma OrderIdDeterminesRow(orders: seq<Order>, o: Order)
    requires UniqueKeys(OrderId, orders) && o in orders
    ensures forall o' :: o' in orders && o'.id == o.id ==> o' == o
  {
    forall o' | o' in orders && o'.id == o.id ensures o' == o {
      KeyedRowsEqual(OrderId, orders, o, o');
    }
  }

  lemma ProductIdDeterminesRow(products: seq<Product>, p: Product)
    requires UniqueKeys(ProductId, products) && p in products
    ensures forall p' :: p' in products && p'.id == p.id ==> p' == p
  {
    forall p' | p' in products && p'.id == p.id ensures p' == p {
      KeyedRowsEqual(ProductId, products, p, p');
    }
  }

  lemma DeleteUserConsistent(st: Store, userId: Id)
    requires Consistent(st)
    ensures Consistent(DeleteUser(st, userId))
  {
    var r := DeleteUser(st, userId);
    var goneOrders := set o | o in st.orders && (o.buyerId == userId || o.vendorId == userId) :: o.id;
    var goneProducts := set p | p in st.products && p.vendorId == userId :: p.id;
    FilterUniqueKeys((u: User) => u.id != userId, UserId, st.users);
    FilterUniqueKeys((p: Product) => p.vendorId != userId, ProductId, st.products);
    FilterUniqueKeys((o: Order) => o.buyerId != userId && o.vendorId != userId, OrderId, st.orders);
    FilterUniqueKeys((i: OrderItem) => i.orderId !in goneOrders && i.productId !in goneProducts, ItemId, st.items);
    forall p | p in r.products ensures p.vendorId in UserIds(r) {
      var u :| u in st.users && u.id == p.vendorId;
      assert u in r.users;
    }
    forall o | o in r.orders ensures o.buyerId in UserIds(r) && o.vendorId in UserIds(r) {
      var b :| b in st.users && b.id == o.buyerId;
      var v :| v in st.users && v.id == o.vendorId;
      assert b in r.users && v in r.users;
    }
    forall i | i in r.items ensures i.orderId in OrderIds(r) && i.productId in ProductIds(r) {
      DeleteUserItems(st, userId, i);
    }
  }
}
