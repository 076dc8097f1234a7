/** The products router's one query, getAvailable. */
module ProductsRouter {
  import opened Wrappers
  import opened Relational
  import opened Schema

  /**
   * One result row. `vendorId` stands for the property a client reads under
   * that name: the query selects id, name, price, imageUrl and the vendor's
   * name and avatar, so as written it is always absent (`undefined`).
   */
  datatype AvailableProduct = AvailableProduct(
    id: Id,
    name: string,
    price: Int4,
    imageUrl: Option<string>,
    vendor: VendorInfo,
    vendorId: Option<Id>)

  function ProductVendorId(p: Product): Id { p.vendorId }

  /** The select list as written: the product's vendor id is not selected. */
  function ProjectProduct(p: Product, vendor: User): AvailableProduct {
    AvailableProduct(p.id, p.name, p.price, p.imageUrl, VendorInfo(vendor.name, vendor.avatarUrl), None)
  }

  /**
   * `SELECT ... FROM products INNER JOIN users ON products.vendor_id = users.id
   *  WHERE products.is_available = true`, in store order (the query has no
   * ORDER BY).
   */
  function GetAvailable(products: seq<Product>, users: seq<User>): (rows: seq<AvailableProduct>)
    ensures forall row :: row in rows <==>
      exists p, u :: p in products && u in users && p.isAvailable && u.id == p.vendorId &&
                     row == ProjectProduct(p, u)
  {
    InnerJoin(Filter((p: Product) => p.isAvailable, products), users, ProductVendorId, UserId, ProjectProduct)
  }

  /** As written, no row tells the client which vendor sells the product. */
  lemma AvailableRowsLackVendorId(products: seq<Product>, users: seq<User>, row: AvailableProduct)
    requires row in GetAvailable(products, users)
    ensures row.vendorId.None?
  {
  }

  /** A listed product is available and its vendor row exists; the vendor columns come from that row. */
  lemma ListedProductHasVendor(products: seq<Product>, users: seq<User>, row: AvailableProduct)
    requires row in GetAvailable(products, users)
    ensures exists p, u :: p in products && p.id == row.id && p.isAvailable &&
                           u in users && u.id == p.vendorId &&
                           row.vendor == VendorInfo(u.name, u.avatarUrl)
  {
  }

  /** The select list with the vendor id added (the corrected query). */
  function ProjectProductWithVendorId(p: Product, vendor: User): AvailableProduct {
    AvailableProduct(p.id, p.name, p.price, p.imageUrl, VendorInfo(vendor.name, vendor.avatarUrl), Some(p.vendorId))
  }

  /** getAvailable with `vendorId: productsTable.vendorId` added to the select list. */
  function GetAvailableWithVendorId(products: seq<Product>, users: seq<User>): (rows: seq<AvailableProduct>)
    ensures forall row :: row in rows <==>
      exists p, u :: p in products && u in users && p.isAvailable && u.id == p.vendorId &&
                     row == ProjectProductWithVendorId(p, u)
  {
    InnerJoin(Filter((p: Product) => p.isAvailable, products), users, ProductVendorId, UserId, ProjectProductWithVendorId)
  }

  /** In the corrected query every row names the vendor of its product. */
  lemma CorrectedRowsCarryVendorId(products: seq<Product>, users: seq<User>, row: AvailableProduct)
    requires UniqueKeys(ProductId, products)
    requires row in GetAvailableWithVendorId(products, users)
    ensures row.vendorId.Some?
    ensures forall p :: p in products && p.id == row.id ==> row.vendorId.value == p.vendorId
  {
    var p, u :| p in products && u in users && p.isAvailable && u.id == p.vendorId &&
                row == ProjectProductWithVendorId(p, u);
    forall p' | p' in products && p'.id == row.id ensures row.vendorId.value == p'.vendorId {
      KeyedRowsEqual(ProductId, products, p, p');
    }
  }

  /** Under unique keys each available product with an existing vendor is listed exactly once. */
  lemma EachAvailableProductOnce(products: seq<Product>, users: seq<User>, p: Product)
    requires UniqueKeys(ProductId, products) && UniqueKeys(UserId, users)
    requires p in products
    ensures CountKey(RowProductId, GetAvailable(products, users), p.id) ==
      (if p.isAvailable && exists u :: u in users && u.id == p.vendorId then 1 else 0)
  {
    var f := (p: Product) => p.isAvailable;
    var avail := Filter(f, products);
    var rows := GetAvailable(products, users);
    FilterCountKey(f, ProductId, products, p.id);
    JoinCountKey(avail, users, ProductVendorId, UserId, ProjectProduct, ProductId, RowProductId, p.id);
    assert CountKey(ProductId, products, p.id) <= 1;
    if p.isAvailable && exists u :: u in users && u.id == p.vendorId {
      var u :| u in users && u.id == p.vendorId;
      JoinKeepsMatched(avail, users, ProductVendorId, UserId, ProjectProduct, ProductId, RowProductId, p, u);
    } else {
      forall row | row in rows ensures row.id != p.id {
        var p', u :| p' in products && u in users && p'.isAvailable && u.id == p'.vendorId &&
                     row == ProjectProduct(p', u);
        if p'.id == p.id {
          KeyedRowsEqual(ProductId, products, p, p');
        }
      }
    }
  }

  function RowProductId(r: AvailableProduct): Id { r.id }
}
