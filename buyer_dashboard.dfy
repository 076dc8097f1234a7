/**
 * The buyer dashboard: the "Order Now" button of each listed product, the
 * order request it sends, and the set of product ids whose request is in
 * flight.
 */
module BuyerDashboard {
  import opened Wrappers
  import opened Relational
  import opened Schema
  import opened ProductsRouter

  datatype LineRequest = LineRequest(productId: Id, quantity: int)

  /** The input of orders.create; an absent vendorId is sent as `undefined`. */
  datatype CreateOrderRequest = CreateOrderRequest(vendorId: Option<Id>, items: seq<LineRequest>)

  /** The request handleBuy builds from a listed product. */
  function BuyRequest(product: AvailableProduct): (req: CreateOrderRequest)
    ensures req.vendorId == product.vendorId
    ensures |req.items| == 1 && req.items[0].productId == product.id && req.items[0].quantity == 1
  {
    CreateOrderRequest(product.vendorId, [LineRequest(product.id, 1)])
  }

  /** As written, the products handleBuy receives come from getAvailable, so no vendor is sent. */
  lemma AsWrittenRequestHasNoVendor(products: seq<Product>, users: seq<User>, product: AvailableProduct)
    requires product in GetAvailable(products, users)
    ensures BuyRequest(product).vendorId == None
  {
    AvailableRowsLackVendorId(products, users, product);
  }

  /** With the vendor id selected, the request names the vendor that sells the product. */
  lemma CorrectedRequestCarriesVendor(products: seq<Product>, users: seq<User>, product: AvailableProduct, p: Product)
    requires UniqueKeys(ProductId, products)
    requires product in GetAvailableWithVendorId(products, users)
    requires p in products && p.id == product.id
    ensures BuyRequest(product) == CreateOrderRequest(Some(p.vendorId), [LineRequest(p.id, 1)])
  {
    CorrectedRowsCarryVendorId(products, users, product);
  }

  /** The Order Now button of one product. */
  datatype OrderButton = OrderButton(disabled: bool, caption: string)

  function OrderButtonFor(orderingIds: set<Id>, productId: Id): (b: OrderButton)
    ensures b.disabled <==> productId in orderingIds
    ensures b.caption == "Adding..." <==> productId in orderingIds
    ensures b.caption == "Order Now" <==> productId !in orderingIds
  {
    if productId in orderingIds then OrderButton(true, "Adding...") else OrderButton(false, "Order Now")
  }

  /**
   * The page's orderingIds state, the requests it has sent and the alerts it
   * has shown. The `onSettled` that clears an id is passed to `mutate` for
   * that one call, and the mutation hook runs such per-call callbacks only
   * for its latest `mutate` call; `latest` is the product of that call. The
   * `onError` alert is passed to the hook itself and runs for every call.
   */
  class Dashboard {
    var orderingIds: set<Id>
    var sent: seq<CreateOrderRequest>
    var latest: Option<Id>
    var alerts: nat

    constructor ()
      ensures orderingIds == {} && sent == [] && latest == None && alerts == 0
    {
      orderingIds := {};
      sent := [];
      latest := None;
      alerts := 0;
    }

    /** handleBuy: adds the product id to the in-flight set and sends one request, now the latest call. */
    method HandleBuy(product: AvailableProduct)
      modifies this
      ensures orderingIds == old(orderingIds) + {product.id}
      ensures sent == old(sent) + [BuyRequest(product)]
      ensures latest == Some(product.id) && alerts == old(alerts)
    {
      orderingIds := orderingIds + {product.id};
      sent := sent + [BuyRequest(product)];
      latest := Some(product.id);
    }

    /**
     * The request for `product` settles (`fails` is its outcome). A failure
     * shows the hook's alert; the per-call onSettled removes the id only when
     * this request came from the latest call.
     */
    method Settle(product: AvailableProduct, fails: bool)
      modifies this
      ensures orderingIds == if old(latest) == Some(product.id) then old(orderingIds) - {product.id} else old(orderingIds)
      ensures alerts == old(alerts) + (if fails then 1 else 0)
      ensures sent == old(sent) && latest == old(latest)
    {
      if latest == Some(product.id) {
        orderingIds := orderingIds - {product.id};
      }
      if fails {
        alerts := alerts + 1;
      }
    }

    /**
     * The evidently intended settle, as when onSettled is registered on the
     * hook: it runs for every request, so the id always leaves the set.
     */
    method SettleEach(product: AvailableProduct, fails: bool)
      modifies this
      ensures orderingIds == old(orderingIds) - {product.id}
      ensures alerts == old(alerts) + (if fails then 1 else 0)
      ensures sent == old(sent) && latest == old(latest)
    {
      orderingIds := orderingIds - {product.id};
      if fails {
        alerts := alerts + 1;
      }
    }
  }

  /** A purchase of a product not already in flight leaves the set as it found it once settled. */
  method BuyAndSettle(d: Dashboard, product: AvailableProduct, fails: bool)
    requires product.id !in d.orderingIds
    modifies d
    ensures d.orderingIds == old(d.orderingIds)
    ensures d.sent == old(d.sent) + [BuyRequest(product)]
    ensures d.alerts == old(d.alerts) + (if fails then 1 else 0)
  {
    d.HandleBuy(product);
    d.Settle(product, fails);
  }

  /**
   * As written: Order Now on product a, then on product b before a's request
   * settles. Once both settle, a's id is still in the set, so a's button
   * stays disabled on "Adding...".
   */
  method OverlappedBuyStaysStuck(d: Dashboard, a: AvailableProduct, b: AvailableProduct, failsA: bool, failsB: bool)
    requires a.id != b.id && a.id !in d.orderingIds && b.id !in d.orderingIds
    modifies d
    ensures d.orderingIds == old(d.orderingIds) + {a.id}
    ensures OrderButtonFor(d.orderingIds, a.id) == OrderButton(true, "Adding...")
    ensures d.sent == old(d.sent) + [BuyRequest(a), BuyRequest(b)]
  {
    d.HandleBuy(a);
    d.HandleBuy(b);
    d.Settle(a, failsA);
    d.Settle(b, failsB);
  }

  /** With onSettled run for every request, the same overlapped purchases leave the set as it was. */
  method OverlappedBuyClears(d: Dashboard, a: AvailableProduct, b: AvailableProduct, failsA: bool, failsB: bool)
    requires a.id !in d.orderingIds && b.id !in d.orderingIds
    modifies d
    ensures d.orderingIds == old(d.orderingIds)
    ensures OrderButtonFor(d.orderingIds, a.id) == OrderButton(false, "Order Now")
    ensures d.sent == old(d.sent) + [BuyRequest(a), BuyRequest(b)]
  {
    d.HandleBuy(a);
    d.HandleBuy(b);
    d.SettleEach(a, failsA);
    d.SettleEach(b, failsB);
  }
}
