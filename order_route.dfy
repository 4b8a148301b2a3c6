/** `POST /api/order` (src/app/api/order/route.ts): check that the three
    request values are present, then hand them to `saveOrderToSanity`. */
module OrderRoute {
  import opened Options
  import opened Json
  import opened ContentStore
  import opened OrderPersistence

  /** `{ message }` with status 200, or `{ error }` with an error status. */
  datatype Response = Success(message: string) | Failure(status: int, error: string)

  const Saved200 := Success("Order successfully saved to Sanity")
  const MissingData := Failure(400, "Missing required data")
  const SaveFailed := Failure(500, "Failed to save order")

  /** The destructured body. Billing details and a cart are read as an
      object and an array, truthy whenever present, and a missing one is
      `None`; the total is any JSON value, `Undefined` when missing. */
  datatype OrderRequest = OrderRequest(billingDetails: Option<Billing>, addCart: Option<seq<CartItem>>,
                                       totalPrice: Value)

  /** `!billingDetails || !addCart || !totalPrice`: a total that is missing,
      `null`, `false`, `0` or `""` counts as missing, an empty cart does not. */
  predicate MissingRequired(req: OrderRequest)
    ensures MissingRequired(req) <==>
      || req.billingDetails.None? || req.addCart.None?
      || req.totalPrice in {Undefined, Null, Bool(false), Num(0), Str("")}
  {
    req.billingDetails.None? || req.addCart.None? || !Truthy(req.totalPrice)
  }

  /** The customers, the orders and the response after one request. `body`
      is `None` when it is not JSON or is `null` (destructuring throws);
      `outage` is passed on to `saveOrderToSanity`. */
  function Handle(customers: seq<Customer>, orders: seq<OrderDoc>, body: Option<OrderRequest>,
                  outage: Option<SaveStep>): (r: (seq<Customer>, seq<OrderDoc>, Response))
    ensures body.None? ==> r == (customers, orders, SaveFailed)
    // a missing value is a 400, and nothing is saved
    ensures body.Some? && MissingRequired(body.value) ==> r == (customers, orders, MissingData)
    ensures r.2 == MissingData <==> body.Some? && MissingRequired(body.value)
    // otherwise the store changes exactly as one save with the request's own values
    ensures body.Some? && !MissingRequired(body.value) ==>
      var req := body.value;
      var s := Save(customers, orders, req.billingDetails.value, req.addCart.value, req.totalPrice, outage);
      && r.0 == s.customers && r.1 == s.orders
      && (r.2 == Saved200 <==> s.outcome == OrderPersistence.Saved)
      && (r.2 != Saved200 ==> r.2 == SaveFailed)
  {
    if body.None? then (customers, orders, SaveFailed)
    else
      var req := body.value;
      if MissingRequired(req) then (customers, orders, MissingData)
      else
        var s := Save(customers, orders, req.billingDetails.value, req.addCart.value, req.totalPrice, outage);
        (s.customers, s.orders, if s.outcome.Saved? then Saved200 else SaveFailed)
  }

  /** The route handler against the store. */
  method Post(store: Dataset, body: Option<OrderRequest>, outage: Option<SaveStep>) returns (resp: Response)
    modifies store
    ensures (store.customers, store.orders, resp) == Handle(old(store.customers), old(store.orders), body, outage)
    ensures store.docs == old(store.docs)
  {
    if body.None? {
      return SaveFailed;
    }
    var req := body.value;
    if req.billingDetails.None? || req.addCart.None? || !Truthy(req.totalPrice) {
      return MissingData;
    }
    var outcome := SaveOrderToSanity(store, req.billingDetails.value, req.addCart.value, req.totalPrice, outage);
    if outcome.Failed? {
      return SaveFailed;
    }
    resp := Saved200;
  }

  /** An empty cart passes the check and is saved as an order with no items. */
  lemma EmptyCartSaved(customers: seq<Customer>, orders: seq<OrderDoc>, billing: Billing, total: Value)
    requires Truthy(total)
    ensures var r := Handle(customers, orders, Some(OrderRequest(Some(billing), Some([]), total)), None);
      r.2 == Saved200 && |r.1| == |orders| + 1 && r.1[|orders|].items == []
  {
  }

  /** The check is on presence, not type: a total sent as the string "100"
      reaches the store as that string, while `""` and `false` are missing. */
  lemma StringTotalStored(customers: seq<Customer>, orders: seq<OrderDoc>, billing: Billing, cart: seq<CartItem>)
    ensures var r := Handle(customers, orders, Some(OrderRequest(Some(billing), Some(cart), Str("100"))), None);
      r.2 == Saved200 && r.1[|orders|].totalAmount == Str("100")
    ensures Handle(customers, orders, Some(OrderRequest(Some(billing), Some(cart), Str(""))), None).2 == MissingData
    ensures Handle(customers, orders, Some(OrderRequest(Some(billing), Some(cart), Bool(false))), None).2 == MissingData
  {
    SavedOrder(customers, orders, billing, cart, Str("100"), None);
  }
}
