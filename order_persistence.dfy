/** `saveOrderToSanity` (src/utils/page.ts): find or create the customer,
    number the order after the most recent one, and create a `pending`
    order whose line items mirror the cart. */
module OrderPersistence {
  import opened Options
  import opened Json
  import opened ContentStore
  import opened OrderIds

  /** The billing details the function reads. `addressLine2` is optional. */
  datatype Billing = Billing(fullName: string, email: string, phoneNumber: string,
                             addressLine1: string, addressLine2: Option<string>, city: string)

  /** A cart entry as the function reads it (`name`, `imageUrl`, `Quantity`,
      `Finalprice`). */
  datatype CartItem = CartItem(name: string, imageUrl: string, quantity: int, finalPrice: int)

  /** The content-store call that throws, if any. */
  datatype SaveStep = FindCustomer | CreateCustomer | FindLastOrder | CreateOrder

  datatype SaveOutcome = Saved | Failed(message: string)

  /** The customer and order collections after the call, and its outcome. */
  datatype SaveResult = SaveResult(customers: seq<Customer>, orders: seq<OrderDoc>, outcome: SaveOutcome)

  /** Whether a run reaches the store call `step`: the customer is created
      only when no existing one matches. */
  predicate Reaches(step: SaveStep, hasCustomer: bool) {
    step != CreateCustomer || !hasCustomer
  }

  const SaveFailure := Failed("Failed to save order to Sanity")
  const PendingStatus := "pending"

  /** The customer document created for new billing details: the address
      stored is `addressLine1` only. */
  function NewCustomer(b: Billing): (c: Customer)
    ensures c.fullName == b.fullName && c.email == b.email && c.phoneNumber == b.phoneNumber
    ensures c.address == b.addressLine1 && c.city == b.city
  {
    Customer(b.fullName, b.email, b.phoneNumber, b.addressLine1, b.city)
  }

  /** `` `${addressLine1} ${addressLine2 ? addressLine2 : ""}` ``: the space is
      always there, even without a second line. */
  function ShippingAddress(b: Billing): (s: string)
    ensures b.addressLine2.None? ==> s == b.addressLine1 + " "
    ensures b.addressLine2.Some? ==> s == b.addressLine1 + " " + b.addressLine2.value
  {
    b.addressLine1 + " " + (if b.addressLine2.Some? then b.addressLine2.value else "")
  }

  /** `cartItems.map(...)`: one order item per cart item, in cart order. */
  function OrderItemOf(item: CartItem): OrderItem {
    OrderItem(item.name, item.imageUrl, item.quantity, item.finalPrice, item.finalPrice * item.quantity)
  }

  function LineItems(cart: seq<CartItem>): (items: seq<OrderItem>)
    ensures |items| == |cart|
    ensures forall i :: 0 <= i < |cart| ==>
      && items[i].name == cart[i].name && items[i].image == cart[i].imageUrl
      && items[i].quantity == cart[i].quantity && items[i].unitPrice == cart[i].finalPrice
      && items[i].totalPrice == cart[i].finalPrice * cart[i].quantity
  {
    if cart == [] then [] else [OrderItemOf(cart[0])] + LineItems(cart[1..])
  }

  /** Mapping distributes over concatenation of carts. */
  lemma {:induction false} LineItemsAppend(a: seq<CartItem>, b: seq<CartItem>)
    ensures LineItems(a + b) == LineItems(a) + LineItems(b)
    decreases |a|
  {
    if a != [] {
      assert (a + b)[1..] == a[1..] + b;
      LineItemsAppend(a[1..], b);
    }
  }

  /** The effect of one call on the customer and order collections. */
  function Save(customers: seq<Customer>, orders: seq<OrderDoc>, billing: Billing, cart: seq<CartItem>,
                totalAmount: Value, outage: Option<SaveStep>): (r: SaveResult)
    // an existing (email, fullName) match is reused and no customer is created
    ensures MatchingCustomer(customers, billing.email, billing.fullName).Some? ==> r.customers == customers
    // otherwise exactly one customer is created, unless the store fails before that
    ensures MatchingCustomer(customers, billing.email, billing.fullName).None? ==>
      if outage == Some(FindCustomer) || outage == Some(CreateCustomer) then r.customers == customers
      else r.customers == customers + [NewCustomer(billing)]
    // every failure surfaces as the same message and creates no order
    ensures r.outcome.Failed? ==> r.outcome == SaveFailure && r.orders == orders
    // the call succeeds exactly when no store call it reaches throws
    ensures r.outcome == Saved <==>
      outage.None? || !Reaches(outage.value, MatchingCustomer(customers, billing.email, billing.fullName).Some?)
    // on success exactly one order is appended
    ensures r.outcome == Saved ==> |r.orders| == |orders| + 1 && r.orders[..|orders|] == orders
  {
    if outage == Some(FindCustomer) then SaveResult(customers, orders, SaveFailure)
    else
      var existing := MatchingCustomer(customers, billing.email, billing.fullName);
      if existing.None? && outage == Some(CreateCustomer) then SaveResult(customers, orders, SaveFailure)
      else
        var customers' := if existing.Some? then customers else customers + [NewCustomer(billing)];
        var customerRef := if existing.Some? then existing.value else |customers|;
        if outage == Some(FindLastOrder) || outage == Some(CreateOrder) then SaveResult(customers', orders, SaveFailure)
        else
          var order := CheckoutOrder(NextOrderId(LatestOrderId(orders)), customerRef, LineItems(cart), totalAmount,
                                     ShippingAddress(billing), PendingStatus);
          var orders' := orders + [order];
          assert orders'[..|orders|] == orders;
          SaveResult(customers', orders', Saved)
  }

  /** The order a successful save appends: numbered after the most recent
      order, referencing the customer found or created for the billing
      details, with one line item per cart item, the total as given, the
      shipping address and status `pending`. */
  lemma SavedOrder(customers: seq<Customer>, orders: seq<OrderDoc>, billing: Billing, cart: seq<CartItem>,
                   totalAmount: Value, outage: Option<SaveStep>)
    requires Save(customers, orders, billing, cart, totalAmount, outage).outcome == Saved
    ensures var r := Save(customers, orders, billing, cart, totalAmount, outage);
      var existing := MatchingCustomer(customers, billing.email, billing.fullName);
      && r.orders[|orders|] == CheckoutOrder(
           NextOrderId(LatestOrderId(orders)),
           if existing.Some? then existing.value else |customers|,
           LineItems(cart), totalAmount, ShippingAddress(billing), PendingStatus)
      && r.orders[|orders|].customerRef < |r.customers|
      && r.customers[r.orders[|orders|].customerRef].email == billing.email
      && r.customers[r.orders[|orders|].customerRef].fullName == billing.fullName
  {
  }

  /** `saveOrderToSanity(billingDetails, cartItems, totalAmount)`, call by call. */
  method SaveOrderToSanity(store: Dataset, billing: Billing, cart: seq<CartItem>, totalAmount: Value,
                           outage: Option<SaveStep>) returns (outcome: SaveOutcome)
    modifies store
    ensures SaveResult(store.customers, store.orders, outcome)
         == Save(old(store.customers), old(store.orders), billing, cart, totalAmount, outage)
    ensures store.docs == old(store.docs)
  {
    if outage == Some(FindCustomer) {
      return SaveFailure;
    }
    var existing := MatchingCustomer(store.customers, billing.email, billing.fullName);
    var customerRef: nat;
    if existing.Some? {
      customerRef := existing.value;
    } else {
      if outage == Some(CreateCustomer) {
        return SaveFailure;
      }
      customerRef := store.CreateCustomer(NewCustomer(billing));
    }

    if outage == Some(FindLastOrder) {
      return SaveFailure;
    }
    var newOrderId := NextOrderId(LatestOrderId(store.orders));

    if outage == Some(CreateOrder) {
      return SaveFailure;
    }
    store.CreateOrder(CheckoutOrder(newOrderId, customerRef, LineItems(cart), totalAmount,
                                    ShippingAddress(billing), PendingStatus));
    outcome := Saved;
  }

  /** A failure after the customer was created leaves that customer in the
      store: the two creates are not atomic. */
  lemma CustomerOutlivesFailedOrder(customers: seq<Customer>, orders: seq<OrderDoc>, billing: Billing,
                                    cart: seq<CartItem>, totalAmount: Value)
    requires MatchingCustomer(customers, billing.email, billing.fullName).None?
    ensures var r := Save(customers, orders, billing, cart, totalAmount, Some(CreateOrder));
      r.outcome == SaveFailure && r.orders == orders && r.customers == customers + [NewCustomer(billing)]
  {
  }

  /** A second order with the same email and name reuses the customer
      created by the first. */
  lemma SecondOrderReusesCustomer(customers: seq<Customer>, orders: seq<OrderDoc>, billing: Billing,
                                  cart1: seq<CartItem>, total1: Value, cart2: seq<CartItem>, total2: Value)
    requires MatchingCustomer(customers, billing.email, billing.fullName).None?
    ensures var r1 := Save(customers, orders, billing, cart1, total1, None);
      var r2 := Save(r1.customers, r1.orders, billing, cart2, total2, None);
      && r2.customers == r1.customers == customers + [NewCustomer(billing)]
      && r1.orders[|orders|].customerRef == r2.orders[|orders| + 1].customerRef == |customers|
  {
    MatchingAppended(customers, billing);
  }

  /** The customer created for `billing` is the one found for it next time. */
  lemma MatchingAppended(customers: seq<Customer>, billing: Billing)
    requires MatchingCustomer(customers, billing.email, billing.fullName).None?
    ensures MatchingCustomer(customers + [NewCustomer(billing)], billing.email, billing.fullName) == Some(|customers|)
  {
    var cs := customers + [NewCustomer(billing)];
    var m := MatchingCustomer(cs, billing.email, billing.fullName);
    assert cs[|customers|] == NewCustomer(billing);
  }

  /** Successful saves run one after another number their orders consecutively: after
      an order numbered `n`, the next is `OrderId(n + 1)`. */
  lemma ConsecutiveSavesIncrement(customers: seq<Customer>, orders: seq<OrderDoc>, n: nat, billing: Billing,
                                  cart: seq<CartItem>, totalAmount: Value)
    requires orders != [] && orders[|orders| - 1].CheckoutOrder? && orders[|orders| - 1].orderId == OrderId(n)
    ensures var r := Save(customers, orders, billing, cart, totalAmount, None);
      r.orders[|orders|].orderId == OrderId(n + 1)
  {
    SavedOrder(customers, orders, billing, cart, totalAmount, None);
    NextOrderIdIncrements(n);
  }

  /** An order created by the `/api/saveOrder` route has no `orderId`, so the
      next order saved here is numbered `AvionOID-01` again, whatever ids
      were handed out before. */
  lemma FormOrderRestartsNumbering(customers: seq<Customer>, orders: seq<OrderDoc>, formOrder: OrderDoc,
                                   billing: Billing, cart: seq<CartItem>, totalAmount: Value)
    requires formOrder.FormOrder?
    ensures var r := Save(customers, orders + [formOrder], billing, cart, totalAmount, None);
      r.orders[|orders| + 1].orderId == "AvionOID-01"
  {
    var all := orders + [formOrder];
    assert LatestOrderId(all).None?;
    SavedOrder(customers, all, billing, cart, totalAmount, None);
    FirstOrderId();
  }
}
