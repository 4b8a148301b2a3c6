/** `POST /api/saveOrder` (src/app/api/saveOrder/route.ts): check the seven
    required-field conditions, then create one `order` document holding the
    submitted fields as they are. */
module SaveOrderRoute {
  import opened Options
  import opened Json
  import opened ContentStore

  /** The JSON response: a status and its `message`. */
  datatype Response = Response(status: int, message: string)

  const Created := Response(201, "Order created successfully")
  const MissingFields := Response(400, "Missing required fields")
  const CreateFailed := Response(500, "Failed to create order")

  /** `const { fullName, email, address, phone, totalAmount, products } = data`. */
  datatype Fields = Fields(fullName: Value, email: Value, address: Value, phone: Value,
                           totalAmount: Value, products: Value)

  /** Destructuring the parsed body; `None` when the body is not JSON or is
      `null`, both of which throw. */
  function Destructure(body: Option<Value>): (r: Option<Fields>)
    ensures r.None? <==> body.None? || body.value.Undefined? || body.value.Null?
    ensures r.Some? && body.value.Obj? ==>
      var props := body.value.props;
      && (r.value.fullName == if "fullName" in props then props["fullName"] else Undefined)
      && (r.value.email == if "email" in props then props["email"] else Undefined)
      && (r.value.address == if "address" in props then props["address"] else Undefined)
      && (r.value.phone == if "phone" in props then props["phone"] else Undefined)
      && (r.value.totalAmount == if "totalAmount" in props then props["totalAmount"] else Undefined)
      && (r.value.products == if "products" in props then props["products"] else Undefined)
  {
    if body.None? then None
    else
      var v := body.value;
      match (Get(v, "fullName"), Get(v, "email"), Get(v, "address"), Get(v, "phone"),
             Get(v, "totalAmount"), Get(v, "products"))
      case (Some(n), Some(e), Some(a), Some(p), Some(t), Some(ps)) => Some(Fields(n, e, a, p, t, ps))
      case _ => None
  }

  /** The negation of the validation guard: every field truthy, and
      `products.length === 0` false. A truthy `products` without a `length`
      (an object, a number) passes. */
  predicate Complete(f: Fields)
    ensures Complete(f) <==>
      && Truthy(f.fullName) && Truthy(f.email) && Truthy(f.address) && Truthy(f.phone)
      && Truthy(f.totalAmount) && Truthy(f.products)
      && f.products != Arr([])
      && !(f.products.Obj? && "length" in f.products.props && f.products.props["length"] == Num(0))
  {
    && Truthy(f.fullName) && Truthy(f.email) && Truthy(f.address) && Truthy(f.phone)
    && Truthy(f.totalAmount) && Truthy(f.products)
    && Get(f.products, "length") != Some(Num(0))
  }

  /** The document `client.create` receives: the six fields, unchanged. */
  function OrderOf(f: Fields): (o: OrderDoc)
    ensures o.FormOrder? && o.fullName == f.fullName && o.email == f.email && o.address == f.address
    ensures o.phone == f.phone && o.submittedTotal == f.totalAmount && o.products == f.products
  {
    FormOrder(f.fullName, f.email, f.address, f.phone, f.totalAmount, f.products)
  }

  /** One request against the order collection: the new collection and the
      response. `createFails` stands for `client.create` throwing. */
  function Submit(orders: seq<OrderDoc>, body: Option<Value>, createFails: bool): (r: (seq<OrderDoc>, Response))
    // a body that cannot be destructured, or a failed create, is a 500 and no order
    ensures Destructure(body).None? ==> r == (orders, CreateFailed)
    ensures Destructure(body).Some? && Complete(Destructure(body).value) && createFails ==> r == (orders, CreateFailed)
    // any incomplete submission is a 400 and creates no order
    ensures Destructure(body).Some? && !Complete(Destructure(body).value) ==> r == (orders, MissingFields)
    ensures r.1.status == 400 <==> Destructure(body).Some? && !Complete(Destructure(body).value)
    // a valid one creates exactly one order carrying the six fields
    ensures r.1 == Created <==> Destructure(body).Some? && Complete(Destructure(body).value) && !createFails
    ensures r.1 == Created ==> r.0 == orders + [OrderOf(Destructure(body).value)]
    ensures r.1 != Created ==> r.0 == orders
  {
    match Destructure(body)
    case None => (orders, CreateFailed)
    case Some(f) =>
      if !Complete(f) then (orders, MissingFields)
      else if createFails then (orders, CreateFailed)
      else (orders + [OrderOf(f)], Created)
  }

  /** The route handler against the store. */
  method Post(store: Dataset, body: Option<Value>, createFails: bool) returns (resp: Response)
    modifies store
    ensures (store.orders, resp) == Submit(old(store.orders), body, createFails)
    ensures store.docs == old(store.docs) && store.customers == old(store.customers)
  {
    var data := Destructure(body);
    if data.None? {
      return CreateFailed;
    }
    var f := data.value;
    if !Truthy(f.fullName) || !Truthy(f.email) || !Truthy(f.address) || !Truthy(f.phone)
       || !Truthy(f.totalAmount) || !Truthy(f.products) || Get(f.products, "length") == Some(Num(0)) {
      return MissingFields;
    }
    if createFails {
      return CreateFailed;
    }
    store.CreateOrder(OrderOf(f));
    resp := Created;
  }

  /** A submission with the given total and products, other fields filled. */
  function Submission(totalAmount: Value, products: Value): Value {
    Obj(map["fullName" := Str("A"), "email" := Str("a@b"), "address" := Str("X"), "phone" := Str("1"),
            "totalAmount" := totalAmount, "products" := products])
  }

  lemma SubmissionFields(totalAmount: Value, products: Value)
    ensures Destructure(Some(Submission(totalAmount, products)))
         == Some(Fields(Str("A"), Str("a@b"), Str("X"), Str("1"), totalAmount, products))
  {
    var v := Submission(totalAmount, products);
    assert Get(v, "fullName") == Some(Str("A"));
    assert Get(v, "email") == Some(Str("a@b"));
    assert Get(v, "address") == Some(Str("X"));
    assert Get(v, "phone") == Some(Str("1"));
    assert Get(v, "totalAmount") == Some(totalAmount);
    assert Get(v, "products") == Some(products);
  }

  /** A total of `0` and an empty product list are both "missing". */
  lemma FalsyTotalOrNoProductsRejected(orders: seq<OrderDoc>, products: seq<Value>, createFails: bool)
    ensures Submit(orders, Some(Submission(Num(0), Arr(products))), createFails) == (orders, MissingFields)
    ensures Submit(orders, Some(Submission(Num(5), Arr([]))), createFails) == (orders, MissingFields)
  {
    SubmissionFields(Num(0), Arr(products));
    SubmissionFields(Num(5), Arr([]));
  }

  /** The guard checks presence, not type: a total sent as the string `"0"`
      and a non-empty product list are accepted and stored as sent. */
  lemma StringTotalAccepted(orders: seq<OrderDoc>, p: Value)
    ensures var r := Submit(orders, Some(Submission(Str("0"), Arr([p]))), false);
      r.1 == Created && r.0[|orders|].submittedTotal == Str("0")
  {
    SubmissionFields(Str("0"), Arr([p]));
  }
}
