/** `POST /api/updateStock` (src/app/api/updateStock/route.ts): decrement the
    stock of one product, found in the `products` collection or else in
    `productList`, with a revision-guarded write. */
module UpdateStock {
  import opened Options
  import opened Json
  import opened ContentStore

  /** The JSON response: `{ success: true, newStock }` (status 200) or
      `{ message }` with an error status. */
  datatype Response = Updated(newStock: int) | Rejected(status: int, message: string)

  /** What the content store does while one request runs. `RivalCommits`
      is a concurrent request that read the same revision and committed its
      own stock value between this request's read and its commit. */
  datatype Hazard = Calm | ProductsQueryFails | ProductListQueryFails | CommitFails | RivalCommits(stock: int)

  /** The validated request. */
  datatype Request = Request(productId: string, quantity: int)

  const InternalError := Rejected(500, "Internal server error")
  const InvalidProductId := Rejected(400, "Invalid product ID")
  const InvalidQuantity := Rejected(400, "Invalid quantity")
  const ProductNotFound := Rejected(404, "Product not found")
  const InsufficientStock := Rejected(400, "Insufficient stock")

  /** A product id passes `!productId || typeof productId !== "string"`
      exactly when it is a non-empty string. */
  predicate ValidProductId(v: Value) {
    v.Str? && v.s != ""
  }

  /** A quantity passes `typeof quantity !== "number" || quantity <= 0`
      exactly when it is a positive number. */
  predicate ValidQuantity(v: Value) {
    v.Num? && v.n > 0
  }

  /** Parsing the body and the two validation checks, in source order. A
      body that is not JSON, or is `null`, makes `request.json()` or the
      destructuring throw, which the handler turns into a 500. */
  function ValidateRequest(body: Option<Value>): (r: Result<Request, Response>)
    ensures body.None? ==> r == Err(InternalError)
    ensures body.Some? && (body.value.Undefined? || body.value.Null?) ==> r == Err(InternalError)
    ensures body.Some? && !(body.value.Undefined? || body.value.Null?) ==>
      var id, q := Get(body.value, "productId").value, Get(body.value, "quantity").value;
      && (!ValidProductId(id) ==> r == Err(InvalidProductId))
      && (ValidProductId(id) && !ValidQuantity(q) ==> r == Err(InvalidQuantity))
      && (ValidProductId(id) && ValidQuantity(q) ==> r == Ok(Request(id.s, q.n)))
    ensures r.Ok? ==> r.value.productId != "" && r.value.quantity > 0
  {
    if body.None? then Err(InternalError)
    else
      match (Get(body.value, "productId"), Get(body.value, "quantity"))
      case (Some(id), Some(q)) =>
        if !Truthy(id) || !id.Str? then Err(InvalidProductId)
        else if !q.Num? || q.n <= 0 then Err(InvalidQuantity)
        else Ok(Request(id.s, q.n))
      case _ => Err(InternalError)
  }

  /** The product is looked up in `products` first; `productList` is queried
      only when that yields nothing. */
  function Lookup(docs: map<string, StockDoc>, id: string, hazard: Hazard): (r: Result<StockDoc, Response>)
    ensures hazard == ProductsQueryFails ==> r == Err(InternalError)
    ensures hazard != ProductsQueryFails && Query(docs, Products, id).Some? ==> r == Ok(docs[id])
    ensures hazard != ProductsQueryFails && Query(docs, Products, id).None? && hazard == ProductListQueryFails ==>
      r == Err(InternalError)
    ensures !hazard.ProductsQueryFails? && !hazard.ProductListQueryFails? ==>
      (r.Ok? <==> id in docs && docs[id].collection in {Products, ProductList})
    ensures !hazard.ProductsQueryFails? && !hazard.ProductListQueryFails? && r.Err? ==> r.error == ProductNotFound
    ensures r.Ok? ==> id in docs && r.value == docs[id]
  {
    if hazard == ProductsQueryFails then Err(InternalError)
    else
      match Query(docs, Products, id)
      case Some(p) => Ok(p)
      case None =>
        if hazard == ProductListQueryFails then Err(InternalError)
        else
          match Query(docs, ProductList, id)
          case Some(p) => Ok(p)
          case None => Err(ProductNotFound)
  }

  /** One request against the stored documents: the new documents and the
      response. */
  function Reserve(docs: map<string, StockDoc>, body: Option<Value>, hazard: Hazard): (r: (map<string, StockDoc>, Response))
    // every rejection except a lost race leaves the store as it was
    ensures r.1.Rejected? && !hazard.RivalCommits? ==> r.0 == docs
    ensures ValidateRequest(body).Err? ==> r == (docs, ValidateRequest(body).error)
    ensures ValidateRequest(body).Ok? ==>
      var req := ValidateRequest(body).value;
      && (Lookup(docs, req.productId, hazard).Err? ==> r == (docs, Lookup(docs, req.productId, hazard).error))
      && (Lookup(docs, req.productId, hazard).Ok? ==>
            var p := docs[req.productId];
            && (p.stock - req.quantity < 0 ==> r == (docs, InsufficientStock))
            && (p.stock - req.quantity >= 0 && hazard == CommitFails ==> r == (docs, InternalError))
            && (p.stock - req.quantity >= 0 && (hazard == Calm || hazard == ProductListQueryFails) ==>
                  r == (docs[req.productId := StockDoc(p.collection, p.stock - req.quantity, p.rev + 1)],
                        Updated(p.stock - req.quantity)))
            && (p.stock - req.quantity >= 0 && hazard.RivalCommits? ==>
                  r.1 == InternalError && r.0 == docs[req.productId := StockDoc(p.collection, hazard.stock, p.rev + 1)]))
    // success: the stored stock is the old stock minus the quantity, never negative, and nothing else changes
    ensures r.1.Updated? ==>
      var req := ValidateRequest(body).value;
      && ValidateRequest(body).Ok? && req.productId in docs
      && docs[req.productId].collection in {Products, ProductList}
      && r.1.newStock == docs[req.productId].stock - req.quantity >= 0
      && r.0 == docs[req.productId := StockDoc(docs[req.productId].collection, r.1.newStock, docs[req.productId].rev + 1)]
    // `productList` is queried only when `products` has no match, so its outage matters only then
    ensures ValidateRequest(body).Ok? ==>
      (hazard == Calm || (hazard == ProductListQueryFails && Query(docs, Products, ValidateRequest(body).value.productId).Some?)) ==>
      var req := ValidateRequest(body).value;
      (r.1.Updated? <==> req.productId in docs && docs[req.productId].collection in {Products, ProductList}
                         && docs[req.productId].stock >= req.quantity)
  {
    match ValidateRequest(body)
    case Err(e) => (docs, e)
    case Ok(req) =>
      match Lookup(docs, req.productId, hazard)
      case Err(e) => (docs, e)
      case Ok(product) =>
        var newStock := product.stock - req.quantity;
        if newStock < 0 then (docs, InsufficientStock)
        else
          var current :=
            if hazard.RivalCommits? then CompareAndSet(docs, req.productId, hazard.stock, product.rev).value
            else docs;
          if hazard == CommitFails then (docs, InternalError)
          else
            match CompareAndSet(current, req.productId, newStock, product.rev)
            case None => (current, InternalError)
            case Some(updated) => (updated, Updated(newStock))
  }

  /** A request for a product found in `products` never issues the
      `productList` query, so that query's outage changes nothing. */
  lemma ProductListOutageUnseen(docs: map<string, StockDoc>, body: Option<Value>)
    requires ValidateRequest(body).Ok? ==> Query(docs, Products, ValidateRequest(body).value.productId).Some?
    ensures Reserve(docs, body, ProductListQueryFails) == Reserve(docs, body, Calm)
  {
  }

  /** The route handler, step by step against the store. */
  method Post(store: Dataset, body: Option<Value>, hazard: Hazard) returns (resp: Response)
    modifies store
    ensures (store.docs, resp) == Reserve(old(store.docs), body, hazard)
    ensures store.customers == old(store.customers) && store.orders == old(store.orders)
  {
    if body.None? {
      return InternalError;
    }
    var productId := Get(body.value, "productId");
    var quantity := Get(body.value, "quantity");
    if productId.None? || quantity.None? {
      return InternalError;
    }
    if !Truthy(productId.value) || !productId.value.Str? {
      return InvalidProductId;
    }
    if !quantity.value.Num? || quantity.value.n <= 0 {
      return InvalidQuantity;
    }
    var id, q := productId.value.s, quantity.value.n;

    if hazard == ProductsQueryFails {
      return InternalError;
    }
    var product := store.Fetch(Products, id);
    if product.None? {
      if hazard == ProductListQueryFails {
        return InternalError;
      }
      product := store.Fetch(ProductList, id);
    }
    if product.None? {
      return ProductNotFound;
    }

    var newStock := product.value.stock - q;
    if newStock < 0 {
      return InsufficientStock;
    }

    if hazard.RivalCommits? {
      var _ := store.Patch(id, hazard.stock, product.value.rev);
    }
    if hazard == CommitFails {
      return InternalError;
    }
    var committed := store.Patch(id, newStock, product.value.rev);
    if !committed {
      return InternalError;
    }
    resp := Updated(newStock);
  }

  /** A request body `{ productId, quantity }`. */
  function Body(productId: string, quantity: int): Value {
    Obj(map["productId" := Str(productId), "quantity" := Num(quantity)])
  }

  /** Two shoppers reserve the same product from the same revision, each
      asking for no more than the stock. The one whose commit lands second is
      rejected with a 500 and the store holds the first one's stock; retried,
      it succeeds exactly when both quantities fit in the original stock,
      leaving stock minus both, and otherwise fails with "Insufficient
      stock", changing nothing. */
  lemma RaceThenRetry(docs: map<string, StockDoc>, id: string, mine: int, theirs: int)
    requires id != "" && id in docs && docs[id].collection in {Products, ProductList}
    requires 0 < mine <= docs[id].stock && 0 < theirs <= docs[id].stock
    ensures var s := docs[id].stock;
      var (afterRace, first) := Reserve(docs, Some(Body(id, mine)), RivalCommits(s - theirs));
      var (afterRetry, second) := Reserve(afterRace, Some(Body(id, mine)), Calm);
      && first == InternalError
      && afterRace[id].stock == s - theirs
      && (mine + theirs <= s ==> second == Updated(s - theirs - mine) && afterRetry[id].stock == s - theirs - mine)
      && (mine + theirs > s ==> second == InsufficientStock && afterRetry == afterRace)
  {
    var body := Some(Body(id, mine));
    assert Get(body.value, "productId") == Some(Str(id));
    assert Get(body.value, "quantity") == Some(Num(mine));
    assert ValidateRequest(body) == Ok(Request(id, mine));
    var p := docs[id];
    var afterRace := docs[id := StockDoc(p.collection, p.stock - theirs, p.rev + 1)];
    assert Reserve(docs, body, RivalCommits(p.stock - theirs)) == (afterRace, InternalError);
    assert Lookup(afterRace, id, Calm) == Ok(afterRace[id]);
  }

  /** Stock never goes negative: if every stored stock is non-negative
      before the request and a rival writes a non-negative value, every
      stored stock is still non-negative after the request. */
  lemma ReservePreservesNonNegativeStock(docs: map<string, StockDoc>, body: Option<Value>, hazard: Hazard)
    requires forall k :: k in docs ==> docs[k].stock >= 0
    requires hazard.RivalCommits? ==> hazard.stock >= 0
    ensures var r := Reserve(docs, body, hazard);
      forall k :: k in r.0 ==> r.0[k].stock >= 0
  {
  }
}
