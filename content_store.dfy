/** The Sanity content store as the checkout code uses it: stock-carrying
    product documents addressed by `_id`, customer documents and order
    documents. Queries are functions over the stored values; `create` and the
    revision-guarded `patch` are methods of `Dataset`. */
module ContentStore {
  import opened Options
  import opened Json

  /** The `_type` of a document that carries a `stock` field. */
  datatype Collection = Products | ProductList | OtherType

  /** What the stock endpoint reads of a document: its `_type`, its `stock`
      and its revision `_rev` (an opaque token, here a counter). */
  datatype StockDoc = StockDoc(collection: Collection, stock: int, rev: nat)

  /** A `customer` document. Its `_id` is its position in the collection. */
  datatype Customer = Customer(fullName: string, email: string, phoneNumber: string, address: string, city: string)

  /** One `orderItem` of an order created by `saveOrderToSanity`. */
  datatype OrderItem = OrderItem(name: string, image: string, quantity: int, unitPrice: int, totalPrice: int)

  /** An `order` document. Two writers share the collection:
      `saveOrderToSanity` creates `CheckoutOrder`s, which carry an `orderId`,
      and the `/api/saveOrder` route creates `FormOrder`s, which do not. */
  datatype OrderDoc =
    | CheckoutOrder(orderId: string, customerRef: nat, items: seq<OrderItem>, totalAmount: Value,
                    shippingAddress: string, status: string)
    | FormOrder(fullName: Value, email: Value, address: Value, phone: Value, submittedTotal: Value, products: Value)

  /** `*[_type == collection && _id == id][0]`. */
  function Query(docs: map<string, StockDoc>, collection: Collection, id: string): (r: Option<StockDoc>)
    ensures r.Some? <==> id in docs && docs[id].collection == collection
    ensures r.Some? ==> r.value == docs[id]
  {
    if id in docs && docs[id].collection == collection then Some(docs[id]) else None
  }

  /** `patch(id).set({stock}).ifRevisionId(rev).commit()`: the write happens
      only while the document still has revision `rev`, and gives it a new
      revision; otherwise nothing changes and the commit is rejected. */
  function CompareAndSet(docs: map<string, StockDoc>, id: string, stock: int, rev: nat): (r: Option<map<string, StockDoc>>)
    ensures r.Some? <==> id in docs && docs[id].rev == rev
    ensures r.Some? ==> r.value.Keys == docs.Keys
    ensures r.Some? ==> r.value[id].stock == stock && r.value[id].collection == docs[id].collection
    ensures r.Some? ==> r.value[id].rev != rev
    ensures r.Some? ==> forall k :: k in docs && k != id ==> r.value[k] == docs[k]
  {
    if id in docs && docs[id].rev == rev then Some(docs[id := StockDoc(docs[id].collection, stock, rev + 1)]) else None
  }

  /** `*[_type == "customer" && email == $email && fullName == $fullName][0]`:
      a customer with exactly that email and name. The query has no `order()`,
      so when several customers match, which one the store returns is not
      fixed; the model picks the earliest created one. */
  function MatchingCustomer(customers: seq<Customer>, email: string, fullName: string): (r: Option<nat>)
    ensures r.Some? ==> r.value < |customers| && customers[r.value].email == email && customers[r.value].fullName == fullName
    ensures r.Some? ==> forall j :: 0 <= j < r.value ==> !(customers[j].email == email && customers[j].fullName == fullName)
    ensures r.None? ==> forall j :: 0 <= j < |customers| ==> !(customers[j].email == email && customers[j].fullName == fullName)
  {
    if customers == [] then None
    else if customers[0].email == email && customers[0].fullName == fullName then Some(0)
    else
      match MatchingCustomer(customers[1..], email, fullName)
      case None => None
      case Some(i) => Some(i + 1)
  }

  /** `*[_type == "order"] | order(_createdAt desc)[0]{orderId}`, then
      `lastOrder?.orderId`: the id of the most recently created order, or
      `None` when there is no order or the latest one has no `orderId`. */
  function LatestOrderId(orders: seq<OrderDoc>): (r: Option<string>)
    ensures orders == [] ==> r.None?
    ensures orders != [] && orders[|orders| - 1].FormOrder? ==> r.None?
    ensures orders != [] && orders[|orders| - 1].CheckoutOrder? ==> r == Some(orders[|orders| - 1].orderId)
  {
    if orders == [] then None
    else
      match orders[|orders| - 1]
      case CheckoutOrder(orderId, _, _, _, _, _) => Some(orderId)
      case FormOrder(_, _, _, _, _, _) => None
  }

  /** The dataset: its three collections change only through the methods below. */
  class Dataset {
    var docs: map<string, StockDoc>
    var customers: seq<Customer>
    var orders: seq<OrderDoc>

    constructor (docs: map<string, StockDoc>, customers: seq<Customer>, orders: seq<OrderDoc>)
      ensures this.docs == docs && this.customers == customers && this.orders == orders
    {
      this.docs := docs;
      this.customers := customers;
      this.orders := orders;
    }

    /** `client.fetch` of one stock-carrying document. */
    method Fetch(collection: Collection, id: string) returns (doc: Option<StockDoc>)
      ensures doc == Query(docs, collection, id)
    {
      doc := None;
      if id in docs && docs[id].collection == collection {
        doc := Some(docs[id]);
      }
    }

    /** The revision-guarded stock patch, as a compare-and-swap. */
    method Patch(id: string, stock: int, ifRevisionId: nat) returns (committed: bool)
      modifies this
      ensures var r := CompareAndSet(old(docs), id, stock, ifRevisionId);
        committed == r.Some? && docs == (if committed then r.value else old(docs))
      ensures customers == old(customers) && orders == old(orders)
    {
      committed := id in docs && docs[id].rev == ifRevisionId;
      if committed {
        docs := docs[id := StockDoc(docs[id].collection, stock, ifRevisionId + 1)];
      }
    }

    /** `client.create` of a customer; the new document's `_id` is returned. */
    method CreateCustomer(c: Customer) returns (id: nat)
      modifies this
      ensures customers == old(customers) + [c] && id == |old(customers)|
      ensures docs == old(docs) && orders == old(orders)
    {
      id := |customers|;
      customers := customers + [c];
    }

    /** `client.create` of an order. */
    method CreateOrder(o: OrderDoc)
      modifies this
      ensures orders == old(orders) + [o]
      ensures docs == old(docs) && customers == old(customers)
    {
      orders := orders + [o];
    }
  }
}
