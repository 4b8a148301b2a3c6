/** The product list's sort rule (`getFilteredProducts` in
    src/components/productList-components/cards.tsx): the selected filter
    picks a comparator and a sorted copy of the products is shown. */
module Catalogue {

  /** The fields of a product the sort reads. Prices are integral; a rating
      may be fractional. */
  datatype Product = Product(id: string, name: string, price: int, rating: real)

  /** The filter selected when the page opens. */
  const DefaultFilter := "popularity"

  datatype SortOrder = PriceLowToHigh | PriceHighToLow | RatingHighToLow

  /** The `switch (filter)`: two price keys; "popularity" and every other
      value fall through to the rating order. */
  function OrderFor(filter: string): (order: SortOrder)
    ensures order == PriceLowToHigh <==> filter == "price_low_to_high"
    ensures order == PriceHighToLow <==> filter == "price_high_to_low"
  {
    if filter == "price_low_to_high" then PriceLowToHigh
    else if filter == "price_high_to_low" then PriceHighToLow
    else RatingHighToLow
  }

  /** Each comparator is `Key(a) - Key(b)`: `a.price - b.price`,
      `b.price - a.price` and `b.rating - a.rating`. */
  function Key(order: SortOrder, p: Product): real {
    match order
    case PriceLowToHigh => p.price as real
    case PriceHighToLow => -(p.price as real)
    case RatingHighToLow => -p.rating
  }

  predicate SortedBy(order: SortOrder, s: seq<Product>) {
    forall i, j :: 0 <= i < j < |s| ==> Key(order, s[i]) <= Key(order, s[j])
  }

  /** Insert `x` before the first element whose key is not smaller, so that
      it stays ahead of the elements that compare equal to it. */
  function Insert(order: SortOrder, x: Product, t: seq<Product>): (r: seq<Product>)
    ensures |r| == |t| + 1 && (r[0] == x || (t != [] && r[0] == t[0]))
  {
    if t == [] || Key(order, x) <= Key(order, t[0]) then [x] + t
    else [t[0]] + Insert(order, x, t[1..])
  }

  lemma {:induction false} InsertPermutes(order: SortOrder, x: Product, t: seq<Product>)
    ensures multiset(Insert(order, x, t)) == multiset(t) + multiset{x}
    decreases |t|
  {
    if t != [] && Key(order, x) > Key(order, t[0]) {
      InsertPermutes(order, x, t[1..]);
      assert t == [t[0]] + t[1..];
    }
  }

  lemma {:induction false} InsertSorted(order: SortOrder, x: Product, t: seq<Product>)
    requires SortedBy(order, t)
    ensures SortedBy(order, Insert(order, x, t))
    decreases |t|
  {
    if t != [] && Key(order, x) > Key(order, t[0]) {
      var rest := Insert(order, x, t[1..]);
      InsertSorted(order, x, t[1..]);
      var r := [t[0]] + rest;
      assert Key(order, t[0]) <= Key(order, rest[0]);
      forall i, j | 0 <= i < j < |r| ensures Key(order, r[i]) <= Key(order, r[j]) {
        if i == 0 {
          assert r[j] == rest[j - 1];
          if j > 1 {
            assert Key(order, rest[0]) <= Key(order, rest[j - 1]);
          }
        } else {
          assert r[i] == rest[i - 1] && r[j] == rest[j - 1];
        }
      }
    }
  }

  /** A stable sort by the order's key: `[...products].sort(comparator)`. */
  function SortBy(order: SortOrder, s: seq<Product>): (r: seq<Product>)
    ensures SortedBy(order, r)
    ensures multiset(r) == multiset(s) && |r| == |s|
  {
    if s == [] then []
    else
      assert s == [s[0]] + s[1..];
      var sorted := SortBy(order, s[1..]);
      InsertSorted(order, s[0], sorted);
      InsertPermutes(order, s[0], sorted);
      Insert(order, s[0], sorted)
  }

  /** The products shown for a filter: a reordering of all of them (so the
      "Showing all N results" count is the number of products), in the
      order the filter names. */
  function GetFilteredProducts(filter: string, products: seq<Product>): (r: seq<Product>)
    ensures multiset(r) == multiset(products) && |r| == |products|
    ensures filter == "price_low_to_high" ==> forall i, j :: 0 <= i < j < |r| ==> r[i].price <= r[j].price
    ensures filter == "price_high_to_low" ==> forall i, j :: 0 <= i < j < |r| ==> r[i].price >= r[j].price
    ensures filter != "price_low_to_high" && filter != "price_high_to_low" ==>
      forall i, j :: 0 <= i < j < |r| ==> r[i].rating >= r[j].rating
  {
    var order := OrderFor(filter);
    var r := SortBy(order, products);
    assert forall i, j :: 0 <= i < j < |r| ==> Key(order, r[i]) <= Key(order, r[j]);
    r
  }

  /** The page opens sorted by rating, best first. */
  lemma DefaultIsRatingOrder(products: seq<Product>)
    ensures var r := GetFilteredProducts(DefaultFilter, products);
      forall i, j :: 0 <= i < j < |r| ==> r[i].rating >= r[j].rating
  {
  }

  /** The products whose key equals `k`, in their order in `s`. */
  function WithKey(order: SortOrder, s: seq<Product>, k: real): seq<Product> {
    if s == [] then []
    else (if Key(order, s[0]) == k then [s[0]] else []) + WithKey(order, s[1..], k)
  }

  lemma WithKeyCons(order: SortOrder, y: Product, s: seq<Product>, k: real)
    ensures WithKey(order, [y] + s, k) == (if Key(order, y) == k then [y] else []) + WithKey(order, s, k)
  {
    assert ([y] + s)[1..] == s;
  }

  lemma {:induction false} InsertStable(order: SortOrder, x: Product, t: seq<Product>, k: real)
    ensures WithKey(order, Insert(order, x, t), k)
         == (if Key(order, x) == k then [x] else []) + WithKey(order, t, k)
    decreases |t|
  {
    if t == [] || Key(order, x) <= Key(order, t[0]) {
      WithKeyCons(order, x, t, k);
    } else {
      var mine := if Key(order, x) == k then [x] else [];
      var head := if Key(order, t[0]) == k then [t[0]] else [];
      var rest := Insert(order, x, t[1..]);
      assert Insert(order, x, t) == [t[0]] + rest;
      assert t == [t[0]] + t[1..];
      WithKeyCons(order, t[0], rest, k);
      WithKeyCons(order, t[0], t[1..], k);
      InsertStable(order, x, t[1..], k);
      if Key(order, x) == k {
        assert head == [];
      } else {
        assert mine == [];
      }
    }
  }

  /** Stability: products that compare equal keep their relative order, as
      `Array.prototype.sort` guarantees. */
  lemma {:induction false} SortStable(order: SortOrder, s: seq<Product>, k: real)
    ensures WithKey(order, SortBy(order, s), k) == WithKey(order, s, k)
    decreases |s|
  {
    if s != [] {
      SortStable(order, s[1..], k);
      InsertStable(order, s[0], SortBy(order, s[1..]), k);
    }
  }
}
