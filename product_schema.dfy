/** The rules of the product schema (src/sanity/schemaTypes/productType.ts)
    that have logic of their own: the discount-price validator, the numeric
    bounds of price, stock and ratings, and the preview subtitle. */
module ProductSchema {
  import opened Options
  import opened Json
  import opened Strings

  /** What a custom validator returns: `true`, or an error message. */
  datatype Validity = Valid | Invalid(message: string)

  const DiscountTooHigh := "Discount price must be less than the original price"

  /** `doc && typeof doc.price === "number"`: the price of the edited
      document, when there is a document and its price is a number. */
  function NumericPrice(document: Value): (p: Option<int>)
    ensures p.Some? <==> document.Obj? && "price" in document.props && document.props["price"].Num?
    ensures p.Some? ==> p.value == document.props["price"].n
  {
    if Truthy(document) then
      match Get(document, "price")
      case Some(Num(n)) => Some(n)
      case _ => None
    else None
  }

  /** The `discountPrice` validator. `discountPrice` is `None` when the
      field is not set; a discount of `0` is falsy and never checked. */
  function DiscountRule(discountPrice: Option<int>, document: Value): (v: Validity)
    ensures v == Valid || v == Invalid(DiscountTooHigh)
    ensures v.Invalid? <==>
      && document.Obj? && "price" in document.props && document.props["price"].Num?
      && discountPrice.Some? && discountPrice.value != 0
      && discountPrice.value >= document.props["price"].n
  {
    var price := NumericPrice(document);
    if price.Some? && discountPrice.Some? && discountPrice.value != 0 && discountPrice.value >= price.value then
      Invalid(DiscountTooHigh)
    else Valid
  }

  /** A set, non-zero discount that the rule accepts on a document with a
      numeric price is below that price. */
  lemma AcceptedDiscountIsBelowPrice(discount: int, price: int, document: Value)
    requires document.Obj? && "price" in document.props && document.props["price"] == Num(price)
    requires discount != 0 && DiscountRule(Some(discount), document) == Valid
    ensures discount < price
  {
  }

  /** Without a document, or without a numeric price, every discount passes. */
  lemma DiscountWithoutPriceAccepted(discountPrice: Option<int>, document: Value)
    requires NumericPrice(document).None?
    ensures DiscountRule(discountPrice, document) == Valid
  {
  }

  // ---------------------------------------------------------------------
  // Numeric bounds: `Rule.required()`, `.min(a)`, `.max(b)`, `.precision(p)`

  /** A chain of the built-in number validators. Values are reals: a
      rating may be fractional. */
  datatype NumberRule = NumberRule(required: bool, min: Option<real>, max: Option<real>, precision: Option<nat>)

  datatype Violation = Missing | BelowMin | AboveMax | TooPrecise

  /** `x` has at most `p` decimal places. */
  predicate HasPrecision(x: real, p: nat) {
    var scaled := x * (Pow10(p) as real);
    scaled.Floor as real == scaled
  }

  /** The failing validators of a chain, for a value that may be unset. The
      bounds and the precision apply only to a value that is set. */
  function Violations(rule: NumberRule, value: Option<real>): (vs: set<Violation>)
    ensures value.None? ==> vs <= {Missing}
    ensures value.Some? ==> Missing !in vs
  {
    if value.None? then (if rule.required then {Missing} else {})
    else
      var x := value.value;
      (if rule.min.Some? && x < rule.min.value then {BelowMin} else {})
      + (if rule.max.Some? && x > rule.max.value then {AboveMax} else {})
      + (if rule.precision.Some? && !HasPrecision(x, rule.precision.value) then {TooPrecise} else {})
  }

  /** `price`: `Rule.required().min(0)`. */
  const PriceRule := NumberRule(true, Some(0.0), None, None)
  /** `stock`: `Rule.required().min(0)`. */
  const StockRule := NumberRule(true, Some(0.0), None, None)
  /** `rating`: `Rule.min(0).max(5).precision(1)`. */
  const RatingRule := NumberRule(false, Some(0.0), Some(5.0), Some(1))
  /** A review's `rating`: `Rule.required().min(1).max(5)`. */
  const ReviewRatingRule := NumberRule(true, Some(1.0), Some(5.0), None)

  /** Price and stock must be set and non-negative. */
  lemma PriceAndStockRules(value: Option<real>)
    ensures Violations(PriceRule, value) == {} <==> value.Some? && value.value >= 0.0
    ensures Violations(StockRule, value) == {} <==> value.Some? && value.value >= 0.0
  {
    if value.Some? && value.value < 0.0 {
      assert BelowMin in Violations(PriceRule, value);
    }
  }

  /** A product rating may be unset; when set it lies in [0, 5] with at most
      one decimal. */
  lemma RatingRuleMeaning(value: Option<real>)
    ensures Violations(RatingRule, value) == {} <==>
      value.None? || (0.0 <= value.value <= 5.0 && HasPrecision(value.value, 1))
  {
    if value.Some? {
      var x := value.value;
      if x < 0.0 { assert BelowMin in Violations(RatingRule, value); }
      if x > 5.0 { assert AboveMax in Violations(RatingRule, value); }
      if !HasPrecision(x, 1) { assert TooPrecise in Violations(RatingRule, value); }
    }
  }

  /** A review rating must be set and lie in [1, 5]. */
  lemma ReviewRatingRuleMeaning(value: Option<real>)
    ensures Violations(ReviewRatingRule, value) == {} <==> value.Some? && 1.0 <= value.value <= 5.0
  {
    if value.Some? {
      var x := value.value;
      if x < 1.0 { assert BelowMin in Violations(ReviewRatingRule, value); }
      if x > 5.0 { assert AboveMax in Violations(ReviewRatingRule, value); }
    }
  }

  lemma RatingExamples()
    ensures Violations(RatingRule, Some(4.5)) == {}
    ensures Violations(RatingRule, Some(4.25)) == {TooPrecise}
    ensures Violations(RatingRule, Some(5.5)) == {AboveMax}
  {
    assert Pow10(1) == 10;
    assert (4.5 * 10.0).Floor == 45;
    assert (4.25 * 10.0).Floor == 42;
    assert (5.5 * 10.0).Floor == 55;
  }

  // ---------------------------------------------------------------------
  // preview.prepare

  /** `${x}` for a selected number field: its decimal form, or `undefined`
      when the field is not set. */
  function Interpolate(n: Option<int>): (s: string)
    ensures n.None? ==> s == "undefined"
    ensures n.Some? && n.value >= 0 ==> s == Decimal(n.value)
    ensures n.Some? && n.value < 0 ==> s == "-" + Decimal(-n.value)
  {
    if n.Some? then NumberToString(n.value) else "undefined"
  }

  /** The preview subtitle built from the selected `price`, `inStock` and
      `stock` fields. An unset `inStock` is falsy. */
  function Subtitle(price: Option<int>, inStock: Option<bool>, stock: Option<int>): (s: string)
    ensures StartsWith(s, "$" + Interpolate(price) + " | ")
    ensures |s| == 4 + |Interpolate(price)| + (if inStock == Some(true) then 11 + |Interpolate(stock)| else 12)
    ensures inStock == Some(true) ==>
      s[|s| - (11 + |Interpolate(stock)|)..] == "In Stock (" + Interpolate(stock) + ")"
    ensures inStock != Some(true) ==> s[|s| - 12..] == "Out of Stock"
  {
    "$" + Interpolate(price) + " | "
      + (if inStock == Some(true) then "In Stock (" + Interpolate(stock) + ")" else "Out of Stock")
  }

  /** The subtitle after `$` starts with the price, which reads back as a
      number: `parseInt` of it returns the price. */
  lemma SubtitleShowsPrice(price: nat, inStock: Option<bool>, stock: Option<int>)
    ensures var s := Subtitle(Some(price), inStock, stock);
      s[0] == '$' && ParseInt(s[1..]) == Some(price)
  {
    var tail := if inStock == Some(true) then "In Stock (" + Interpolate(stock) + ")" else "Out of Stock";
    assert Subtitle(Some(price), inStock, stock) == "$" + Decimal(price) + (" | " + tail);
    PriceThenText(price, " | " + tail);
  }

  /** `$`, a decimal and then text that does not start with a digit. */
  lemma PriceThenText(price: nat, rest: string)
    requires rest != [] && rest[0] == ' '
    ensures var s := "$" + Decimal(price) + rest;
      s[0] == '$' && ParseInt(s[1..]) == Some(price)
  {
    var d := Decimal(price);
    var s := "$" + d + rest;
    assert s[1..] == d + rest;
    assert !IsDigit(rest[0]);
    ParseIntOfDigits(d, rest);
  }

  /** In stock, the subtitle names the stock count in parentheses and never
      says "Out of Stock"; out of stock (or with `inStock` unset) it says
      "Out of Stock" and never "In Stock". */
  lemma SubtitleShowsAvailability(price: Option<int>, inStock: Option<bool>, stock: Option<int>)
    ensures var s := Subtitle(price, inStock, stock);
      && (inStock == Some(true) ==>
            && Contains(s, "In Stock (" + Interpolate(stock) + ")")
            && !Contains(s, "Out of Stock"))
      && (inStock != Some(true) ==> Contains(s, "Out of Stock") && !Contains(s, "In Stock"))
  {
    if inStock == Some(true) {
      InStockSubtitle(price, stock);
    } else {
      OutOfStockSubtitle(price, inStock, stock);
    }
  }

  /** In stock, the stock text appears and "Out of Stock" does not. */
  lemma InStockSubtitle(price: Option<int>, stock: Option<int>)
    ensures var s := Subtitle(price, Some(true), stock);
      Contains(s, "In Stock (" + Interpolate(stock) + ")") && !Contains(s, "Out of Stock")
  {
    var head, t := "$" + Interpolate(price) + " | ", "In Stock (" + Interpolate(stock) + ")";
    var s := Subtitle(price, Some(true), stock);
    assert s == head + t + "";
    ContainsInfix(head, t, "");
    NoCapitalO(price, stock);
    MissingFirstChar(s, "Out of Stock");
  }

  /** Otherwise "Out of Stock" appears and "In Stock" does not. */
  lemma OutOfStockSubtitle(price: Option<int>, inStock: Option<bool>, stock: Option<int>)
    requires inStock != Some(true)
    ensures var s := Subtitle(price, inStock, stock);
      Contains(s, "Out of Stock") && !Contains(s, "In Stock")
  {
    var head, t := "$" + Interpolate(price) + " | ", "Out of Stock";
    var s := Subtitle(price, inStock, stock);
    assert s == head + t + "";
    ContainsInfix(head, t, "");
    NoCapitalI(price);
    MissingFirstChar(s, "In Stock");
  }

  /** An in-stock subtitle has no capital `O`: its fixed text has none, and
      neither has a numeral or `undefined`. */
  lemma NoCapitalO(price: Option<int>, stock: Option<int>)
    ensures 'O' !in Subtitle(price, Some(true), stock)
  {
    var p, q := Interpolate(price), Interpolate(stock);
    InterpolateHasNoCapitals(price);
    InterpolateHasNoCapitals(stock);
    var lead, stocked := "In Stock (", ")";
    assert 'O' !in lead && 'O' !in stocked;
    NotInConcat('O', "$", p);
    NotInConcat('O', "$" + p, " | ");
    NotInConcat('O', lead, q);
    NotInConcat('O', lead + q, stocked);
    NotInConcat('O', "$" + p + " | ", lead + q + stocked);
  }

  lemma NotInConcat(c: char, a: string, b: string)
    requires c !in a && c !in b
    ensures c !in a + b
  {
  }

  /** Any other subtitle has no capital `I`. */
  lemma NoCapitalI(price: Option<int>)
    ensures forall inStock: Option<bool>, stock: Option<int> :: inStock != Some(true) ==>
      'I' !in Subtitle(price, inStock, stock)
  {
    InterpolateHasNoCapitals(price);
  }

  /** No interpolated value holds a capital `I` or `O`: it is a numeral or `undefined`. */
  lemma InterpolateHasNoCapitals(n: Option<int>)
    ensures 'I' !in Interpolate(n) && 'O' !in Interpolate(n)
  {
    if n.Some? {
      var d := Decimal(if n.value < 0 then -n.value else n.value);
      assert forall i :: 0 <= i < |d| ==> IsDigit(d[i]);
      assert 'I' !in d && 'O' !in d;
    }
  }
}
