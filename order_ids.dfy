/** Human-readable order identifiers `AvionOID-NN`, as generated by
    `saveOrderToSanity` (src/utils/page.ts): the numeric suffix of the most
    recent order's id is parsed, incremented and zero-padded to two digits. */
module OrderIds {
  import opened Options
  import opened Strings

  const IdPrefix := "AvionOID-"

  /** `lastOrder?.orderId ? parseInt(lastOrder.orderId.split("-")[1], 10) : 0`.
      `None` stands for a missing order or a missing `orderId`; the empty id is
      falsy as well. A result of `None` is `NaN`: no second part after
      splitting (`parseInt(undefined)`) or no digits in it. */
  function LastOrderNumber(lastOrderId: Option<string>): (r: Option<int>)
    ensures lastOrderId.None? || lastOrderId == Some("") ==> r == Some(0)
    ensures r.Some? ==> r.value >= 0
  {
    if lastOrderId.None? || lastOrderId.value == "" then Some(0)
    else
      var parts := Split(lastOrderId.value, '-');
      if |parts| > 1 then ParseInt(parts[1])
      else None
  }

  /** `` `AvionOID-${n.toString().padStart(2, "0")}` `` where `n` may be `NaN`. */
  function FormatOrderId(n: Option<int>): (id: string)
    ensures n.None? ==> id == IdPrefix + "NaN"
    ensures n.Some? && n.value >= 0 ==> id == OrderId(n.value)
  {
    IdPrefix + PadStart(if n.Some? then NumberToString(n.value) else "NaN", 2, '0')
  }

  /** The id `saveOrderToSanity` gives a new order, from the id of the most
      recently created order. */
  function NextOrderId(lastOrderId: Option<string>): (id: string)
    ensures id == match LastOrderNumber(lastOrderId)
      case Some(n) => OrderId(n + 1)
      case None => IdPrefix + "NaN"
  {
    var last := LastOrderNumber(lastOrderId);
    FormatOrderId(if last.Some? then Some(last.value + 1) else None)
  }

  /** The canonical id of order number `n`: at least two digits. */
  function OrderId(n: nat): (id: string)
    ensures StartsWith(id, IdPrefix)
  {
    IdPrefix + PadStart(Decimal(n), 2, '0')
  }

  /** The zero-padded numeral: zeros, then the digits of `n`. */
  lemma PaddedDecimal(n: nat) returns (zeros: nat)
    ensures PadStart(Decimal(n), 2, '0') == Repeat('0', zeros) + Decimal(n)
  {
    var d := Decimal(n);
    if |d| < 2 {
      zeros := 2 - |d|;
    } else {
      zeros := 0;
      assert Repeat('0', 0) + d == d;
    }
  }

  /** For an id with exactly one dash, the number is read from the part
      after it. */
  lemma NumberAfterDash(head: string, suffix: string)
    requires '-' !in head && '-' !in suffix
    ensures LastOrderNumber(Some(head + ['-'] + suffix)) == ParseInt(suffix)
  {
    SplitAround(head, '-', suffix);
  }

  lemma PrefixParts()
    ensures IdPrefix == "AvionOID" + ['-'] && '-' !in "AvionOID"
  {
  }

  /** The number of an id made of the prefix and a dash-free suffix is read
      from that suffix. */
  lemma NumberAfterPrefix(suffix: string)
    requires '-' !in suffix
    ensures LastOrderNumber(Some(IdPrefix + suffix)) == ParseInt(suffix)
  {
    PrefixParts();
    var head := "AvionOID";
    assert IdPrefix + suffix == head + ['-'] + suffix;
    NumberAfterDash(head, suffix);
  }

  /** Round trip: the suffix of a generated id parses back to its number. */
  lemma OrderIdRoundTrip(n: nat)
    ensures LastOrderNumber(Some(OrderId(n))) == Some(n)
  {
    var zeros := PaddedDecimal(n);
    var padded := PadStart(Decimal(n), 2, '0');
    ZerosValue(zeros);
    AllDigitsConcat(Repeat('0', zeros), Decimal(n));
    DigitsHaveNoDash(padded);
    NumberAfterPrefix(padded);
    ParseIntPaddedDecimal(zeros, n, "");
    assert Repeat('0', zeros) + Decimal(n) + "" == padded;
  }

  /** After an order with id `OrderId(n)` the next one is `OrderId(n + 1)`. */
  lemma NextOrderIdIncrements(n: nat)
    ensures NextOrderId(Some(OrderId(n))) == OrderId(n + 1)
  {
    OrderIdRoundTrip(n);
    NextOrderIdFollows(Some(OrderId(n)));
  }

  /** Whatever the last id, when its suffix is a number `n` the new id is
      the canonical id of `n + 1`, whose own suffix reads back as `n + 1`:
      numbering strictly increases from one order to the next when saves run
      one after another. */
  lemma NextOrderIdFollows(lastOrderId: Option<string>)
    requires LastOrderNumber(lastOrderId).Some?
    ensures NextOrderId(lastOrderId) == OrderId(LastOrderNumber(lastOrderId).value + 1)
    ensures LastOrderNumber(Some(NextOrderId(lastOrderId))) == Some(LastOrderNumber(lastOrderId).value + 1)
  {
    var n := LastOrderNumber(lastOrderId).value;
    OrderIdRoundTrip(n + 1);
  }

  lemma OneDigitOrderId(n: nat)
    requires n < 10
    ensures OrderId(n) == IdPrefix + ['0', DigitChar(n)]
  {
    assert Decimal(n) == [DigitChar(n)];
    assert Repeat('0', 1) == ['0'];
  }

  lemma TwoDigitOrderId(n: nat)
    requires 10 <= n < 100
    ensures OrderId(n) == IdPrefix + [DigitChar(n / 10), DigitChar(n % 10)]
  {
    assert Decimal(n / 10) == [DigitChar(n / 10)];
  }

  lemma OrderIdOne()
    ensures OrderId(1) == "AvionOID-01"
  {
    OneDigitOrderId(1);
  }

  lemma OrderIdSeven()
    ensures OrderId(7) == "AvionOID-07" && OrderId(8) == "AvionOID-08"
  {
    OneDigitOrderId(7);
    OneDigitOrderId(8);
  }

  /** `AvionOID-99` and its successor `AvionOID-100`: padding never
      truncates (with `NextOrderIdIncrements(99)`). */
  lemma OrderIdNinetyNine()
    ensures OrderId(99) == "AvionOID-99" && OrderId(100) == "AvionOID-100"
  {
    TwoDigitOrderId(99);
    OrderIdHundred();
  }

  lemma OrderIdHundred()
    ensures OrderId(100) == "AvionOID-100"
  {
    var one, ten, hundred := Decimal(1), Decimal(10), Decimal(100);
    assert one == "1";
    assert ten == one + [DigitChar(0)] == "10";
    assert hundred == ten + [DigitChar(0)] == "100";
    assert PadStart(hundred, 2, '0') == hundred;
  }

  lemma NoOrderNumberIsZero()
    ensures NextOrderId(None) == OrderId(1)
    ensures NextOrderId(Some("")) == OrderId(1)
  {
  }

  /** With no prior order (or an empty id) the first id is `AvionOID-01`. */
  lemma FirstOrderId()
    ensures NextOrderId(None) == "AvionOID-01"
    ensures NextOrderId(Some("")) == "AvionOID-01"
  {
    NoOrderNumberIsZero();
    OrderIdOne();
  }

  /** The increment, for ids whose text is known. */
  lemma NextOfKnown(n: nat, id: string, next: string)
    requires OrderId(n) == id && OrderId(n + 1) == next
    ensures NextOrderId(Some(id)) == next
  {
    NextOrderIdIncrements(n);
  }

  /** `AvionOID-07` is followed by `AvionOID-08`. */
  lemma NextAfterSeven()
    ensures NextOrderId(Some("AvionOID-07")) == "AvionOID-08"
  {
    OrderIdSeven();
    NextOfKnown(7, "AvionOID-07", "AvionOID-08");
  }

  /** An id whose suffix starts with neither a digit, a sign nor white
      space has no readable number. */
  lemma NonNumericSuffix(suffix: string)
    requires '-' !in suffix && suffix != []
    requires !IsDigit(suffix[0]) && !IsJsWhitespace(suffix[0]) && suffix[0] != '+'
    ensures LastOrderNumber(Some(IdPrefix + suffix)).None?
  {
    NumberAfterPrefix(suffix);
    assert TrimStart(suffix) == suffix;
    assert DigitPrefix(suffix) == [];
  }

  /** Once the last id has no readable number the next id is `AvionOID-NaN`,
      and so is every id after it. */
  lemma NaNPersists(lastOrderId: Option<string>)
    requires LastOrderNumber(lastOrderId).None?
    ensures NextOrderId(lastOrderId) == IdPrefix + "NaN"
    ensures LastOrderNumber(Some(NextOrderId(lastOrderId))).None?
  {
    NonNumericSuffix("NaN");
  }
}
