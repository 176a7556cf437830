/**
 * The order record, the UPI-reference gate and the order-number format.
 * The clock and Math.random are not read here: the date and the random draw
 * are parameters.
 */
module Orders {
  import opened Options
  import opened Strings
  import opened Carts

  /** The shipping details the form stages (the script's tempOrder); `phone`
      already carries the country code in front. */
  datatype Contact = Contact(name: string, phone: string, pincode: string, address: string)

  /** A stored order. `contact` is None when nothing was staged: spreading an
      undefined tempOrder into the record adds no fields. `items` is None when
      the cart key held the JSON value null, which the order then records. */
  datatype Order = Order(
    contact: Option<Contact>,
    items: Option<seq<CartItem>>,
    totalAmount: nat,
    orderId: string,
    status: string,
    upiRef: string)

  const ConfirmedStatus: string := "Confirmed"
  const OrderIdPrefix: string := "KHOZZA-"

  /** The gate /^\d{12}$/: exactly twelve ASCII digits and nothing else. */
  predicate IsUpiRef(s: string) {
    |s| == 12 && AllDigits(s)
  }

  /** Short references and references with a letter are refused. */
  lemma UpiRefExamples()
    ensures !IsUpiRef("123")
    ensures !IsUpiRef("12345678901a")
    ensures IsUpiRef("123456789012")
  {
    assert !IsDigit("12345678901a"[11]);
  }

  /** Math.floor(1000 + draw * 9000) for a draw of Math.random(), which lies
      in [0, 1): always a four-digit number. */
  function RandomSuffix(draw: real): (r: int)
    requires 0.0 <= draw < 1.0
    ensures 1000 <= r <= 9999
  {
    (1000.0 + draw * 9000.0).Floor
  }

  /** The YYYYMMDD part of an order number. */
  function DateStamp(year: nat, month: nat, day: nat): (r: string) {
    DecimalString(year) + PadStart(DecimalString(month), 2, '0') + PadStart(DecimalString(day), 2, '0')
  }

  /** generateOrderId: the prefix, the year, the month and the day each
      padded to two digits, a dash, and the random suffix. `month` is
      getMonth() + 1 and `day` is getDate(). */
  function GenerateOrderId(year: nat, month: nat, day: nat, draw: real): (id: string)
    requires 0.0 <= draw < 1.0
    ensures |id| >= 13 && id[..|OrderIdPrefix|] == OrderIdPrefix
  {
    var id := OrderIdPrefix + DateStamp(year, month, day) + "-" + DecimalString(RandomSuffix(draw));
    assert id[..|OrderIdPrefix|] == OrderIdPrefix;
    id
  }

  /** For a four-digit year and a calendar month and day the stamp is eight
      digits that read back as the date. */
  lemma DateStampValue(year: nat, month: nat, day: nat)
    requires 1000 <= year <= 9999 && 1 <= month <= 12 && 1 <= day <= 31
    ensures var s := DateStamp(year, month, day);
      |s| == 8 && AllDigits(s) && DigitsValue(s) == year * 10000 + month * 100 + day
  {
    var y := DecimalString(year);
    var m := PadStart(DecimalString(month), 2, '0');
    var d := PadStart(DecimalString(day), 2, '0');
    assert Pow10(3) == 1000 && Pow10(4) == 10000;
    DecimalStringLength(year, 4);
    DecimalStringValue(year);
    TwoDigits(month);
    TwoDigits(day);
    assert Pow10(|m|) == 100 && Pow10(|d|) == 100;
    DigitsValueConcat(y, m);
    assert DigitsValue(y + m) == year * 100 + month;
    DigitsValueConcat(y + m, d);
    assert DigitsValue(y + m + d) == (year * 100 + month) * 100 + day;
  }

  /** For a four-digit year and a calendar month and day the order number is
      "KHOZZA-" YYYYMMDD "-" NNNN: twenty characters, the eight date digits
      read back as the date and the last four as a number in [1000, 9999]. */
  lemma OrderIdLayout(year: nat, month: nat, day: nat, draw: real)
    requires 1000 <= year <= 9999 && 1 <= month <= 12 && 1 <= day <= 31
    requires 0.0 <= draw < 1.0
    ensures var id := GenerateOrderId(year, month, day, draw);
      |id| == 20 && id[..7] == OrderIdPrefix && id[15] == '-'
      && AllDigits(id[7..15]) && DigitsValue(id[7..15]) == year * 10000 + month * 100 + day
      && AllDigits(id[16..]) && DigitsValue(id[16..]) == RandomSuffix(draw)
  {
    var id := GenerateOrderId(year, month, day, draw);
    var stamp := DateStamp(year, month, day);
    var n := RandomSuffix(draw);
    var r := DecimalString(n);
    DateStampValue(year, month, day);
    assert Pow10(3) == 1000 && Pow10(4) == 10000;
    DecimalStringLength(n, 4);
    DecimalStringValue(n);
    assert id == OrderIdPrefix + stamp + "-" + r;
    assert id[7..15] == stamp;
    assert id[16..] == r;
  }
}
