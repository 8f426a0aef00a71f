/** Currency handling of the storefront's views: the supported currencies, the
    fixed two-entry rate table, price conversion with decimal quantisation, and
    the three fallback rules that turn a request parameter into a currency.

    Amounts are integers in hundredths of the currency unit, as the 2-dp
    `DecimalField` prices are; the product of a price and a 2-dp rate is an
    integer in ten-thousandths. */
module Currency {
  import opened Wrappers

  /** The currencies the views accept, in the order the source lists them. */
  const SupportedCurrencies: seq<string> := ["usd", "eur"]

  predicate IsSupported(c: string) {
    c in SupportedCurrencies
  }

  // ---------------------------------------------------------------------------
  // Rounding: `quantize(Decimal('0.01'))` under the default decimal context
  // ---------------------------------------------------------------------------

  /** `r` is a nearest whole number to `x / 100`, and on an exact tie `r` is
      even: what quantising by two decimal places with round-half-even (the
      default decimal context's rounding) must return. */
  predicate IsHalfEvenRounding(x: int, r: int) {
    -50 <= 100 * r - x <= 50 &&
    ((100 * r - x == 50 || 100 * r - x == -50) ==> r % 2 == 0)
  }

  /** Quantises `x` hundredths of a unit to the unit, rounding half to even:
      `quantize(Decimal('0.01'))` of ten-thousandths, and
      `quantize(Decimal('1'))` of hundredths. */
  function Quantize(x: int): (r: int)
    ensures IsHalfEvenRounding(x, r)
  {
    var q, m := x / 100, x % 100;
    if m < 50 then q
    else if m > 50 then q + 1
    else if q % 2 == 0 then q
    else q + 1
  }

  /** The rounding rule determines the result: there is exactly one
      half-even rounding of every value. */
  lemma HalfEvenRoundingUnique(x: int, r1: int, r2: int)
    requires IsHalfEvenRounding(x, r1) && IsHalfEvenRounding(x, r2)
    ensures r1 == r2
  {
  }

  /** Quantising a value that is already a whole number of the target unit
      changes nothing. */
  lemma QuantizeExact(c: int)
    ensures Quantize(100 * c) == c
  {
    HalfEvenRoundingUnique(100 * c, Quantize(100 * c), c);
  }

  // ---------------------------------------------------------------------------
  // Conversion: `convert_price`
  // ---------------------------------------------------------------------------

  /** The fixed rate table, in hundredths: usd to eur at 0.92, eur to usd at 1.09. */
  function Rate(from: string, to: string): (r: Option<int>)
    ensures r.Some? <==> from != to && IsSupported(from) && IsSupported(to)
    ensures r.Some? ==> r.value > 0
  {
    if from == "usd" && to == "eur" then Some(92)
    else if from == "eur" && to == "usd" then Some(109)
    else None
  }

  /** Converts `amount` hundredths of `from` into `to`: unchanged when the two
      currencies are the same or the pair has no rate (fail-open), otherwise
      multiplied by the rate and quantised to 2 dp, rounding half to even. */
  function ConvertPrice(amount: int, from: string, to: string): (r: int)
    ensures from == to ==> r == amount
    ensures Rate(from, to).None? ==> r == amount
    ensures from != to && Rate(from, to).Some? ==>
              IsHalfEvenRounding(amount * Rate(from, to).value, r)
    ensures amount >= 0 ==> r >= 0
  {
    if from == to then amount
    else
      match Rate(from, to)
      case None => amount
      case Some(rate) => Quantize(amount * rate)
  }

  /** Converting between the two supported currencies multiplies by the table's
      rate; every other pair of distinct currencies passes the amount through. */
  lemma ConvertTable(amount: int, from: string, to: string)
    ensures from == "usd" && to == "eur" ==> IsHalfEvenRounding(amount * 92, ConvertPrice(amount, from, to))
    ensures from == "eur" && to == "usd" ==> IsHalfEvenRounding(amount * 109, ConvertPrice(amount, from, to))
    ensures !(IsSupported(from) && IsSupported(to)) ==> ConvertPrice(amount, from, to) == amount
  {
  }

  /** Conversion never lowers a larger price below a smaller one. */
  lemma ConvertMonotone(a: int, b: int, from: string, to: string)
    requires a <= b
    ensures ConvertPrice(a, from, to) <= ConvertPrice(b, from, to)
  {
  }

  /** 10.00 usd is 9.20 eur. */
  lemma ExampleUsdToEur()
    ensures ConvertPrice(1000, "usd", "eur") == 920
  {
    HalfEvenRoundingUnique(1000 * 92, ConvertPrice(1000, "usd", "eur"), 920);
  }

  /** Ties round to even, not up: 0.50 eur is 54.50 cents, quantised to 0.54
      usd (half-up would give 0.55), while 1.50 eur (163.50 cents) goes up to 1.64. */
  lemma ExampleTiesToEven()
    ensures ConvertPrice(50, "eur", "usd") == 54
    ensures ConvertPrice(150, "eur", "usd") == 164
  {
    HalfEvenRoundingUnique(50 * 109, ConvertPrice(50, "eur", "usd"), 54);
    HalfEvenRoundingUnique(150 * 109, ConvertPrice(150, "eur", "usd"), 164);
  }

  /** usd to eur never lands on a tie: 92 * a is a multiple of 4, and a tie
      (a value ending in 50 ten-thousandths) is not. */
  lemma UsdToEurNeverTies(a: int)
    ensures (a * 92) % 100 != 50
  {
    var q, m := (a * 92) / 100, (a * 92) % 100;
    assert 4 * (23 * a - 25 * q) == m;
  }

  /** The round trip usd -> eur -> usd is not within a cent of the start:
      the two rates multiply to 1.0028, so 10.00 usd comes back as 10.03 usd. */
  lemma RoundTripDrifts()
    ensures ConvertPrice(ConvertPrice(1000, "usd", "eur"), "eur", "usd") == 1003
  {
    ExampleUsdToEur();
    HalfEvenRoundingUnique(920 * 109, ConvertPrice(920, "eur", "usd"), 1003);
  }

  // ---------------------------------------------------------------------------
  // Fallback rules for the requested currency
  // ---------------------------------------------------------------------------

  /** ASCII lower-casing of one character. */
  function LowerChar(c: char): (r: char)
    ensures 'A' <= c <= 'Z' ==> r == (c as int + 32) as char && 'a' <= r <= 'z'
    ensures !('A' <= c <= 'Z') ==> r == c
  {
    if 'A' <= c <= 'Z' then (c as int + 32) as char else c
  }

  /** `str.lower()`, on the characters whose lower case can matter here: no
      character outside ASCII lower-cases to a letter of "usd" or "eur". */
  function Lower(s: string): (r: string)
    ensures |r| == |s|
    ensures forall i :: 0 <= i < |s| ==> r[i] == LowerChar(s[i])
  {
    if s == [] then [] else [LowerChar(s[0])] + Lower(s[1..])
  }

  /** Lower-casing is idempotent, and leaves a supported currency as it is. */
  lemma LowerIdempotent(s: string)
    ensures Lower(Lower(s)) == Lower(s)
    ensures IsSupported(s) ==> Lower(s) == s
  {
    assert IsSupported(s) ==> forall i :: 0 <= i < |s| ==> !('A' <= s[i] <= 'Z');
  }

  /** Item page and single-item purchase: the `currency` query parameter
      (defaulting to the item's own currency), lower-cased, if supported;
      otherwise the item's own currency. */
  function ItemCurrency(param: Option<string>, itemCurrency: string): (c: string)
    ensures IsSupported(c) || c == itemCurrency
    ensures IsSupported(itemCurrency) ==> IsSupported(c)
    ensures IsSupported(Lower(param.GetOr(itemCurrency))) ==> c == Lower(param.GetOr(itemCurrency))
    ensures !IsSupported(Lower(param.GetOr(itemCurrency))) ==> c == itemCurrency
  {
    var requested := Lower(param.GetOr(itemCurrency));
    if IsSupported(requested) then requested else itemCurrency
  }

  /** Cart page: the POSTed `currency` if non-empty, else the query parameter
      (default "usd"), taken as written (no lower-casing); if unsupported, "usd". */
  function CartCurrency(posted: Option<string>, param: Option<string>): (c: string)
    ensures IsSupported(c)
    ensures posted.Some? && posted.value != "" && IsSupported(posted.value) ==> c == posted.value
    ensures (posted.None? || posted.value == "") && IsSupported(param.GetOr("usd")) ==> c == param.GetOr("usd")
    ensures posted.Some? && posted.value != "" && !IsSupported(posted.value) ==> c == "usd"
    ensures (posted.None? || posted.value == "") && !IsSupported(param.GetOr("usd")) ==> c == "usd"
  {
    var requested := if posted.Some? && posted.value != "" then posted.value else param.GetOr("usd");
    if IsSupported(requested) then requested else "usd"
  }

  /** Checkout: the `currency` query parameter (default "usd"), lower-cased,
      if supported; otherwise "usd". */
  function CheckoutCurrency(param: Option<string>): (c: string)
    ensures IsSupported(c)
    ensures IsSupported(Lower(param.GetOr("usd"))) ==> c == Lower(param.GetOr("usd"))
    ensures !IsSupported(Lower(param.GetOr("usd"))) ==> c == "usd"
  {
    var requested := Lower(param.GetOr("usd"));
    if IsSupported(requested) then requested else "usd"
  }

  /** The cart page and checkout read the same query string differently: the
      cart page does not lower-case, so "EUR" shows usd prices there while
      checkout charges in eur. */
  lemma CartAndCheckoutDisagreeOnCase()
    ensures CartCurrency(None, Some("EUR")) == "usd"
    ensures CheckoutCurrency(Some("EUR")) == "eur"
  {
    assert Lower("EUR") == "eur";
  }
}
