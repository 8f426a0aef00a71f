/** The pricing pipeline of the cart page and of checkout: converted prices
    and their total, the payment processor's line items, the coupon and tax
    references, and the order record made at checkout. */
module Pricing {
  import opened Wrappers
  import opened Currency
  import opened Catalog
  import opened Cart

  // ---------------------------------------------------------------------------
  // Cart page: `cart_items` and `total`
  // ---------------------------------------------------------------------------

  /** One row of the cart page: the item's name and its price in the page's currency. */
  datatype CartLine = CartLine(name: string, price: int)

  /** The cart page's rows for the resolved items `ids`, in their order. */
  function CartLines(ids: seq<int>, cat: Catalogue, currency: string): (lines: seq<CartLine>)
    requires AllKnown(ids, cat)
    ensures |lines| == |ids|
    ensures forall i :: 0 <= i < |ids| ==>
              lines[i].name == cat[ids[i]].name &&
              lines[i].price == ConvertPrice(cat[ids[i]].price, cat[ids[i]].currency, currency)
  {
    if ids == [] then []
    else
      var item := cat[ids[|ids| - 1]];
      CartLines(ids[..|ids| - 1], cat, currency) + [CartLine(item.name, ConvertPrice(item.price, item.currency, currency))]
  }

  /** The sum of the rows' prices. */
  function Total(lines: seq<CartLine>): (r: int)
    ensures (forall i :: 0 <= i < |lines| ==> lines[i].price >= 0) ==> r >= 0
  {
    if lines == [] then 0 else Total(lines[..|lines| - 1]) + lines[|lines| - 1].price
  }

  /** One more resolved item adds one row at the end. */
  lemma CartLinesStep(ids: seq<int>, i: nat, cat: Catalogue, currency: string)
    requires i < |ids| && AllKnown(ids, cat)
    ensures var item := cat[ids[i]];
            CartLines(ids[..i + 1], cat, currency)
            == CartLines(ids[..i], cat, currency) + [CartLine(item.name, ConvertPrice(item.price, item.currency, currency))]
  {
    assert ids[..i + 1][..i] == ids[..i];
  }

  /** One more row adds its price to the total. */
  lemma TotalStep(lines: seq<CartLine>, line: CartLine)
    ensures Total(lines + [line]) == Total(lines) + line.price
  {
    assert (lines + [line])[..|lines|] == lines;
  }

  /** The cart page's loop: converts each resolved item's price, lists it
      (quantised to 2 dp, which changes nothing) and adds it to the total; the
      total is quantised to 2 dp, or is exactly zero when nothing resolved. */
  method PriceCart(ids: seq<int>, cat: Catalogue, currency: string) returns (lines: seq<CartLine>, total: int)
    requires AllKnown(ids, cat)
    ensures lines == CartLines(ids, cat, currency)
    ensures total == Total(lines)
    ensures ids == [] ==> total == 0
  {
    lines := [];
    var sum := 0;
    for i := 0 to |ids|
      invariant lines == CartLines(ids[..i], cat, currency)
      invariant sum == Total(lines)
    {
      var item := cat[ids[i]];
      var converted := ConvertPrice(item.price, item.currency, currency);
      QuantizeExact(converted);
      var line := CartLine(item.name, Quantize(100 * converted));
      CartLinesStep(ids, i, cat, currency);
      TotalStep(lines, line);
      lines := lines + [line];
      sum := sum + converted;
    }
    assert ids[..|ids|] == ids;
    QuantizeExact(sum);
    total := if |lines| > 0 then Quantize(100 * sum) else 0;
  }

  // ---------------------------------------------------------------------------
  // Checkout: line items, coupon, tax rate
  // ---------------------------------------------------------------------------

  /** A `line_items` entry: currency, product name and unit amount in minor
      units under `price_data`, a quantity, and `tax_rates` when `taxRate`
      is present (`Some(ref)` stands for `'tax_rates': [ref]`). */
  datatype LineItem = LineItem(currency: string, productName: string, unitAmount: int, quantity: int, taxRate: Option<string>)

  /** The line items of checkout: one per resolved item, in order. */
  function LineItemsFor(ids: seq<int>, cat: Catalogue, currency: string, taxRate: Option<string>): (r: seq<LineItem>)
    requires AllKnown(ids, cat)
    ensures |r| == |ids|
    ensures forall i :: 0 <= i < |ids| ==>
              r[i].currency == currency && r[i].productName == cat[ids[i]].name &&
              r[i].unitAmount == ConvertPrice(cat[ids[i]].price, cat[ids[i]].currency, currency) &&
              r[i].quantity == 1 && r[i].taxRate == taxRate
  {
    if ids == [] then []
    else
      var item := cat[ids[|ids| - 1]];
      LineItemsFor(ids[..|ids| - 1], cat, currency, taxRate)
        + [LineItem(currency, item.name, ConvertPrice(item.price, item.currency, currency), 1, taxRate)]
  }

  /** The checkout loop: for each resolved item, the converted price times 100
      quantised to a whole number of minor units, quantity 1, and the tax rate
      attached when there is one. */
  method BuildLineItems(ids: seq<int>, cat: Catalogue, currency: string, taxRate: Option<string>)
    returns (lineItems: seq<LineItem>)
    requires AllKnown(ids, cat)
    ensures lineItems == LineItemsFor(ids, cat, currency, taxRate)
  {
    lineItems := [];
    for i := 0 to |ids|
      invariant lineItems == LineItemsFor(ids[..i], cat, currency, taxRate)
    {
      var item := cat[ids[i]];
      var converted := ConvertPrice(item.price, item.currency, currency);
      QuantizeExact(converted);
      var lineItem := LineItem(currency, item.name, Quantize(100 * converted), 1, None);
      if taxRate.Some? {
        lineItem := lineItem.(taxRate := taxRate);
      }
      lineItems := lineItems + [lineItem];
      assert ids[..i + 1][..i] == ids[..i];
    }
    assert ids[..|ids|] == ids;
  }

  /** `tax and tax.stripe_tax_rate_id`: the selected tax's rate reference when
      the selection resolves and the reference is non-empty. */
  function TaxRateFor(taxId: Option<int>, taxes: map<int, Tax>): (r: Option<string>)
    ensures r.Some? <==> Lookup(taxId, taxes).Some? && taxes[taxId.value].taxRateId.Some?
                         && taxes[taxId.value].taxRateId.value != ""
    ensures r.Some? ==> r == taxes[taxId.value].taxRateId
  {
    match Lookup(taxId, taxes)
    case None => None
    case Some(id) =>
      var ref := taxes[id].taxRateId;
      if ref.Some? && ref.value != "" then ref else None
  }

  /** `discount and discount.stripe_coupon_id`: the selected discount's coupon
      when the selection resolves and the coupon id is non-empty. */
  function CouponFor(discountId: Option<int>, discounts: map<int, Discount>): (r: Option<string>)
    ensures r.Some? <==> Lookup(discountId, discounts).Some? && discounts[discountId.value].couponId.Some?
                         && discounts[discountId.value].couponId.value != ""
    ensures r.Some? ==> r == discounts[discountId.value].couponId
  {
    match Lookup(discountId, discounts)
    case None => None
    case Some(id) =>
      var coupon := discounts[id].couponId;
      if coupon.Some? && coupon.value != "" then coupon else None
  }

  /** The request for a hosted payment session: card payment, the line
      items, payment mode, the coupon (`discounts: [{coupon: ...}]`) when
      present, and the currency whose secret key is used. */
  datatype SessionRequest = SessionRequest(
    paymentMethodTypes: seq<string>,
    lineItems: seq<LineItem>,
    mode: string,
    coupon: Option<string>,
    keyCurrency: string)

  /** The order recorded at checkout: the resolved items and the discount and
      tax records found, by id. */
  datatype Order = Order(items: set<int>, discount: Option<int>, tax: Option<int>)

  datatype CheckoutResult = CheckoutResult(order: Order, request: SessionRequest)

  /** What `checkout` records and requests for a session in state `s` and the
      `currency` query parameter `currencyParam`. */
  function PlanCheckout(s: CartState, cat: Catalogue, discounts: map<int, Discount>, taxes: map<int, Tax>,
                        currencyParam: Option<string>): (r: CheckoutResult)
    ensures forall id :: id in r.order.items <==> id in s.cart && id in cat
    ensures r.order.discount == Lookup(s.discountId, discounts) && r.order.tax == Lookup(s.taxId, taxes)
    ensures r.request.lineItems == LineItemsFor(Resolve(s.cart, cat), cat, CheckoutCurrency(currencyParam),
                                                TaxRateFor(s.taxId, taxes))
    ensures r.request.keyCurrency == CheckoutCurrency(currencyParam)
    ensures forall l :: l in r.request.lineItems ==> l.currency == r.request.keyCurrency && l.quantity == 1
    ensures r.request.paymentMethodTypes == ["card"] && r.request.mode == "payment"
    ensures r.request.coupon == CouponFor(s.discountId, discounts)
  {
    var ids := Resolve(s.cart, cat);
    var currency := CheckoutCurrency(currencyParam);
    var order := Order((set id | id in ids), Lookup(s.discountId, discounts), Lookup(s.taxId, taxes));
    var lineItems := LineItemsFor(ids, cat, currency, TaxRateFor(s.taxId, taxes));
    CheckoutResult(order, SessionRequest(["card"], lineItems, "payment", CouponFor(s.discountId, discounts), currency))
  }

  // ---------------------------------------------------------------------------
  // Properties of checkout
  // ---------------------------------------------------------------------------

  /** Every line carries the tax rate, or none does. */
  lemma TaxOnEveryLineOrNone(s: CartState, cat: Catalogue, discounts: map<int, Discount>, taxes: map<int, Tax>,
                             currencyParam: Option<string>)
    ensures var lines := PlanCheckout(s, cat, discounts, taxes, currencyParam).request.lineItems;
            (forall i :: 0 <= i < |lines| ==> lines[i].taxRate.Some?) ||
            (forall i :: 0 <= i < |lines| ==> lines[i].taxRate.None?)
  {
  }

  /** A selected discount id with no record behaves exactly as no selection. */
  lemma UnknownDiscountIsNoDiscount(s: CartState, cat: Catalogue, discounts: map<int, Discount>,
                                    taxes: map<int, Tax>, currencyParam: Option<string>)
    requires s.discountId.Some? && s.discountId.value !in discounts
    ensures PlanCheckout(s, cat, discounts, taxes, currencyParam)
            == PlanCheckout(s.(discountId := None), cat, discounts, taxes, currencyParam)
  {
  }

  /** An empty cart, or one whose ids all went missing, checks out with no line items. */
  lemma EmptyCheckout(s: CartState, cat: Catalogue, discounts: map<int, Discount>, taxes: map<int, Tax>,
                      currencyParam: Option<string>)
    requires forall id :: id in s.cart ==> id !in cat
    ensures PlanCheckout(s, cat, discounts, taxes, currencyParam).request.lineItems == []
    ensures PlanCheckout(s, cat, discounts, taxes, currencyParam).order.items == {}
  {
    SameMembersBothEmpty(Resolve(s.cart, cat), []);
  }

  /** Prices that are not negative give a cart total that is not negative. */
  lemma {:induction false} TotalNonNegative(ids: seq<int>, cat: Catalogue, currency: string)
    requires AllKnown(ids, cat)
    requires forall i :: 0 <= i < |ids| ==> cat[ids[i]].price >= 0
    ensures Total(CartLines(ids, cat, currency)) >= 0
  {
    if ids != [] {
      var lines := CartLines(ids, cat, currency);
      TotalNonNegative(ids[..|ids| - 1], cat, currency);
      assert lines[..|lines| - 1] == CartLines(ids[..|ids| - 1], cat, currency);
    }
  }

  /** The sum of the unit amounts of a list of line items. */
  function AmountDue(lines: seq<LineItem>): (r: int) {
    if lines == [] then 0 else AmountDue(lines[..|lines| - 1]) + lines[|lines| - 1].unitAmount
  }

  /** What the cart page shows as the total is what checkout charges, before
      tax and discount, when both are priced in the same currency. */
  lemma {:induction false} CartTotalIsAmountDue(ids: seq<int>, cat: Catalogue, currency: string, taxRate: Option<string>)
    requires AllKnown(ids, cat)
    ensures Total(CartLines(ids, cat, currency)) == AmountDue(LineItemsFor(ids, cat, currency, taxRate))
  {
    if ids != [] {
      var lines, items := CartLines(ids, cat, currency), LineItemsFor(ids, cat, currency, taxRate);
      CartTotalIsAmountDue(ids[..|ids| - 1], cat, currency, taxRate);
      assert lines[..|lines| - 1] == CartLines(ids[..|ids| - 1], cat, currency);
      assert items[..|items| - 1] == LineItemsFor(ids[..|ids| - 1], cat, currency, taxRate);
    }
  }

  /** A catalogue of two items: a poster at 5.00 usd and a mug at 3.00 usd. */
  const TwoItems: Catalogue := map[1 := Item("Poster", 500, "usd"), 2 := Item("Mug", 300, "usd")]

  /** The cart `[1, 2]` resolves to the mug first, by name. */
  lemma TwoItemsByName()
    ensures Resolve([1, 2], TwoItems) == [2, 1]
  {
    var ids := Resolve([1, 2], TwoItems);
    assert NameLe("Mug", "Poster");
    assert !NameLe("Poster", "Mug");
    assert 1 in ids && 2 in ids && |ids| == 2;
  }

  /** In name order and in usd, the two items are priced at 3.00 and 5.00. */
  lemma TwoItemsPriced()
    ensures LineItemsFor([2, 1], TwoItems, "usd", None)
            == [LineItem("usd", "Mug", 300, 1, None), LineItem("usd", "Poster", 500, 1, None)]
    ensures Total(CartLines([2, 1], TwoItems, "usd")) == 800
  {
    QuantizeExact(300);
    QuantizeExact(500);
    assert CartLines([2, 1], TwoItems, "usd") == [CartLine("Mug", 300), CartLine("Poster", 500)];
    assert Total([CartLine("Mug", 300), CartLine("Poster", 500)]) == 800;
  }

  /** Two items at 5.00 usd and 3.00 usd, checked out in usd: two lines of 300
      and 500 minor units in name order, and a cart total of 8.00. */
  lemma ExampleTwoItemCart()
    ensures var r := PlanCheckout(CartState([1, 2], None, None), TwoItems, map[], map[], None);
            |r.request.lineItems| == 2 &&
            r.request.lineItems[0].productName == "Mug" && r.request.lineItems[0].unitAmount == 300 &&
            r.request.lineItems[1].productName == "Poster" && r.request.lineItems[1].unitAmount == 500 &&
            Total(CartLines(Resolve([1, 2], TwoItems), TwoItems, "usd")) == 800
  {
    TwoItemsByName();
    TwoItemsPriced();
    assert CheckoutCurrency(None) == "usd" by { assert Lower("usd") == "usd"; }
  }
}
