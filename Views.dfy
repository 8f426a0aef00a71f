/** The views of the storefront with the web layer and the payment
    processor's client removed: the item page and single-item purchase, and
    the visitor's session with the cart views that read and change it. */
module Views {
  import opened Wrappers
  import opened Currency
  import opened Catalog
  import opened Cart
  import opened Pricing

  // ---------------------------------------------------------------------------
  // item_page and buy
  // ---------------------------------------------------------------------------

  /** What the item page shows: the chosen currency and the item's price in it. */
  datatype ItemPageView = ItemPageView(currency: string, displayPrice: int)

  function ItemPage(item: Item, currencyParam: Option<string>): (v: ItemPageView)
    ensures v.currency == ItemCurrency(currencyParam, item.currency)
    ensures IsSupported(item.currency) ==> IsSupported(v.currency)
    ensures v.displayPrice == ConvertPrice(item.price, item.currency, v.currency)
    ensures v.currency == item.currency ==> v.displayPrice == item.price
    ensures item.price >= 0 ==> v.displayPrice >= 0
  {
    var currency := ItemCurrency(currencyParam, item.currency);
    ItemPageView(currency, ConvertPrice(item.price, item.currency, currency))
  }

  /** Without a `currency` parameter, an item listed in a supported currency
      is shown at its own price, unconverted. */
  lemma ItemPageDefaultsToOwnPrice(item: Item)
    requires IsSupported(item.currency)
    ensures ItemPage(item, None) == ItemPageView(item.currency, item.price)
  {
    LowerIdempotent(item.currency);
  }

  /** The request `buy` makes for one item: a single line of the converted
      price in minor units, quantity 1, no tax rate and no coupon. */
  function Buy(item: Item, currencyParam: Option<string>): (r: SessionRequest)
    ensures r.keyCurrency == ItemCurrency(currencyParam, item.currency)
    ensures |r.lineItems| == 1 && r.lineItems[0].quantity == 1 && r.lineItems[0].taxRate.None?
    ensures r.lineItems[0].productName == item.name && r.lineItems[0].currency == r.keyCurrency
    ensures r.lineItems[0].unitAmount == ItemPage(item, currencyParam).displayPrice
    ensures r.coupon.None? && r.mode == "payment" && r.paymentMethodTypes == ["card"]
  {
    var currency := ItemCurrency(currencyParam, item.currency);
    var amount := ConvertPrice(item.price, item.currency, currency);
    QuantizeExact(amount);
    var unitAmount := Quantize(100 * amount);
    SessionRequest(["card"], [LineItem(currency, item.name, unitAmount, 1, None)], "payment", None, currency)
  }

  /** Buying one item charges what checking out a cart of just that item
      charges, when no tax is selected and both pick the same currency. */
  lemma BuyMatchesCheckout(itemId: int, cat: Catalogue, discounts: map<int, Discount>, taxes: map<int, Tax>,
                           currencyParam: Option<string>)
    requires itemId in cat
    requires CheckoutCurrency(currencyParam) == ItemCurrency(currencyParam, cat[itemId].currency)
    ensures Buy(cat[itemId], currencyParam).lineItems
            == PlanCheckout(CartState([itemId], None, None), cat, discounts, taxes, currencyParam).request.lineItems
  {
    assert [itemId][..0] == [];
    assert Known([itemId], cat) == [itemId];
    assert Resolve([itemId], cat) == [itemId];
  }

  // ---------------------------------------------------------------------------
  // The visitor's session
  // ---------------------------------------------------------------------------

  /** What the cart page renders: its rows, the total, the currency, and the
      selected discount and tax ids. */
  datatype CartPage = CartPage(lines: seq<CartLine>, total: int, currency: string,
                               selectedDiscountId: Option<int>, selectedTaxId: Option<int>)

  /** The session keys the cart views use. */
  class Session {
    var cart: seq<int>
    var discountId: Option<int>
    var taxId: Option<int>

    function State(): CartState
      reads this
    {
      CartState(cart, discountId, taxId)
    }

    /** No id in the cart twice: what `add_to_cart` maintains. Every method
        that changes the session keeps it; no view needs it to run. */
    predicate Valid()
      reads this
    {
      NoDuplicates(cart)
    }

    /** A session with none of the keys set. */
    constructor ()
      ensures State() == Empty && Valid()
    {
      cart, discountId, taxId := [], None, None;
    }

    /** `add_to_cart`: appends the id unless it is already in the cart. */
    method AddToCart(itemId: int)
      modifies this
      ensures State() == Add(old(State()), itemId)
      ensures old(Valid()) ==> Valid()
    {
      if itemId !in cart {
        cart := cart + [itemId];
      }
      if NoDuplicates(old(cart)) {
        AddKeepsNoDuplicates(old(cart), itemId);
      }
    }

    /** `cart_view` on POST: stores the selected discount id, then the selected
      tax id; returns false where `int()` raises, after the writes made so far. */
    method SubmitSelection(discountField: Option<string>, taxField: Option<string>) returns (ok: bool)
      modifies this
      ensures Submitted(State(), ok) == Submit(old(State()), discountField, taxField)
      ensures cart == old(cart) && Valid() == old(Valid())
    {
      var d := ParseSelection(discountField);
      if d.Malformed? {
        return false;
      }
      discountId := SelectedId(d);
      var t := ParseSelection(taxField);
      if t.Malformed? {
        return false;
      }
      taxId := SelectedId(t);
      ok := true;
    }

    /** `clear_cart`: empties the cart and drops the selection. */
    method ClearCart()
      modifies this
      ensures State() == Empty && Valid()
    {
      cart := [];
      discountId := None;
      taxId := None;
    }

    /** `payment_success`: the same reset as `clear_cart`. */
    method PaymentSuccess()
      modifies this
      ensures State() == Empty && Valid()
    {
      cart := [];
      discountId := None;
      taxId := None;
    }

    /** `cart_view` on GET: prices the resolved items in the page's currency
      and shows the stored selection; the session is not changed. */
    method ViewCart(cat: Catalogue, postedCurrency: Option<string>, currencyParam: Option<string>)
      returns (page: CartPage)
      ensures IsSupported(page.currency) && page.currency == CartCurrency(postedCurrency, currencyParam)
      ensures page.lines == CartLines(Resolve(cart, cat), cat, page.currency)
      ensures page.total == Total(page.lines)
      ensures (forall id :: id in cart ==> id !in cat) ==> page.lines == [] && page.total == 0
      ensures page.selectedDiscountId == discountId && page.selectedTaxId == taxId
    {
      var items := Resolve(cart, cat);
      var currency := CartCurrency(postedCurrency, currencyParam);
      if forall id :: id in cart ==> id !in cat {
        SameMembersBothEmpty(items, []);
      }
      var lines, total := PriceCart(items, cat, currency);
      page := CartPage(lines, total, currency, discountId, taxId);
    }

    /** `checkout`: resolves the cart and the selection, records the order and
      builds the payment session request; the session is not changed. */
    method Checkout(cat: Catalogue, discounts: map<int, Discount>, taxes: map<int, Tax>,
                    currencyParam: Option<string>) returns (r: CheckoutResult)
      ensures r == PlanCheckout(State(), cat, discounts, taxes, currencyParam)
    {
      var items := Resolve(cart, cat);
      var currency := CheckoutCurrency(currencyParam);
      var discount := Lookup(discountId, discounts);
      var tax := Lookup(taxId, taxes);
      var order := Order((set id | id in items), discount, tax);
      var taxRate: Option<string> := None;
      if tax.Some? {
        var ref := taxes[tax.value].taxRateId;
        if ref.Some? && ref.value != "" {
          taxRate := ref;
        }
      }
      var lineItems := BuildLineItems(items, cat, currency, taxRate);
      var request := SessionRequest(["card"], lineItems, "payment", None, currency);
      if discount.Some? {
        var coupon := discounts[discount.value].couponId;
        if coupon.Some? && coupon.value != "" {
          request := request.(coupon := coupon);
        }
      }
      r := CheckoutResult(order, request);
    }
  }

  /** Clearing and then adding `x` leaves exactly `[x]` in the cart. */
  method ClearThenAdd(x: int) returns (s: Session)
    ensures s.State() == CartState([x], None, None)
  {
    s := new Session();
    s.AddToCart(1);
    s.AddToCart(x);
    s.ClearCart();
    s.AddToCart(x);
    s.AddToCart(x);
  }
}
