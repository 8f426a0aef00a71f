# Storefront checkout and pricing, modelled in Dafny

This project models the checkout and pricing logic of a small Django storefront (`payment/views.py`). The web layer and the payment processor's client are removed. What remains:

- **Currency conversion.** `convert_price` uses a two-entry rate table (usd→eur 0.92, eur→usd 1.09). It quantises to 2 dp with the default decimal context, which rounds half to even.
- **Currency fallback rules.** The item page and `buy` fall back to the item's own currency. The cart page and checkout fall back to `usd`.
- **Cart session state.** This is the cart id list plus the selected discount and tax ids. `add_to_cart` appends an id only if it is absent. The POST branch of `cart_view` stores the selection. `clear_cart` and `payment_success` reset everything.
- **Pricing pipeline.**
  - The cart is resolved against the catalogue: unknown ids and repeats are dropped, and the result is in name order.
  - The cart page's total is computed.
  - Checkout builds the line items, attaches the tax rate and coupon, and returns the order record.

Money is an integer count of hundredths, as the 2-dp `DecimalField` prices are. A price times a 2-dp rate is an integer count of ten-thousandths. `Currency.Quantize` is the half-even quantisation back to hundredths. The same function also serves `quantize(Decimal('1'))` of `price * 100`.

Modules:

- `Wrappers`: `Option`.
- `Currency`: rates, conversion, rounding and fallbacks.
- `Catalog`: records, the ordering by name, cart resolution and the discount and tax lookups.
- `Cart`: the session state as a value, its transitions, and `int()` applied to POSTed ids.
- `Pricing`: the cart page's loop, the checkout line-item loop, and the checkout plan.
- `Views`: the item page, `buy`, and a `Session` class whose fields are the three session keys. Its methods are the views that change or read it.

Behaviours of the code that the model keeps as written:

- **Rounding mode.** Conversion rounds half to even, so 0.50 eur converts to 0.54 usd, not 0.55 (`Currency.ExampleTiesToEven`). usd→eur never meets a tie (`Currency.UsdToEurNeverTies`).
- **Round trip.** usd→eur→usd does not come back within one cent. With these rates it drifts by 0.28%: 10.00 usd comes back as 10.03 usd (`Currency.RoundTripDrifts`).
- **Case of the currency parameter.** The cart page does not lower-case the parameter, while checkout, the item page and `buy` do. So `?currency=EUR` shows usd on the cart page and charges eur at checkout (`Currency.CartAndCheckoutDisagreeOnCase`).
- **Discount and tax fields.** The views read `stripe_coupon_id` and `stripe_tax_rate_id`, and they create `Order` with a discount and a tax. The `Discount`, `Tax` and `Order` models in payment/models.py have none of these fields. The model follows the views: a discount and a tax each carry an optional reference string, and an order carries the ids of the discount and tax that were found.
- **Zero ids.** `if discount_id:` treats the id 0 as no selection, so a record with id 0 is never looked up (`Catalog.Lookup`).

## Model

| member | source | states |
|---|---|---|
| `Currency.Quantize` | payment/views.py:37 | the result is a nearest whole number of hundredths to the exact product, and an exact tie goes to the even neighbour |
| `Currency.HalfEvenRoundingUnique` | payment/views.py:37 | the half-even rounding of any value is unique, so the quantisation is fully determined |
| `Currency.QuantizeExact` | payment/views.py:129-133 | quantising an amount that already has two decimal places leaves it unchanged, so the per-row and total quantisations of the cart page and the minor-unit quantisation at checkout are exact |
| `Currency.Rate` | payment/views.py:30-34 | exactly the pairs of two different supported currencies have a rate, and every rate is positive |
| `Currency.ConvertPrice` | payment/views.py:27-37 | same currency: the amount comes back unchanged. A pair missing from the table also passes the amount through unchanged (fail-open). Otherwise the result is the half-even rounding of amount times rate. A price that is not negative converts to one that is not negative |
| `Currency.ConvertTable` | payment/views.py:30-36 | usd→eur multiplies by 0.92 and eur→usd by 1.09, each rounded; any pair that is not two supported currencies passes the amount through |
| `Currency.ConvertMonotone` | payment/views.py:37 | conversion preserves the order of prices |
| `Currency.ExampleUsdToEur` | payment/views.py:31-37 | 10.00 usd converts to 9.20 eur |
| `Currency.ExampleTiesToEven` | payment/views.py:32-37 | 0.50 eur converts to 0.54 usd and 1.50 eur to 1.64 usd: ties go to the even neighbour |
| `Currency.UsdToEurNeverTies` | payment/views.py:31 | no usd amount converts to eur with an exact tie, so half-even and half-up agree in that direction |
| `Currency.RoundTripDrifts` | payment/views.py:30-37 | usd→eur→usd is not the identity: 10.00 usd returns as 10.03 usd |
| `Currency.LowerChar` | payment/views.py:46 | an ASCII capital becomes the matching small letter, and every other character is kept |
| `Currency.Lower` | payment/views.py:46 | lower-casing keeps the length and lower-cases each ASCII capital |
| `Currency.LowerIdempotent` | payment/views.py:46-47 | lower-casing twice is lower-casing once, and it leaves a supported currency unchanged |
| `Currency.ItemCurrency` | payment/views.py:46-48 | the item-page currency is either supported or the item's own currency; a supported lower-cased request is honoured; if the item's currency is supported, so is the result |
| `Currency.CartCurrency` | payment/views.py:108-110 | the cart-page currency is always usd or eur. A non-empty POSTed value takes precedence over the query parameter. An unsupported value, including a capitalised one, becomes usd |
| `Currency.CheckoutCurrency` | payment/views.py:150-152 | the checkout currency is always usd or eur: the lower-cased parameter if supported, else usd |
| `Currency.CartAndCheckoutDisagreeOnCase` | payment/views.py:108-152 | for the parameter `EUR` the cart page picks usd while checkout picks eur |
| `Catalog.NameLeTotal` | payment/models.py:29 | any two names are comparable in the name order |
| `Catalog.NameLeTransitive` | payment/models.py:29 | the name order is transitive |
| `Catalog.NameLeAntisymmetric` | payment/models.py:29 | two names ordered both ways are equal |
| `Catalog.Known` | payment/views.py:107 | an id is kept exactly when the cart holds it and the catalogue has it; no id is kept twice |
| `Catalog.InsertByName` | payment/models.py:29 | inserting into a name-ordered listing keeps it name-ordered, adds exactly the one id, and keeps ids distinct |
| `Catalog.SortByName` | payment/models.py:29 | the sorted listing has the same ids, in name order, and stays free of repeats |
| `Catalog.Resolve` | payment/views.py:107 | the lookup returns exactly the cart ids that name an item, each once, in ascending name order |
| `Catalog.OrderedListingUnique` | payment/models.py:4-29 | with unique names, two name-ordered repeat-free listings of the same ids are equal |
| `Catalog.ResolveIgnoresCartOrder` | payment/views.py:107 | with unique names, the lookup depends only on which ids the cart holds, not on their order or repetition |
| `Catalog.Lookup` | payment/views.py:156-161 | a record is found exactly when the id is set, non-zero and present; the id found is the one selected |
| `Cart.AddIfAbsent` | payment/views.py:99-102 | the new cart holds the old ids and the added one. The old cart is kept as a prefix, and at most one id is appended. The cart is unchanged exactly when the id was already in it |
| `Cart.AddKeepsNoDuplicates` | payment/views.py:99-102 | adding keeps a cart free of repeated ids |
| `Cart.AddIdempotent` | payment/views.py:99-102 | adding the same id twice equals adding it once |
| `Cart.Add` | payment/views.py:98-103 | `add_to_cart` changes only the cart, never the selection |
| `Cart.AddAfterClear` | payment/views.py:197-201 | after a reset, adding `x` gives the cart `[x]` with no selection |
| `Cart.TrimStart` | payment/views.py:115-116 | the text left after skipping leading whitespace is a suffix of the input that does not start with whitespace |
| `Cart.TrimEnd` | payment/views.py:115-116 | the text left after skipping trailing whitespace is a prefix of the input that does not end with whitespace |
| `Cart.ParseInt` | payment/views.py:115-116 | `int()` succeeds only on text that, once surrounding whitespace is skipped, is an optionally signed digit group of at most 4300 digits |
| `Cart.DigitCountAllDigits` | payment/views.py:115-116 | in text made only of digits, every character counts towards the digit limit |
| `Cart.TrimStartDropsSpaces` | payment/views.py:115-116 | what `int()` skips before a number is whitespace only |
| `Cart.TrimEndDropsSpaces` | payment/views.py:115-116 | what `int()` skips after a number is whitespace only |
| `Cart.ParseIntAcceptsDigits` | payment/views.py:115-116 | `int()` accepts a digit group surrounded by whitespace and returns its value, when it has at most 4300 digits |
| `Cart.ParseIntAcceptsPlus` | payment/views.py:115-116 | `int()` accepts a digit group after `+` and returns its value, when it has at most 4300 digits |
| `Cart.ParseIntAcceptsMinus` | payment/views.py:115-116 | `int()` accepts a digit group after `-` and returns its value negated, when it has at most 4300 digits |
| `Cart.ParseIntRejectsLong` | payment/views.py:115-116 | `int()` rejects a digit group of more than 4300 digits, with or without a sign |
| `Cart.ParseIntTooManyDigits` | payment/views.py:115-116 | 4301 ones make `int()` raise |
| `Cart.ParseIntSpaces` | payment/views.py:115-116 | `int()` skips the ASCII whitespace around a number |
| `Cart.ParseIntRejectsSeparators` | payment/views.py:115-116 | `int()` rejects a number next to one of the separators U+001C to U+001F |
| `Cart.ParseIntRoundTrip` | payment/views.py:115-116 | parsing the decimal text of an id of at most 4300 digits gives the id back |
| `Cart.ParseSelection` | payment/views.py:113-116 | a missing or empty field is no selection. A field `int()` rejects is malformed. A field `int()` accepts selects exactly the value it parses to |
| `Cart.Submit` | payment/views.py:112-116 | the cart is untouched. The request completes exactly when neither field is malformed. A malformed discount changes nothing. A malformed tax leaves the new discount written and the tax unchanged |
| `Cart.SubmitRenderedIds` | payment/views.py:113-116 | submitting the rendered ids of a discount and a tax, each of at most 4300 digits, selects exactly those ids |
| `Pricing.CartLines` | payment/views.py:125-130 | one row per resolved item, in order, with its name and its price converted to the page's currency |
| `Pricing.PriceCart` | payment/views.py:123-133 | the loop yields the rows and their exact sum as the total; the total is exactly 0 when no item resolves |
| `Pricing.Total` | payment/views.py:131-133 | rows whose prices are not negative add up to a total that is not negative |
| `Pricing.TotalNonNegative` | payment/views.py:123-133 | prices that are not negative give a total that is not negative |
| `Pricing.LineItemsFor` | payment/views.py:166-179 | one line item per resolved item, in order. Each line has the checkout currency and the item's name. Its unit amount is the converted price in minor units. Its quantity is 1. Every line has the same tax rate |
| `Pricing.BuildLineItems` | payment/views.py:166-179 | the checkout loop, with its conditional `tax_rates` update, produces exactly those line items |
| `Pricing.TaxRateFor` | payment/views.py:177-178 | a tax rate is attached exactly when the selected tax exists and its reference is non-empty |
| `Pricing.CouponFor` | payment/views.py:189-190 | a coupon is attached exactly when the selected discount exists and its coupon id is non-empty |
| `Pricing.PlanCheckout` | payment/views.py:147-193 | the order holds exactly the cart ids the catalogue has, together with the discount and tax found. The request pays by card in payment mode. Its line items are those of the resolved items in the checkout currency, and its key currency is the checkout currency, also when the cart is empty. Its coupon is attached as `CouponFor` states |
| `Pricing.TaxOnEveryLineOrNone` | payment/views.py:177-178 | either every line carries a tax rate or none does |
| `Pricing.UnknownDiscountIsNoDiscount` | payment/views.py:154-190 | a selected discount id with no record gives exactly the checkout of no selection |
| `Pricing.EmptyCheckout` | payment/views.py:148-179 | when no cart id resolves, there are no line items and the order has no items |
| `Pricing.CartTotalIsAmountDue` | payment/views.py:123-179 | in the same currency, the cart page's total equals the sum of the checkout's unit amounts |
| `Pricing.TwoItemsByName` | payment/views.py:148 | the two-item cart `[1, 2]` resolves to the mug first, by name |
| `Pricing.TwoItemsPriced` | payment/views.py:125-133 | in usd the two items give line items of 300 and 500 minor units and a cart total of 800 |
| `Pricing.ExampleTwoItemCart` | payment/views.py:147-179 | items at 5.00 and 3.00 usd check out as lines of 300 and 500 minor units in name order, with total 8.00 |
| `Views.ItemPage` | payment/views.py:44-50 | the page shows the fallback currency and the item's price converted into it. The price is unchanged when the item's own currency is chosen, and not negative for a non-negative price |
| `Views.ItemPageDefaultsToOwnPrice` | payment/views.py:46-50 | without a currency parameter, an item in a supported currency shows its own price |
| `Views.Buy` | payment/views.py:60-83 | a single line with quantity 1, no tax rate and no coupon, in the item-page currency. Its unit amount is the price the item page displays |
| `Views.BuyMatchesCheckout` | payment/views.py:60-83 | buying one item gives the same line items as checking out a cart of only that item with no tax, when both choose the same currency |
| `Views.Session.constructor` | payment/views.py:99 | a new session has an empty cart and no selection |
| `Views.Session.AddToCart` | payment/views.py:98-103 | the new state is `Add` of the old one, and a cart without repeats stays without repeats |
| `Views.Session.SubmitSelection` | payment/views.py:112-118 | the new state and the outcome are those of `Submit` on the old state. The cart, and with it the no-repeats invariant, is unchanged |
| `Views.Session.ClearCart` | payment/views.py:197-201 | the state becomes an empty cart with no selection |
| `Views.Session.PaymentSuccess` | payment/views.py:203-207 | the state becomes an empty cart with no selection |
| `Views.Session.ViewCart` | payment/views.py:105-145 | the page shows a supported currency, the resolved items' rows and their sum, and the stored selection. With no resolvable id it shows no rows and a zero total |
| `Views.Session.Checkout` | payment/views.py:147-195 | the checkout's order and request are `PlanCheckout` of the session's state |
| `Views.ClearThenAdd` | payment/views.py:197-201 | clearing a cart and then adding `x` twice leaves exactly `[x]` |

## Left out

- Payment processor calls are not modelled: `stripe.checkout.Session.create`, `stripe.PaymentIntent.create`, and the process-wide `stripe.api_key` assignments (payment/views.py:12, 69-71, 89-96, 192-195). They are a network API plus global configuration. The session request is returned as a `SessionRequest` record. Gateway failures are not modelled.
- `create_payment_intent` (payment/views.py:89-96) is not modelled. It is only a processor call.
- Key lookup (`get_stripe_public_key`, `get_stripe_secret_key`, payment/views.py:17-24) reads the framework's settings. The request records only `keyCurrency`, the currency whose key would be chosen.
- The web layer is not modelled: `index`, template rendering, redirects, `reverse`, `build_absolute_uri` and `JsonResponse`. Success and cancel URLs are therefore not part of `SessionRequest`. The `get_object_or_404` path of the item page and `buy` is not modelled either; both receive the item that was found.
- Persistence is not modelled (`Order.objects.create`, `order.items.set`). Checkout returns the order record and does not store it. The order's creation timestamp, and the rule that the order is stored before the payment session is requested, are not modelled.
- `Order.total`, `Item.description` and the `amount` fields of discounts and taxes are not modelled, because no core operation reads them.
- `Cart.ParseInt` uses the interpreter's default limit of 4300 digits. Interpreters older than 3.10.7 have no limit, and the limit can be changed by configuration; neither is modelled.
- Parsing in `ParseInt` treats only ASCII whitespace (tab, line feed, vertical tab, form feed, carriage return, space) and ASCII digits as valid. Python's `int()` also accepts non-ASCII Unicode whitespace and decimal digits.
- Lower-casing in `Lower` handles only ASCII capitals. No character outside ASCII lower-cases to a letter of `usd` or `eur`, so the fallback rules decide the same way.
- Session writes on a failed request are not modelled as discarded. When `int()` raises, the framework does not save that request's session changes. `Views.Session.SubmitSelection` models the writes the view itself makes before the error.
- Name order is code-point order of the names. A database collation that orders text differently is not modelled.
- Decimal precision limits are not modelled. With at most 10-digit prices, every product is exact under the default 28-digit precision.
- Concurrent requests within one session, and the duplicate orders a double submit can create, are not modelled.
