/** The per-visitor cart kept in the session: the list of item ids and the
    selected discount and tax ids, with the transitions the views make on it. */
module Cart {
  import opened Wrappers
  import Catalog

  /** The three session keys `cart`, `cart_discount_id` and `cart_tax_id`;
      an unset key reads as an empty cart or as no selection. */
  datatype CartState = CartState(cart: seq<int>, discountId: Option<int>, taxId: Option<int>)

  /** A fresh session, and the state `clear_cart` and `payment_success` leave. */
  const Empty := CartState([], None, None)

  // ---------------------------------------------------------------------------
  // add_to_cart
  // ---------------------------------------------------------------------------

  /** Appends `id` unless the cart already holds it. */
  function AddIfAbsent(cart: seq<int>, id: int): (r: seq<int>)
    ensures id in r
    ensures forall x :: x in r <==> x in cart || x == id
    ensures |cart| <= |r| <= |cart| + 1 && r[..|cart|] == cart
    ensures id in cart <==> r == cart
  {
    if id in cart then cart else cart + [id]
  }

  /** Adding keeps a cart free of repeated ids. */
  lemma AddKeepsNoDuplicates(cart: seq<int>, id: int)
    requires Catalog.NoDuplicates(cart)
    ensures Catalog.NoDuplicates(AddIfAbsent(cart, id))
  {
  }

  /** Adding the same id twice is the same as adding it once. */
  lemma AddIdempotent(cart: seq<int>, id: int)
    ensures AddIfAbsent(AddIfAbsent(cart, id), id) == AddIfAbsent(cart, id)
  {
  }

  /** The `add_to_cart` transition: the cart grows, the selection stays. */
  function Add(s: CartState, id: int): (r: CartState)
    ensures r.cart == AddIfAbsent(s.cart, id)
    ensures r.discountId == s.discountId && r.taxId == s.taxId
  {
    s.(cart := AddIfAbsent(s.cart, id))
  }

  /** After a clear, adding `x` leaves a cart of exactly `[x]` and no selection. */
  lemma AddAfterClear(x: int)
    ensures Add(Empty, x) == CartState([x], None, None)
  {
  }

  // ---------------------------------------------------------------------------
  // int() applied to a POSTed field
  // ---------------------------------------------------------------------------

  predicate IsDigit(c: char) {
    '0' <= c <= '9'
  }

  /** The ASCII characters `int()` skips around a number: tab, line feed,
      vertical tab, form feed, carriage return and space. */
  predicate IsSpace(c: char) {
    c == ' ' || c == '\t' || c == '\n' || c == '\r' || c as int == 11 || c as int == 12
  }

  function TrimStart(s: string): (r: string)
    ensures |r| <= |s| && r == s[|s| - |r|..]
    ensures r == [] || !IsSpace(r[0])
    ensures s == [] || !IsSpace(s[0]) ==> r == s
  {
    if s != [] && IsSpace(s[0]) then TrimStart(s[1..]) else s
  }

  function TrimEnd(s: string): (r: string)
    ensures |r| <= |s| && r == s[..|r|]
    ensures r == [] || !IsSpace(r[|r| - 1])
    ensures s == [] || !IsSpace(s[|s| - 1]) ==> r == s
  {
    if s != [] && IsSpace(s[|s| - 1]) then TrimEnd(s[..|s| - 1]) else s
  }

  /** Everything `TrimStart` drops is whitespace. */
  lemma {:induction false} TrimStartDropsSpaces(s: string)
    ensures forall i :: 0 <= i < |s| - |TrimStart(s)| ==> IsSpace(s[i])
  {
    if s != [] && IsSpace(s[0]) {
      TrimStartDropsSpaces(s[1..]);
      forall i | 1 <= i < |s| - |TrimStart(s)|
        ensures IsSpace(s[i])
      {
        assert s[i] == s[1..][i - 1];
      }
    }
  }

  /** Everything `TrimEnd` drops is whitespace. */
  lemma {:induction false} TrimEndDropsSpaces(s: string)
    ensures forall i :: |TrimEnd(s)| <= i < |s| ==> IsSpace(s[i])
  {
    if s != [] && IsSpace(s[|s| - 1]) {
      TrimEndDropsSpaces(s[..|s| - 1]);
      forall i | |TrimEnd(s)| <= i < |s| - 1
        ensures IsSpace(s[i])
      {
        assert s[i] == s[..|s| - 1][i];
      }
    }
  }

  /** Decimal digits, where single underscores may separate two digits. */
  predicate IsDigitGroup(s: string) {
    |s| > 0 && IsDigit(s[0]) && IsDigit(s[|s| - 1]) &&
    (forall i :: 0 <= i < |s| ==> IsDigit(s[i]) || s[i] == '_') &&
    (forall i :: 0 <= i < |s| - 1 && s[i] == '_' ==> s[i + 1] != '_')
  }

  /** The value of the digits of `s`, underscores skipped. */
  function DigitsValue(s: string): (r: nat)
  {
    if s == [] then 0
    else if IsDigit(s[|s| - 1]) then 10 * DigitsValue(s[..|s| - 1]) + (s[|s| - 1] as int - '0' as int)
    else DigitsValue(s[..|s| - 1])
  }

  /** The most digits `int()` converts from decimal text: the interpreter's
      default `int_max_str_digits`. */
  const MaxStrDigits: nat := 4300

  /** The number of digits in `s`; underscores do not count, leading zeros do. */
  function DigitCount(s: string): (r: nat)
    ensures r <= |s|
  {
    if s == [] then 0
    else DigitCount(s[..|s| - 1]) + (if IsDigit(s[|s| - 1]) then 1 else 0)
  }

  /** In text made only of digits, every character counts. */
  lemma {:induction false} DigitCountAllDigits(s: string)
    requires forall i :: 0 <= i < |s| ==> IsDigit(s[i])
    ensures DigitCount(s) == |s|
  {
    if s != [] {
      DigitCountAllDigits(s[..|s| - 1]);
    }
  }

  /** Python's `int(text)` for base-10 text: surrounding whitespace, an
      optional sign, then at most `MaxStrDigits` digits; anything else
      raises, modelled as None. */
  function ParseInt(text: string): (r: Option<int>)
    ensures r.Some? ==> var t := TrimEnd(TrimStart(text));
                          (IsDigitGroup(t) && DigitCount(t) <= MaxStrDigits) ||
                          (|t| > 1 && (t[0] == '+' || t[0] == '-') && IsDigitGroup(t[1..]) && DigitCount(t[1..]) <= MaxStrDigits)
  {
    var t := TrimEnd(TrimStart(text));
    if |t| > 0 && (t[0] == '+' || t[0] == '-') then
      if IsDigitGroup(t[1..]) && DigitCount(t[1..]) <= MaxStrDigits then
        Some(if t[0] == '-' then -(DigitsValue(t[1..]) as int) else DigitsValue(t[1..]))
      else None
    else if IsDigitGroup(t) && DigitCount(t) <= MaxStrDigits then Some(DigitsValue(t))
    else None
  }

  /** `int()` accepts a digit group once surrounding whitespace is skipped,
      and returns its value. */
  lemma ParseIntAcceptsDigits(text: string)
    ensures var t := TrimEnd(TrimStart(text));
              IsDigitGroup(t) && DigitCount(t) <= MaxStrDigits ==> ParseInt(text) == Some(DigitsValue(t) as int)
  {
    var t := TrimEnd(TrimStart(text));
    if IsDigitGroup(t) && DigitCount(t) <= MaxStrDigits {
      assert IsDigit(t[0]);
    }
  }

  /** `int()` accepts a digit group after a plus sign, and returns its value. */
  lemma ParseIntAcceptsPlus(text: string)
    ensures var t := TrimEnd(TrimStart(text));
              |t| > 1 && t[0] == '+' && IsDigitGroup(t[1..]) && DigitCount(t[1..]) <= MaxStrDigits ==>
                ParseInt(text) == Some(DigitsValue(t[1..]) as int)
  {
  }

  /** `int()` accepts a digit group after a minus sign, and returns its
      value negated. */
  lemma ParseIntAcceptsMinus(text: string)
    ensures var t := TrimEnd(TrimStart(text));
              |t| > 1 && t[0] == '-' && IsDigitGroup(t[1..]) && DigitCount(t[1..]) <= MaxStrDigits ==>
                ParseInt(text) == Some(-(DigitsValue(t[1..]) as int))
  {
  }

  /** `int()` rejects text with more than `MaxStrDigits` digits, signed or not. */
  lemma ParseIntRejectsLong(text: string)
    ensures var t := TrimEnd(TrimStart(text));
              IsDigitGroup(t) && DigitCount(t) > MaxStrDigits ==> ParseInt(text) == None
    ensures var t := TrimEnd(TrimStart(text));
              |t| > 1 && (t[0] == '+' || t[0] == '-') && DigitCount(t[1..]) > MaxStrDigits ==> ParseInt(text) == None
  {
    var t := TrimEnd(TrimStart(text));
    if IsDigitGroup(t) {
      assert IsDigit(t[0]);
    }
  }

  /** 4301 ones are one digit too many: `int()` raises. */
  lemma ParseIntTooManyDigits()
    ensures ParseInt(seq(MaxStrDigits + 1, _ => '1')) == None
  {
    var s := seq(MaxStrDigits + 1, _ => '1');
    TrimUnspaced(s);
    DigitCountAllDigits(s);
    ParseIntRejectsLong(s);
  }

  /** `int()` skips the ASCII whitespace around a number. */
  lemma ParseIntSpaces()
    ensures ParseInt(" 5\n") == Some(5)
    ensures ParseInt("\U{0b}5\U{0c}") == Some(5)
  {
    TrimmedDigit(" 5\n");
    TrimmedDigit("\U{0b}5\U{0c}");
  }

  /** `int()` does not skip the information separators U+001C to U+001F,
      although `str.isspace()` counts them as whitespace. */
  lemma ParseIntRejectsSeparators()
    ensures ParseInt("\U{1c}5") == None
    ensures ParseInt("5\U{1f}") == None
  {
    UnspacedNonDigits("\U{1c}5");
    UnspacedNonDigits("5\U{1f}");
  }

  /** Text without whitespace at its ends that has a character at an end that
      is neither a digit nor a sign does not parse. */
  lemma UnspacedNonDigits(s: string)
    requires |s| == 2 && !IsSpace(s[0]) && !IsSpace(s[1])
    requires (!IsDigit(s[0]) && s[0] != '+' && s[0] != '-') || !IsDigit(s[1])
    ensures ParseInt(s) == None
  {
    TrimUnspaced(s);
  }

  /** A digit with one whitespace character on each side parses to the digit. */
  lemma TrimmedDigit(s: string)
    requires |s| == 3 && IsSpace(s[0]) && s[1] == '5' && IsSpace(s[2])
    ensures ParseInt(s) == Some(5)
  {
    assert s[1..] == "5" + [s[2]];
    assert TrimStart(s) == "5" + [s[2]];
    assert ("5" + [s[2]])[..1] == "5";
    assert TrimEnd(TrimStart(s)) == "5";
    assert DigitCount("5") == 1 && DigitsValue("5") == 5;
    ParseIntAcceptsDigits(s);
  }

  /** Decimal text of a natural number, as a template renders an id. */
  function NatToText(n: nat): (r: string)
    ensures |r| > 0 && forall i :: 0 <= i < |r| ==> IsDigit(r[i])
  {
    var d := ['0' + (n % 10) as char];
    if n < 10 then d else NatToText(n / 10) + d
  }

  function IntToText(n: int): (r: string) {
    if n < 0 then "-" + NatToText(-n) else NatToText(n)
  }

  lemma {:induction false} NatToTextValue(n: nat)
    ensures DigitsValue(NatToText(n)) == n
  {
    var s := NatToText(n);
    if n >= 10 {
      NatToTextValue(n / 10);
      assert s[..|s| - 1] == NatToText(n / 10);
    }
  }

  lemma DigitTextIsGroup(n: nat)
    ensures IsDigitGroup(NatToText(n))
    ensures DigitsValue(NatToText(n)) == n
  {
    NatToTextValue(n);
  }

  /** Text that neither starts nor ends with whitespace is left alone by strip. */
  lemma TrimUnspaced(s: string)
    requires s != [] && !IsSpace(s[0]) && !IsSpace(s[|s| - 1])
    ensures TrimEnd(TrimStart(s)) == s
  {
  }

  /** The decimal text of `n` has at most `MaxStrDigits` digits. */
  predicate FitsDigitLimit(n: int) {
    |NatToText(if n < 0 then -n else n)| <= MaxStrDigits
  }

  /** Parsing the rendered text of an id of at most `MaxStrDigits` digits
      gives the id back. */
  lemma ParseIntRoundTrip(n: int)
    requires FitsDigitLimit(n)
    ensures ParseInt(IntToText(n)) == Some(n)
  {
    if n < 0 {
      SignedTextParses(-n);
    } else {
      DigitTextParses(n);
    }
  }

  /** The digits of a natural number within the limit parse to it. */
  lemma DigitTextParses(m: nat)
    requires |NatToText(m)| <= MaxStrDigits
    ensures ParseInt(NatToText(m)) == Some(m)
  {
    var s := NatToText(m);
    DigitTextIsGroup(m);
    DigitCountAllDigits(s);
    TrimUnspaced(s);
    ParseIntAcceptsDigits(s);
  }

  /** A minus sign and the digits of a positive number within the limit parse
      to its negation. */
  lemma SignedTextParses(m: nat)
    requires m > 0 && |NatToText(m)| <= MaxStrDigits
    ensures ParseInt("-" + NatToText(m)) == Some(-(m as int))
  {
    var s := "-" + NatToText(m);
    SignedTextShape(m, s);
    ParseIntAcceptsMinus(s);
  }

  /** A minus sign and the digits of `m` need no stripping, and after the sign
      stand the digit group of `m`. */
  lemma SignedTextShape(m: nat, s: string)
    requires |NatToText(m)| <= MaxStrDigits && s == "-" + NatToText(m)
    ensures TrimEnd(TrimStart(s)) == s
    ensures |s| > 1 && s[0] == '-' && s[1..] == NatToText(m)
    ensures IsDigitGroup(s[1..]) && DigitCount(s[1..]) <= MaxStrDigits && DigitsValue(s[1..]) == m
  {
    var digits := NatToText(m);
    DigitTextIsGroup(m);
    DigitCountAllDigits(digits);
    assert s[1..] == digits;
    assert s[|s| - 1] == digits[|digits| - 1];
    TrimUnspaced(s);
  }

  // ---------------------------------------------------------------------------
  // cart_view, POST branch: selecting a discount and a tax
  // ---------------------------------------------------------------------------

  /** What `int(field) if field else None` gives for a POSTed field that may
      be missing: no selection, an id, or a value `int()` rejects. */
  datatype Selection = NoSelection | Selected(id: int) | Malformed

  function ParseSelection(field: Option<string>): (r: Selection)
    ensures field.None? || field.value == "" ==> r == NoSelection
    ensures r.Selected? ==> field.Some? && ParseInt(field.value) == Some(r.id)
    ensures r.Malformed? <==> field.Some? && field.value != "" && ParseInt(field.value).None?
    ensures field.Some? && field.value != "" && ParseInt(field.value).Some? ==>
              r == Selected(ParseInt(field.value).value)
  {
    if field.None? || field.value == "" then NoSelection
    else
      match ParseInt(field.value)
      case Some(n) => Selected(n)
      case None => Malformed
  }

  function SelectedId(sel: Selection): (r: Option<int>) {
    if sel.Selected? then Some(sel.id) else None
  }

  /** The state after the POST and whether the request completed. */
  datatype Submitted = Submitted(state: CartState, ok: bool)

  /** The discount key is written first, then the tax key; a malformed value
      raises at the write it belongs to, so a malformed tax id after a good
      discount id leaves the discount written. */
  function Submit(s: CartState, discountField: Option<string>, taxField: Option<string>): (r: Submitted)
    ensures r.state.cart == s.cart
    ensures r.ok <==> !ParseSelection(discountField).Malformed? && !ParseSelection(taxField).Malformed?
    ensures ParseSelection(discountField).Malformed? ==> r.state == s
    ensures !ParseSelection(discountField).Malformed? ==> r.state.discountId == SelectedId(ParseSelection(discountField))
    ensures r.ok ==> r.state.taxId == SelectedId(ParseSelection(taxField))
    ensures !r.ok ==> r.state.taxId == s.taxId
  {
    var d := ParseSelection(discountField);
    if d.Malformed? then Submitted(s, false)
    else
      var s1 := s.(discountId := SelectedId(d));
      var t := ParseSelection(taxField);
      if t.Malformed? then Submitted(s1, false)
      else Submitted(s1.(taxId := SelectedId(t)), true)
  }

  /** Submitting the ids a form renders selects exactly those ids, when
      neither has more digits than `int()` converts. */
  lemma SubmitRenderedIds(s: CartState, discountId: int, taxId: int)
    requires FitsDigitLimit(discountId) && FitsDigitLimit(taxId)
    ensures Submit(s, Some(IntToText(discountId)), Some(IntToText(taxId)))
            == Submitted(CartState(s.cart, Some(discountId), Some(taxId)), true)
  {
    ParseIntRoundTrip(discountId);
    ParseIntRoundTrip(taxId);
  }
}
