/** The catalogue records the views read and the lookups they make on them:
    `Item.objects.filter(id__in=cart)` (known ids only, each once, ordered by
    name because the item model orders by name) and the
    `Discount`/`Tax` `filter(id=...).first()` lookups. */
module Catalog {
  import opened Wrappers

  /** An item for sale: its name (unique in the catalogue), its price in
      hundredths and the currency the price is listed in. */
  datatype Item = Item(name: string, price: int, currency: string)

  /** A discount, with the payment processor's coupon reference if it has one. */
  datatype Discount = Discount(name: string, couponId: Option<string>)

  /** A tax, with the payment processor's tax-rate reference if it has one. */
  datatype Tax = Tax(name: string, taxRateId: Option<string>)

  /** The item table, keyed by primary key. */
  type Catalogue = map<int, Item>

  /** The database's uniqueness constraint on item names. */
  predicate UniqueNames(cat: Catalogue) {
    forall i, j :: i in cat && j in cat && cat[i].name == cat[j].name ==> i == j
  }

  predicate NoDuplicates(s: seq<int>) {
    forall i, j :: 0 <= i < j < |s| ==> s[i] != s[j]
  }

  predicate AllKnown(ids: seq<int>, cat: Catalogue) {
    forall i :: 0 <= i < |ids| ==> ids[i] in cat
  }

  // ---------------------------------------------------------------------------
  // Ordering by name
  // ---------------------------------------------------------------------------

  /** Lexicographic order of names, character by character (code point order). */
  predicate NameLe(a: string, b: string)
    decreases |a|
  {
    a == [] || (b != [] && (a[0] < b[0] || (a[0] == b[0] && NameLe(a[1..], b[1..]))))
  }

  lemma {:induction false} NameLeTotal(a: string, b: string)
    ensures NameLe(a, b) || NameLe(b, a)
    decreases |a|
  {
    if a != [] && b != [] && a[0] == b[0] {
      NameLeTotal(a[1..], b[1..]);
    }
  }

  lemma {:induction false} NameLeAntisymmetric(a: string, b: string)
    requires NameLe(a, b) && NameLe(b, a)
    ensures a == b
    decreases |a|
  {
    if a != [] {
      NameLeAntisymmetric(a[1..], b[1..]);
    }
  }

  lemma {:induction false} NameLeTransitive(a: string, b: string, c: string)
    requires NameLe(a, b) && NameLe(b, c)
    ensures NameLe(a, c)
    decreases |a|
  {
    if a != [] && a[0] == b[0] && b[0] == c[0] {
      NameLeTransitive(a[1..], b[1..], c[1..]);
    }
  }

  /** `ids` lists items in ascending name order. */
  predicate OrderedByName(ids: seq<int>, cat: Catalogue)
    requires AllKnown(ids, cat)
  {
    forall i, j :: 0 <= i < j < |ids| ==> NameLe(cat[ids[i]].name, cat[ids[j]].name)
  }

  // ---------------------------------------------------------------------------
  // Resolving a cart against the catalogue
  // ---------------------------------------------------------------------------

  /** The ids of `cart` that name an item, each once, in cart order. */
  function Known(cart: seq<int>, cat: Catalogue): (r: seq<int>)
    ensures forall id :: id in r <==> id in cart && id in cat
    ensures NoDuplicates(r)
  {
    if cart == [] then []
    else
      var k, x := Known(cart[..|cart| - 1], cat), cart[|cart| - 1];
      assert cart == cart[..|cart| - 1] + [x];
      if x in cat && x !in k then k + [x] else k
  }

  /** Inserts `x` before the first item of `s` whose name is greater than x's. */
  function InsertByName(x: int, s: seq<int>, cat: Catalogue): (r: seq<int>)
    requires x in cat && AllKnown(s, cat) && OrderedByName(s, cat)
    ensures |r| == |s| + 1
    ensures forall id :: id in r <==> id == x || id in s
    ensures AllKnown(r, cat) && OrderedByName(r, cat)
    ensures NoDuplicates(s) && x !in s ==> NoDuplicates(r)
  {
    if s == [] then [x]
    else if NameLe(cat[x].name, cat[s[0]].name) then
      assert forall j :: 0 < j < |s| ==> NameLe(cat[x].name, cat[s[j]].name) by {
        forall j | 0 < j < |s| ensures NameLe(cat[x].name, cat[s[j]].name) {
          NameLeTransitive(cat[x].name, cat[s[0]].name, cat[s[j]].name);
        }
      }
      [x] + s
    else
      NameLeTotal(cat[x].name, cat[s[0]].name);
      var t := InsertByName(x, s[1..], cat);
      assert forall k :: 0 <= k < |t| ==> NameLe(cat[s[0]].name, cat[t[k]].name) by {
        forall k | 0 <= k < |t| ensures NameLe(cat[s[0]].name, cat[t[k]].name) {
          assert t[k] in t;
          if t[k] != x {
            var j :| 0 <= j < |s[1..]| && s[1..][j] == t[k];
            assert s[j + 1] == t[k];
          }
        }
      }
      assert NoDuplicates(s) && x !in s ==> s[0] !in t by {
        assert forall k :: 0 <= k < |s[1..]| ==> s[1..][k] == s[k + 1];
      }
      [s[0]] + t
  }

  /** Insertion sort of `s` by item name. */
  function SortByName(s: seq<int>, cat: Catalogue): (r: seq<int>)
    requires AllKnown(s, cat)
    ensures |r| == |s|
    ensures forall id :: id in r <==> id in s
    ensures AllKnown(r, cat) && OrderedByName(r, cat)
    ensures NoDuplicates(s) ==> NoDuplicates(r)
  {
    if s == [] then []
    else InsertByName(s[0], SortByName(s[1..], cat), cat)
  }

  /** `Item.objects.filter(id__in=cart)`: every cart id that names an item,
      once, in name order; unknown ids and repeats are dropped. */
  function Resolve(cart: seq<int>, cat: Catalogue): (ids: seq<int>)
    ensures forall id :: id in ids <==> id in cart && id in cat
    ensures NoDuplicates(ids)
    ensures AllKnown(ids, cat) && OrderedByName(ids, cat)
  {
    SortByName(Known(cart, cat), cat)
  }

  lemma SameMembersBothEmpty(s1: seq<int>, s2: seq<int>)
    requires forall id :: id in s1 <==> id in s2
    ensures s1 == [] <==> s2 == []
  {
    if s1 != [] {
      var x := s1[0];
      assert x in s1;
    }
    if s2 != [] {
      var x := s2[0];
      assert x in s2;
    }
  }

  /** Under unique names, a set of items has exactly one listing in name order. */
  lemma {:induction false} OrderedListingUnique(s1: seq<int>, s2: seq<int>, cat: Catalogue)
    requires UniqueNames(cat)
    requires AllKnown(s1, cat) && OrderedByName(s1, cat) && NoDuplicates(s1)
    requires AllKnown(s2, cat) && OrderedByName(s2, cat) && NoDuplicates(s2)
    requires forall id :: id in s1 <==> id in s2
    ensures s1 == s2
    decreases |s1|
  {
    SameMembersBothEmpty(s1, s2);
    if s1 != [] {
      var a, b := s1[0], s2[0];
      assert a in s1 && b in s2;
      var i :| 0 <= i < |s1| && s1[i] == b;
      var j :| 0 <= j < |s2| && s2[j] == a;
      assert NameLe(cat[a].name, cat[b].name) by {
        if i > 0 { } else { NameLeTotal(cat[a].name, cat[a].name); }
      }
      assert NameLe(cat[b].name, cat[a].name) by {
        if j > 0 { } else { NameLeTotal(cat[b].name, cat[b].name); }
      }
      NameLeAntisymmetric(cat[a].name, cat[b].name);
      assert a == b;
      assert forall id :: id in s1[1..] <==> id in s2[1..] by {
        forall id ensures id in s1[1..] <==> id in s2[1..] {
          assert id in s1[1..] <==> id in s1 && id != a;
          assert id in s2[1..] <==> id in s2 && id != b;
        }
      }
      OrderedListingUnique(s1[1..], s2[1..], cat);
      assert s1 == [a] + s1[1..] && s2 == [b] + s2[1..];
    } else {
      SameMembersBothEmpty(s1, s2);
    }
  }

  /** The lookup depends only on which ids the cart holds, not on their order
      or repetition. */
  lemma ResolveIgnoresCartOrder(cart1: seq<int>, cart2: seq<int>, cat: Catalogue)
    requires UniqueNames(cat)
    requires forall id :: id in cart1 <==> id in cart2
    ensures Resolve(cart1, cat) == Resolve(cart2, cat)
  {
    OrderedListingUnique(Resolve(cart1, cat), Resolve(cart2, cat), cat);
  }

  // ---------------------------------------------------------------------------
  // Discount and tax lookups
  // ---------------------------------------------------------------------------

  /** `if id: Model.objects.filter(id=id).first()`: an unset or zero id is not
      looked up; an id with no record finds nothing. The result is the id of
      the record found. */
  function Lookup<T>(id: Option<int>, table: map<int, T>): (r: Option<int>)
    ensures r.Some? <==> id.Some? && id.value != 0 && id.value in table
    ensures r.Some? ==> r == id
  {
    if id.Some? && id.value != 0 && id.value in table then id else None
  }
}
