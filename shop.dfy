/** The shop page: the catalogue filter, the category and brand selections
    that its checkboxes toggle, the "clear filters" reset, and the lists and
    bound derived once from the catalogue. */
module Shop {
  import opened Wrappers
  import opened Text
  import opened Catalog

  // ---------------------------------------------------------------------
  // Sequence vocabulary
  // ---------------------------------------------------------------------

  /** No value appears twice. */
  predicate NoDuplicates(s: seq<string>)
  {
    forall i, j :: 0 <= i < j < |s| ==> s[i] != s[j]
  }

  /** `a` is `b` with some elements dropped and the rest kept in order. */
  predicate IsSubsequence<T(==)>(a: seq<T>, b: seq<T>)
    decreases |b|
  {
    a == [] || (b != [] && ((a[0] == b[0] && IsSubsequence(a[1..], b[1..])) || IsSubsequence(a, b[1..])))
  }

  // ---------------------------------------------------------------------
  // The filter criteria and the product predicate
  // ---------------------------------------------------------------------

  /** The slider's two values `[low, high]`, both inclusive. */
  datatype PriceRange = PriceRange(low: int, high: int)

  /** The four pieces of filter state the page keeps. */
  datatype Criteria = Criteria(
    searchTerm: string,
    priceRange: PriceRange,
    categories: seq<string>,
    brands: seq<string>)

  /** The lower-cased name contains the lower-cased search term. */
  predicate MatchesSearch(p: Product, term: string)
  {
    Contains(Lower(p.name), Lower(term))
  }

  predicate MatchesPrice(p: Product, range: PriceRange)
  {
    range.low <= p.price <= range.high
  }

  /** An empty selection admits every value. */
  predicate MatchesSelection(selection: seq<string>, value: string)
  {
    |selection| == 0 || value in selection
  }

  /** A product is shown when it passes all four tests. An inverted price
      range shows nothing, and with no term and no selection only the price
      range decides. */
  predicate Matches(p: Product, c: Criteria)
    ensures Matches(p, c) ==> c.priceRange.low <= c.priceRange.high
    ensures c.searchTerm == "" && c.categories == [] && c.brands == [] ==>
              (Matches(p, c) <==> c.priceRange.low <= p.price <= c.priceRange.high)
  {
    assert Lower("") == "";
    EmptyContained(Lower(p.name));
    && MatchesSearch(p, c.searchTerm)
    && MatchesPrice(p, c.priceRange)
    && MatchesSelection(c.categories, p.category)
    && MatchesSelection(c.brands, p.brand)
  }

  /** `products.filter(...)`: the products that match, in catalogue order. */
  function Filter(ps: seq<Product>, c: Criteria): (r: seq<Product>)
    ensures |r| <= |ps|
    ensures forall i :: 0 <= i < |r| ==> Matches(r[i], c)
    decreases |ps|
  {
    if ps == [] then [] else (if Matches(ps[0], c) then [ps[0]] else []) + Filter(ps[1..], c)
  }

  /** A product is shown iff it is in the catalogue and passes all four tests. */
  lemma {:induction false} FilterMembership(ps: seq<Product>, c: Criteria, p: Product)
    ensures p in Filter(ps, c) <==>
              && p in ps
              && Contains(Lower(p.name), Lower(c.searchTerm))
              && c.priceRange.low <= p.price <= c.priceRange.high
              && (|c.categories| == 0 || p.category in c.categories)
              && (|c.brands| == 0 || p.brand in c.brands)
    decreases |ps|
  {
    if ps != [] {
      FilterMembership(ps[1..], c, p);
      assert ps == [ps[0]] + ps[1..];
    }
  }

  /** Nothing is added or duplicated: a matching product keeps its multiplicity,
      any other product disappears. */
  lemma {:induction false} FilterCount(ps: seq<Product>, c: Criteria, p: Product)
    ensures multiset(Filter(ps, c))[p] == if Matches(p, c) then multiset(ps)[p] else 0
    decreases |ps|
  {
    if ps != [] {
      FilterCount(ps[1..], c, p);
      assert ps == [ps[0]] + ps[1..];
    }
  }

  /** Nothing is reordered: the result is a subsequence of the catalogue. */
  lemma {:induction false} FilterSubsequence(ps: seq<Product>, c: Criteria)
    ensures IsSubsequence(Filter(ps, c), ps)
    decreases |ps|
  {
    if ps != [] {
      FilterSubsequence(ps[1..], c);
      var r := Filter(ps, c);
      if Matches(ps[0], c) {
        assert r[0] == ps[0] && r[1..] == Filter(ps[1..], c);
      } else {
        assert r == Filter(ps[1..], c);
      }
    }
  }

  /** When every product matches, the filter returns the catalogue itself. */
  lemma {:induction false} FilterKeepsAll(ps: seq<Product>, c: Criteria)
    requires forall i :: 0 <= i < |ps| ==> Matches(ps[i], c)
    ensures Filter(ps, c) == ps
    decreases |ps|
  {
    if ps != [] {
      assert forall i :: 0 <= i < |ps[1..]| ==> ps[1..][i] == ps[i + 1];
      FilterKeepsAll(ps[1..], c);
      assert ps == [ps[0]] + ps[1..];
    }
  }

  // ---------------------------------------------------------------------
  // The checkbox toggle
  // ---------------------------------------------------------------------

  /** `prev.filter(x => x !== value)`. */
  function RemoveAll(s: seq<string>, value: string): (r: seq<string>)
    ensures |r| <= |s|
    ensures value !in r
    decreases |s|
  {
    if s == [] then [] else (if s[0] == value then [] else [s[0]]) + RemoveAll(s[1..], value)
  }

  lemma {:induction false} RemoveAllCount(s: seq<string>, value: string, x: string)
    ensures multiset(RemoveAll(s, value))[x] == if x == value then 0 else multiset(s)[x]
    decreases |s|
  {
    if s != [] {
      RemoveAllCount(s[1..], value, x);
      assert s == [s[0]] + s[1..];
    }
  }

  lemma {:induction false} RemoveAllSubsequence(s: seq<string>, value: string)
    ensures IsSubsequence(RemoveAll(s, value), s)
    decreases |s|
  {
    if s != [] {
      RemoveAllSubsequence(s[1..], value);
      var r := RemoveAll(s, value);
      if s[0] == value {
        assert r == RemoveAll(s[1..], value);
      } else {
        assert r[0] == s[0] && r[1..] == RemoveAll(s[1..], value);
      }
    }
  }

  lemma {:induction false} RemoveAllAbsent(s: seq<string>, value: string)
    requires value !in s
    ensures RemoveAll(s, value) == s
    decreases |s|
  {
    if s != [] {
      RemoveAllAbsent(s[1..], value);
      assert s == [s[0]] + s[1..];
    }
  }

  lemma {:induction false} RemoveAllAppend(s: seq<string>, t: seq<string>, value: string)
    ensures RemoveAll(s + t, value) == RemoveAll(s, value) + RemoveAll(t, value)
    decreases |s|
  {
    if s != [] {
      assert (s + t)[0] == s[0] && (s + t)[1..] == s[1..] + t;
      RemoveAllAppend(s[1..], t, value);
    } else {
      assert s + t == t;
    }
  }

  lemma {:induction false} RemoveAllNoDuplicates(s: seq<string>, value: string)
    requires NoDuplicates(s)
    ensures NoDuplicates(RemoveAll(s, value))
    decreases |s|
  {
    if s != [] {
      var rest := RemoveAll(s[1..], value);
      assert NoDuplicates(s[1..]) by {
        assert forall i :: 0 <= i < |s[1..]| ==> s[1..][i] == s[i + 1];
      }
      RemoveAllNoDuplicates(s[1..], value);
      if s[0] != value {
        assert s[0] !in s[1..] by {
          forall i | 1 <= i < |s| ensures s[i] != s[0] { }
        }
        RemoveAllCount(s[1..], value, s[0]);
        assert s[0] !in rest;
        var r := [s[0]] + rest;
        forall i, j | 0 <= i < j < |r| ensures r[i] != r[j] {
          if i == 0 {
            assert r[j] == rest[j - 1] && rest[j - 1] in rest;
          } else {
            assert r[i] == rest[i - 1] && r[j] == rest[j - 1];
          }
        }
      }
    }
  }

  /** `prev.includes(value) ? prev.filter(x => x !== value) : [...prev, value]`. */
  function Toggle(selection: seq<string>, value: string): (r: seq<string>)
    ensures value in r <==> value !in selection
  {
    if value in selection then RemoveAll(selection, value) else selection + [value]
  }

  /** The toggle rule: an absent value is appended at the end; a present value
      has every occurrence removed, everything else kept in order and with its
      multiplicity. Either way only `value` changes its checked state. */
  lemma ToggleRule(selection: seq<string>, value: string)
    ensures value !in selection ==> Toggle(selection, value) == selection + [value]
    ensures value in selection ==>
              && value !in Toggle(selection, value)
              && IsSubsequence(Toggle(selection, value), selection)
              && forall x :: x != value ==> multiset(Toggle(selection, value))[x] == multiset(selection)[x]
    ensures forall x :: x in Toggle(selection, value) <==> (if x == value then value !in selection else x in selection)
  {
    if value in selection {
      RemoveAllSubsequence(selection, value);
      var r := RemoveAll(selection, value);
      forall x ensures multiset(r)[x] == (if x == value then 0 else multiset(selection)[x])
                    && (x in r <==> x in selection && x != value) {
        RemoveAllCount(selection, value, x);
        assert x in r <==> x in multiset(r);
        assert x in selection <==> x in multiset(selection);
      }
    }
  }

  /** Toggling never lets a value into a selection twice. */
  lemma ToggleKeepsNoDuplicates(selection: seq<string>, value: string)
    requires NoDuplicates(selection)
    ensures NoDuplicates(Toggle(selection, value))
  {
    if value in selection {
      RemoveAllNoDuplicates(selection, value);
    }
  }

  /** Ticking and then unticking an unticked value restores the selection. */
  lemma ToggleTwiceRestores(selection: seq<string>, value: string)
    requires value !in selection
    ensures Toggle(Toggle(selection, value), value) == selection
  {
    assert value in selection + [value];
    RemoveAllAppend(selection, [value], value);
    RemoveAllAbsent(selection, value);
    assert RemoveAll([value], value) == [] by {
      assert [value][1..] == [];
    }
  }

  // ---------------------------------------------------------------------
  // Lists and bound derived from the catalogue
  // ---------------------------------------------------------------------

  /** `[...new Set(s)]`: each value once, in the order of its first occurrence. */
  function Distinct(s: seq<string>): (r: seq<string>)
    ensures |r| <= |s|
    ensures forall x :: x in r ==> x in s
    decreases |s|
  {
    if s == [] then []
    else
      var r := Distinct(s[..|s| - 1]);
      if s[|s| - 1] in r then r else r + [s[|s| - 1]]
  }

  /** The index of the first occurrence of `x` in `s`. */
  function IndexOf(s: seq<string>, x: string): (k: nat)
    requires x in s
    ensures k < |s| && s[k] == x && x !in s[..k]
    decreases |s|
  {
    if s[0] == x then 0
    else
      var k := IndexOf(s[1..], x);
      assert s[..k + 1] == [s[0]] + s[1..][..k];
      k + 1
  }

  lemma IndexOfUnique(s: seq<string>, x: string, k: nat)
    requires k < |s| && s[k] == x && x !in s[..k]
    ensures IndexOf(s, x) == k
  {
    var m := IndexOf(s, x);
  }

  /** A first occurrence inside a prefix is the first occurrence overall. */
  lemma IndexOfPrefix(s: seq<string>, n: nat, x: string)
    requires n <= |s| && x in s[..n]
    ensures IndexOf(s, x) == IndexOf(s[..n], x) < n
  {
    var k := IndexOf(s[..n], x);
    assert s[..n][..k] == s[..k];
    IndexOfUnique(s, x, k);
  }

  lemma {:induction false} DistinctSpec(s: seq<string>)
    ensures NoDuplicates(Distinct(s))
    ensures forall x :: x in Distinct(s) <==> x in s
    ensures forall i, j :: 0 <= i < j < |Distinct(s)| ==>
              IndexOf(s, Distinct(s)[i]) < IndexOf(s, Distinct(s)[j])
    decreases |s|
  {
    if s != [] {
      var init, last := s[..|s| - 1], s[|s| - 1];
      assert s == init + [last];
      DistinctSpec(init);
      var r0 := Distinct(init);
      forall y | y in init ensures IndexOf(s, y) == IndexOf(init, y) < |init| {
        IndexOfPrefix(s, |s| - 1, y);
      }
      if last !in r0 {
        IndexOfUnique(s, last, |s| - 1);
        var r := r0 + [last];
        assert forall i :: 0 <= i < |r0| ==> r[i] == r0[i] && r0[i] in init;
      } else {
        assert forall i :: 0 <= i < |r0| ==> r0[i] in init;
      }
    }
  }

  function CategoryColumn(ps: seq<Product>): (r: seq<string>)
    ensures |r| == |ps| && forall i :: 0 <= i < |ps| ==> r[i] == ps[i].category
  {
    seq(|ps|, i requires 0 <= i < |ps| => ps[i].category)
  }

  function BrandColumn(ps: seq<Product>): (r: seq<string>)
    ensures |r| == |ps| && forall i :: 0 <= i < |ps| ==> r[i] == ps[i].brand
  {
    seq(|ps|, i requires 0 <= i < |ps| => ps[i].brand)
  }

  /** `allCategories`: every category of the catalogue exactly once,
      in first-occurrence order. */
  function AllCategories(ps: seq<Product>): (r: seq<string>)
    ensures NoDuplicates(r)
    ensures forall x :: x in r <==> exists i :: 0 <= i < |ps| && ps[i].category == x
    ensures forall x :: x in r <==> x in CategoryColumn(ps)
    ensures forall i, j :: 0 <= i < j < |r| ==>
              IndexOf(CategoryColumn(ps), r[i]) < IndexOf(CategoryColumn(ps), r[j])
  {
    DistinctSpec(CategoryColumn(ps));
    Distinct(CategoryColumn(ps))
  }

  /** `allBrands`: every brand of the catalogue exactly once,
      in first-occurrence order. */
  function AllBrands(ps: seq<Product>): (r: seq<string>)
    ensures NoDuplicates(r)
    ensures forall x :: x in r <==> exists i :: 0 <= i < |ps| && ps[i].brand == x
    ensures forall x :: x in r <==> x in BrandColumn(ps)
    ensures forall i, j :: 0 <= i < j < |r| ==>
              IndexOf(BrandColumn(ps), r[i]) < IndexOf(BrandColumn(ps), r[j])
  {
    DistinctSpec(BrandColumn(ps));
    Distinct(BrandColumn(ps))
  }

  /** Stands for the `-Infinity` that `Math.max()` yields for no arguments:
      like it, it lies below every (non-negative) price. */
  const NoPrice: int := -1

  /** `maxPrice`: an upper bound of every price that is itself some price. */
  function MaxPrice(ps: seq<Product>): (m: int)
    ensures forall i :: 0 <= i < |ps| ==> ps[i].price <= m
    ensures ps != [] ==> exists i :: 0 <= i < |ps| && ps[i].price == m
    ensures ps == [] ==> m == NoPrice
    decreases |ps|
  {
    if ps == [] then NoPrice
    else
      var rest := MaxPrice(ps[1..]);
      assert forall i :: 1 <= i < |ps| ==> ps[i] == ps[1..][i - 1];
      if rest <= ps[0].price then ps[0].price
      else
        assert exists i :: 1 <= i < |ps| && ps[i].price == rest by {
          var i :| 0 <= i < |ps[1..]| && ps[1..][i].price == rest;
          assert ps[i + 1].price == rest;
        }
        rest
  }

  /** `initialCategory ? [initialCategory] : []`: the query's category,
      unless it is missing or the (falsy) empty string. */
  function InitialCategories(query: Option<string>): (r: seq<string>)
    ensures |r| <= 1 && NoDuplicates(r)
    ensures forall c :: c in r <==> query == Some(c) && c != ""
  {
    if query.Some? && query.value != "" then [query.value] else []
  }

  /** The criteria `clearFilters` sets. */
  function ClearedCriteria(catalogue: seq<Product>): (c: Criteria)
  {
    Criteria("", PriceRange(0, MaxPrice(catalogue)), [], [])
  }

  /** After clearing, every catalogue product is shown: the empty term is in
      every name and `maxPrice` bounds every price. */
  lemma {:induction false} ClearedShowsEverything(catalogue: seq<Product>)
    ensures Filter(catalogue, ClearedCriteria(catalogue)) == catalogue
  {
    var c := ClearedCriteria(catalogue);
    forall i | 0 <= i < |catalogue| ensures Matches(catalogue[i], c) {
      assert Lower("") == "";
      EmptyContained(Lower(catalogue[i].name));
    }
    FilterKeepsAll(catalogue, c);
  }

  // ---------------------------------------------------------------------
  // The page's state
  // ---------------------------------------------------------------------

  /** The four `useState` slots of the shop page over a fixed catalogue. */
  class ShopPage {
    const catalogue: seq<Product>
    var searchTerm: string
    var priceRange: PriceRange
    var selectedCategories: seq<string>
    var selectedBrands: seq<string>

    /** Neither selection ever holds a value twice. */
    ghost predicate Valid()
      reads this
    {
      NoDuplicates(selectedCategories) && NoDuplicates(selectedBrands)
    }

    function CurrentCriteria(): (c: Criteria)
      reads this
    {
      Criteria(searchTerm, priceRange, selectedCategories, selectedBrands)
    }

    /** `filteredProducts`: matching catalogue products, in catalogue order. */
    function FilteredProducts(): (r: seq<Product>)
      reads this
      ensures |r| <= |catalogue|
      ensures forall i :: 0 <= i < |r| ==> Matches(r[i], CurrentCriteria())
      ensures IsSubsequence(r, catalogue)
    {
      FilterSubsequence(catalogue, CurrentCriteria());
      Filter(catalogue, CurrentCriteria())
    }

    constructor (catalogue: seq<Product>, query: Option<string>)
      ensures Valid()
      ensures this.catalogue == catalogue
      ensures searchTerm == "" && priceRange == PriceRange(0, MaxPrice(catalogue))
      ensures selectedCategories == InitialCategories(query) && selectedBrands == []
    {
      this.catalogue := catalogue;
      searchTerm := "";
      priceRange := PriceRange(0, MaxPrice(catalogue));
      selectedCategories := InitialCategories(query);
      selectedBrands := [];
    }

    /** The search box's `onChange`. */
    method SetSearchTerm(term: string)
      requires Valid()
      modifies this
      ensures Valid()
      ensures searchTerm == term && priceRange == old(priceRange)
      ensures selectedCategories == old(selectedCategories) && selectedBrands == old(selectedBrands)
    {
      searchTerm := term;
    }

    /** The slider's `onValueChange`. */
    method SetPriceRange(range: PriceRange)
      requires Valid()
      modifies this
      ensures Valid()
      ensures priceRange == range && searchTerm == old(searchTerm)
      ensures selectedCategories == old(selectedCategories) && selectedBrands == old(selectedBrands)
    {
      priceRange := range;
    }

    /** A category checkbox changed. */
    method HandleCategoryChange(category: string)
      requires Valid()
      modifies this
      ensures Valid()
      ensures selectedCategories == Toggle(old(selectedCategories), category)
      ensures searchTerm == old(searchTerm) && priceRange == old(priceRange)
      ensures selectedBrands == old(selectedBrands)
    {
      ToggleKeepsNoDuplicates(selectedCategories, category);
      selectedCategories := Toggle(selectedCategories, category);
    }

    /** A brand checkbox changed. */
    method HandleBrandChange(brand: string)
      requires Valid()
      modifies this
      ensures Valid()
      ensures selectedBrands == Toggle(old(selectedBrands), brand)
      ensures searchTerm == old(searchTerm) && priceRange == old(priceRange)
      ensures selectedCategories == old(selectedCategories)
    {
      ToggleKeepsNoDuplicates(selectedBrands, brand);
      selectedBrands := Toggle(selectedBrands, brand);
    }

    /** `clearFilters`: afterwards the whole catalogue is shown. */
    method ClearFilters()
      modifies this
      ensures Valid()
      ensures CurrentCriteria() == ClearedCriteria(catalogue)
      ensures FilteredProducts() == catalogue
    {
      searchTerm := "";
      priceRange := PriceRange(0, MaxPrice(catalogue));
      selectedCategories := [];
      selectedBrands := [];
      ClearedShowsEverything(catalogue);
    }
  }
}
