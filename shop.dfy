/** The shop page (Shop.tsx): its filter criteria, the filtered and sorted grid, and the series list. */
module Shop {
  import opened Wrappers
  import opened Seqs
  import opened Text
  import opened Types
  import opened Catalog

  datatype SortOrder = Featured | PriceLowToHigh | PriceHighToLow {
    /** The three options of the sort menu (Shop.tsx:145). */
    function Name(): string {
      match this
      case Featured => "Featured"
      case PriceLowToHigh => "Price: Low to High"
      case PriceHighToLow => "Price: High to Low"
    }
  }

  /**
   * The criteria state. The category is text: the URL parameter is cast to
   * a category without being checked.
   */
  datatype Criteria = Criteria(category: string, series: string, query: string, sortBy: SortOrder)

  const Defaults: Criteria := Criteria("All", "All", "", Featured)

  /** The category buttons (Shop.tsx:60-66). */
  const CategoryButtons: seq<Category> := [AllCategories, FiguresOnly, ApparelOnly, AccessoriesOnly, CollectiblesOnly]

  predicate Matches(p: Product, c: Criteria) {
    (c.category == "All" || p.category.Name() == c.category) &&
    (c.series == "All" || p.series == c.series) &&
    MatchesSearch(p, c.query)
  }

  function MatchesFor(c: Criteria): Product -> bool {
    (p: Product) => Matches(p, c)
  }

  /** The products passing all three tests, in catalogue order. */
  function Matching(ps: seq<Product>, c: Criteria): (r: seq<Product>)
    ensures IsSubseq(r, ps)
    ensures forall i :: 0 <= i < |r| ==> r[i] in ps && Matches(r[i], c)
    ensures forall i :: 0 <= i < |ps| && Matches(ps[i], c) ==> ps[i] in r
  {
    FilterIsSubseq(ps, MatchesFor(c));
    Filter(ps, MatchesFor(c))
  }

  /** `filteredProducts` (Shop.tsx:40-52). */
  function FilteredProducts(ps: seq<Product>, c: Criteria): (r: seq<Product>)
    ensures multiset(r) == multiset(Matching(ps, c))
    ensures forall i :: 0 <= i < |r| ==> r[i] in ps && Matches(r[i], c)
    ensures forall i :: 0 <= i < |ps| && Matches(ps[i], c) ==> ps[i] in r
    ensures c.sortBy == Featured ==> r == Matching(ps, c)
    ensures c.sortBy == PriceLowToHigh ==> forall i, j :: 0 <= i < j < |r| ==> r[i].price <= r[j].price
    ensures c.sortBy == PriceHighToLow ==> forall i, j :: 0 <= i < j < |r| ==> r[i].price >= r[j].price
  {
    var m := Matching(ps, c);
    match c.sortBy
    case Featured => m
    case PriceLowToHigh =>
      var r := SortByKey(m, PriceKey);
      SortByKeySorted(m, PriceKey);
      SameMembers(r, m);
      r
    case PriceHighToLow =>
      var r := SortByKey(m, NegatedPriceKey);
      SortByKeySorted(m, NegatedPriceKey);
      SameMembers(r, m);
      r
  }

  /** Under the Low-to-High order, products of equal price keep their catalogue order. */
  lemma PriceOrderStable(ps: seq<Product>, c: Criteria, price: int)
    requires c.sortBy == PriceLowToHigh
    ensures Filter(FilteredProducts(ps, c), KeyIs(PriceKey, price)) == Filter(Matching(ps, c), KeyIs(PriceKey, price))
  {
    SortByKeyStable(Matching(ps, c), PriceKey, price);
  }

  /**
   * Under the High-to-Low order, products of equal price keep their catalogue
   * order too. The sort key is the negated price, so `k` stands for the
   * price `-k`.
   */
  lemma {:induction false} PriceOrderStableDescending(ps: seq<Product>, c: Criteria, k: int)
    requires c.sortBy == PriceHighToLow
    ensures Filter(FilteredProducts(ps, c), KeyIs(NegatedPriceKey, k)) == Filter(Matching(ps, c), KeyIs(NegatedPriceKey, k))
  {
    DescendingGrid(ps, c);
    SortByKeyStable(Matching(ps, c), NegatedPriceKey, k);
  }

  lemma DescendingGrid(ps: seq<Product>, c: Criteria)
    requires c.sortBy == PriceHighToLow
    ensures FilteredProducts(ps, c) == SortByKey(Matching(ps, c), NegatedPriceKey)
  {
  }

  /** With the default criteria the whole catalogue shows, in catalogue order. */
  lemma DefaultsShowAll(ps: seq<Product>)
    ensures FilteredProducts(ps, Defaults) == ps
  {
    forall i | 0 <= i < |ps| ensures Matches(ps[i], Defaults) {
      EmptyQueryMatchesAll(ps[i]);
    }
    FilterKeepsAll(ps, MatchesFor(Defaults));
  }

  /** A category no product carries, such as one typed into the URL, leaves the grid empty. */
  lemma UnknownCategoryShowsNothing(ps: seq<Product>, c: Criteria)
    requires c.category != "All"
    requires forall i :: 0 <= i < |ps| ==> ps[i].category.Name() != c.category
    ensures FilteredProducts(ps, c) == []
  {
  }

  /** A product filed as `Figure` or `Collection` is reachable through the `All` button only. */
  lemma StraySpellingsOnlyUnderAll(p: Product, b: Category, c: Criteria)
    requires p.category == Figure || p.category == Collection
    requires c.category == b.Name() && Matches(p, c)
    ensures b == AllCategories
  {
  }

  /** `allSeries` (Shop.tsx:24-27): `All`, then every series once, sorted. */
  function AllSeries(ps: seq<Product>): (r: seq<string>)
    ensures |r| >= 1 && r[0] == "All"
    ensures StrictlySorted(r[1..])
    ensures forall s :: s in r[1..] <==> exists i :: 0 <= i < |ps| && ps[i].series == s
  {
    var r := ["All"] + SortedSeries(ps);
    assert r[1..] == SortedSeries(ps);
    r
  }

  class ShopPage {
    var activeCategory: string
    var activeSeries: string
    var searchQuery: string
    var sortBy: SortOrder

    function CurrentCriteria(): Criteria
      reads this
    {
      Criteria(activeCategory, activeSeries, searchQuery, sortBy)
    }

    /** The page as it mounts (Shop.tsx:18-21). */
    constructor ()
      ensures CurrentCriteria() == Defaults
    {
      activeCategory, activeSeries, searchQuery, sortBy := "All", "All", "", Featured;
    }

    /**
     * The URL effect (Shop.tsx:29-38): each parameter that is present and
     * non-empty overwrites its criterion; the category is taken as is.
     */
    method ApplyUrlParams(q: Option<string>, cat: Option<string>, ser: Option<string>)
      modifies this
      ensures searchQuery == if q.Some? && q.value != "" then q.value else old(searchQuery)
      ensures activeCategory == if cat.Some? && cat.value != "" then cat.value else old(activeCategory)
      ensures activeSeries == if ser.Some? && ser.value != "" then ser.value else old(activeSeries)
      ensures sortBy == old(sortBy)
    {
      if q.Some? && q.value != "" { searchQuery := q.value; }
      if cat.Some? && cat.value != "" { activeCategory := cat.value; }
      if ser.Some? && ser.value != "" { activeSeries := ser.value; }
    }

    /** A category button (Shop.tsx:83). */
    method SelectCategory(b: Category)
      modifies this
      ensures CurrentCriteria() == old(CurrentCriteria()).(category := b.Name())
    {
      activeCategory := b.Name();
    }

    /** A series button (Shop.tsx:102). */
    method SelectSeries(s: string)
      modifies this
      ensures CurrentCriteria() == old(CurrentCriteria()).(series := s)
    {
      activeSeries := s;
    }

    /** A sort option (Shop.tsx:148). */
    method SelectSort(o: SortOrder)
      modifies this
      ensures CurrentCriteria() == old(CurrentCriteria()).(sortBy := o)
    {
      sortBy := o;
    }

    /** `clearFilters` (Shop.tsx:54-58): the sort order survives. */
    method ClearFilters()
      modifies this
      ensures CurrentCriteria() == Defaults.(sortBy := old(sortBy))
    {
      activeCategory, activeSeries, searchQuery := "All", "All", "";
    }

    /** The grid for the current criteria. */
    method Results(ps: seq<Product>) returns (r: seq<Product>)
      ensures r == FilteredProducts(ps, CurrentCriteria())
      ensures forall i :: 0 <= i < |r| ==> r[i] in ps && Matches(r[i], CurrentCriteria())
      ensures forall i :: 0 <= i < |ps| && Matches(ps[i], CurrentCriteria()) ==> ps[i] in r
      ensures multiset(r) == multiset(Matching(ps, CurrentCriteria()))
      ensures sortBy == Featured ==> IsSubseq(r, ps)
      ensures sortBy == PriceLowToHigh ==> forall i, j :: 0 <= i < j < |r| ==> r[i].price <= r[j].price
      ensures sortBy == PriceHighToLow ==> forall i, j :: 0 <= i < j < |r| ==> r[i].price >= r[j].price
    {
      r := FilteredProducts(ps, CurrentCriteria());
    }
  }

  /**
   * After clearing the filters the grid holds the whole catalogue again,
   * whatever the earlier criteria: in catalogue order under the default
   * sort, rearranged by price under a price sort.
   */
  lemma ClearedGridShowsAll(ps: seq<Product>, c: Criteria)
    ensures var cleared := c.(category := "All", series := "All", query := "");
      multiset(FilteredProducts(ps, cleared)) == multiset(ps) &&
      (c.sortBy == Featured ==> FilteredProducts(ps, cleared) == ps)
  {
    var cleared := c.(category := "All", series := "All", query := "");
    forall i | 0 <= i < |ps| ensures Matches(ps[i], cleared) {
      EmptyQueryMatchesAll(ps[i]);
    }
    FilterKeepsAll(ps, MatchesFor(cleared));
  }
}
