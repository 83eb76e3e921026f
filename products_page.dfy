/** The product listing page (src/pages/ProductsPage.tsx): reading the URL parameters,
    the list pipeline (source, price filter, sort) and the parameter update rules. */
module ProductsPage {
  import opened Wrappers
  import opened Types
  import opened Seqs
  import opened Dates
  import opened Catalog
  import opened ArraySort

  const DefaultSort := "featured"
  /** The upper end of the default price range: 2000 dollars, in cents. */
  const DefaultMaxPrice := 200000

  /** The three settings the page reads from its URL. */
  datatype ListingParams = ListingParams(category: string, query: string, sort: string)

  /** `params.get(key) || fallback`: an absent or empty parameter reads as the fallback. */
  function ParamOr(params: map<string, string>, key: string, fallback: string): string {
    if key in params && params[key] != "" then params[key] else fallback
  }

  /** The effect's parameter reading: missing values default to category `All`,
      query `''` and sort `featured`. */
  function ParseParams(params: map<string, string>): (r: ListingParams)
    ensures ("category" !in params || params["category"] == "") ==> r.category == AllCategory
    ensures "category" in params && params["category"] != "" ==> r.category == params["category"]
    ensures "q" in params ==> r.query == params["q"]
    ensures "q" !in params ==> r.query == ""
    ensures ("sort" !in params || params["sort"] == "") ==> r.sort == DefaultSort
    ensures "sort" in params && params["sort"] != "" ==> r.sort == params["sort"]
  {
    ListingParams(ParamOr(params, "category", AllCategory), ParamOr(params, "q", ""), ParamOr(params, "sort", DefaultSort))
  }

  /** The list the page starts from: the search results when there is a query,
      otherwise the category's products. */
  function ListingSource(ps: seq<Product>, category: string, query: string): (r: seq<Product>)
    ensures query != "" ==> r == SearchProducts(ps, query)
    ensures query == "" ==> r == GetProductsByCategory(ps, category)
    ensures IsSubsequence(r, ps)
  {
    if query != "" then SearchProducts(ps, query) else GetProductsByCategory(ps, category)
  }

  /** The price filter: exactly the products priced within `[lo, hi]`, both ends included. */
  function PriceFilter(s: seq<Product>, lo: int, hi: int): (r: seq<Product>)
    ensures forall p :: p in r <==> p in s && lo <= p.price <= hi
    ensures forall p :: multiset(r)[p] == if lo <= p.price <= hi then multiset(s)[p] else 0
    ensures IsSubsequence(r, s)
  {
    var keep := (p: Product) => lo <= p.price && p.price <= hi;
    FilterMultiset(s, keep);
    FilterSubsequence(s, keep);
    Filter(s, keep)
  }

  /** The sort options that reorder the list; any other value keeps catalog order. */
  predicate SortsBy(sort: string) {
    sort == "price-low" || sort == "price-high" || sort == "newest" || sort == "rating"
  }

  /** The comparator of each sort option, as a key sorted in ascending order. */
  function SortKey(sort: string, p: Product): int {
    match sort
    case "price-low" => p.price as int
    case "price-high" => -(p.price as int)
    case "newest" => -(DateKey(p.createdAt) as int)
    case "rating" => -(p.rating as int)
    case _ => 0
  }

  /** Ordering by ascending `SortKey` is the order each option promises. */
  lemma SortedByOption(r: seq<Product>, sort: string)
    requires SortedByKey(r, (p: Product) => SortKey(sort, p))
    ensures OrderedFor(r, sort)
  {
    forall i, j | 0 <= i < j < |r|
      ensures SortKey(sort, r[i]) <= SortKey(sort, r[j])
    {
      assert ((p: Product) => SortKey(sort, p))(r[i]) <= ((p: Product) => SortKey(sort, p))(r[j]);
    }
  }

  /** `r` is in the order the sort option promises (any order for an option that does
      not sort). */
  predicate OrderedFor(r: seq<Product>, sort: string) {
    (sort == "price-low" ==> forall i, j :: 0 <= i < j < |r| ==> r[i].price <= r[j].price) &&
    (sort == "price-high" ==> forall i, j :: 0 <= i < j < |r| ==> r[i].price >= r[j].price) &&
    (sort == "newest" ==> forall i, j :: 0 <= i < j < |r| ==> DateKey(r[i].createdAt) >= DateKey(r[j].createdAt)) &&
    (sort == "rating" ==> forall i, j :: 0 <= i < j < |r| ==> r[i].rating >= r[j].rating)
  }

  /** `r` is what the pipeline shows for these settings: the price-filtered source list,
      reordered by the sort option (or left in order). */
  ghost predicate ListedAs(r: seq<Product>, ps: seq<Product>, params: ListingParams, lo: int, hi: int) {
    var filtered := PriceFilter(ListingSource(ps, params.category, params.query), lo, hi);
    multiset(r) == multiset(filtered) && OrderedFor(r, params.sort) &&
    (!SortsBy(params.sort) ==> r == filtered)
  }

  /** A reordering of a list has the same members. */
  lemma SameMembers(r: seq<Product>, s: seq<Product>)
    requires multiset(r) == multiset(s)
    ensures forall p :: p in r <==> p in s
  {
    assert forall p :: p in r <==> p in multiset(r);
    assert forall p :: p in s <==> p in multiset(s);
  }

  /** The sort step: a copy of the filtered list, reordered in place by the option's
      comparator. */
  method SortedCopy(filtered: seq<Product>, sort: string) returns (r: seq<Product>)
    ensures multiset(r) == multiset(filtered) && OrderedFor(r, sort)
  {
    var a := new Product[|filtered|](i requires 0 <= i < |filtered| => filtered[i]);
    assert a[..] == filtered;
    SortInPlace(a, (p: Product) => SortKey(sort, p));
    r := a[..];
    SortedByOption(r, sort);
  }

  /** The effect's pipeline. The price filter builds a fresh array, and only that array
      is sorted, so the catalog keeps its order. */
  method FilterAndSort(ps: seq<Product>, params: ListingParams, lo: int, hi: int) returns (r: seq<Product>)
    ensures ListedAs(r, ps, params, lo, hi)
    ensures forall p :: p in r <==> p in ListingSource(ps, params.category, params.query) && lo <= p.price <= hi
  {
    var filtered := PriceFilter(ListingSource(ps, params.category, params.query), lo, hi);
    if SortsBy(params.sort) {
      r := SortedCopy(filtered, params.sort);
    } else {
      r := filtered;
    }
    SameMembers(r, filtered);
  }

  // ---------------------------------------------------------------------------
  // URL parameter updates

  /** What `updateFilters` does to one parameter. */
  datatype ParamEdit = Keep | Drop | Put(value: string)

  /** The filters `updateFilters` is called with; `None` is an omitted field. */
  datatype FilterUpdate = FilterUpdate(category: Option<string>, sort: Option<string>, query: Option<string>)

  function CategoryEdit(category: Option<string>): ParamEdit {
    if category.None? || category.value == "" then Keep
    else if category.value == AllCategory then Drop
    else Put(category.value)
  }

  function SortEdit(sort: Option<string>): ParamEdit {
    if sort.None? || sort.value == "" then Keep
    else if sort.value == DefaultSort then Drop
    else Put(sort.value)
  }

  function QueryEdit(query: Option<string>): ParamEdit {
    if query.None? then Keep
    else if query.value == "" then Drop
    else Put(query.value)
  }

  function ApplyEdit(params: map<string, string>, key: string, edit: ParamEdit): map<string, string> {
    match edit
    case Keep => params
    case Drop => params - {key}
    case Put(v) => params[key := v]
  }

  /** The parameters after `updateFilters`: category, sort and query edited in that order. */
  function UpdatedParams(params: map<string, string>, filters: FilterUpdate): map<string, string> {
    var p1 := ApplyEdit(params, "category", CategoryEdit(filters.category));
    var p2 := ApplyEdit(p1, "sort", SortEdit(filters.sort));
    ApplyEdit(p2, "q", QueryEdit(filters.query))
  }

  /** `updateFilters` on a copy of the current parameters: `All`, `featured` and an empty
      query delete their parameter, other values set it, and an omitted (or, for category
      and sort, empty) value leaves it alone. */
  method UpdateFilters(search: map<string, string>, filters: FilterUpdate) returns (params: map<string, string>)
    ensures params == UpdatedParams(search, filters)
  {
    params := search;
    if filters.category.Some? && filters.category.value != "" {
      if filters.category.value == AllCategory {
        params := params - {"category"};
      } else {
        params := params["category" := filters.category.value];
      }
    }
    if filters.sort.Some? && filters.sort.value != "" {
      if filters.sort.value == DefaultSort {
        params := params - {"sort"};
      } else {
        params := params["sort" := filters.sort.value];
      }
    }
    if filters.query.Some? {
      if filters.query.value != "" {
        params := params["q" := filters.query.value];
      } else {
        params := params - {"q"};
      }
    }
  }

  /** Reading the parameters back after an update gives the values just chosen, and the
      previous values for the settings the update left out; other parameters are untouched. */
  lemma UpdateThenParse(params: map<string, string>, filters: FilterUpdate)
    ensures var before := ParseParams(params);
      var after := ParseParams(UpdatedParams(params, filters));
      after.category == (if filters.category.Some? && filters.category.value != "" then filters.category.value else before.category) &&
      after.sort == (if filters.sort.Some? && filters.sort.value != "" then filters.sort.value else before.sort) &&
      after.query == (if filters.query.Some? then filters.query.value else before.query)
    ensures forall k :: k != "category" && k != "sort" && k != "q" ==>
      (k in UpdatedParams(params, filters) <==> k in params) &&
      (k in params ==> UpdatedParams(params, filters)[k] == params[k])
  {
    var p1 := ApplyEdit(params, "category", CategoryEdit(filters.category));
    var p2 := ApplyEdit(p1, "sort", SortEdit(filters.sort));
    EditLeavesOtherKeys(params, "category", CategoryEdit(filters.category), "sort");
    EditLeavesOtherKeys(params, "category", CategoryEdit(filters.category), "q");
    EditLeavesOtherKeys(p1, "sort", SortEdit(filters.sort), "q");
    EditLeavesOtherKeys(p1, "sort", SortEdit(filters.sort), "category");
    EditLeavesOtherKeys(p2, "q", QueryEdit(filters.query), "category");
    EditLeavesOtherKeys(p2, "q", QueryEdit(filters.query), "sort");
    forall k | k != "category" && k != "sort" && k != "q"
      ensures (k in UpdatedParams(params, filters) <==> k in params) &&
        (k in params ==> UpdatedParams(params, filters)[k] == params[k])
    {
      EditLeavesOtherKeys(params, "category", CategoryEdit(filters.category), k);
      EditLeavesOtherKeys(p1, "sort", SortEdit(filters.sort), k);
      EditLeavesOtherKeys(p2, "q", QueryEdit(filters.query), k);
    }
  }

  /** Editing one parameter leaves every other parameter as it was. */
  lemma EditLeavesOtherKeys(params: map<string, string>, key: string, edit: ParamEdit, k: string)
    requires k != key
    ensures (k in ApplyEdit(params, key, edit) <==> k in params) &&
      (k in params ==> ApplyEdit(params, key, edit)[k] == params[k])
  {
  }

  /** `clearFilters` navigates to the bare listing URL, which reads back as the defaults. */
  lemma ClearedUrlReadsAsDefaults()
    ensures ParseParams(map[]) == ListingParams(AllCategory, "", DefaultSort)
  {
  }

  /** The listing page's state. `location` holds the URL's query parameters. */
  class ProductsPageState {
    var location: map<string, string>
    var selectedCategory: string
    var priceRange: (int, int)
    var sortOption: string
    var searchQuery: string
    var filteredProducts: seq<Product>

    /** The effect has run for the current location and price range. */
    ghost predicate Shown(ps: seq<Product>)
      reads this
    {
      var params := ParseParams(location);
      selectedCategory == params.category && searchQuery == params.query && sortOption == params.sort &&
      ListedAs(filteredProducts, ps, params, priceRange.0, priceRange.1)
    }

    constructor (ps: seq<Product>, search: map<string, string>)
      ensures location == search && priceRange == (0, DefaultMaxPrice)
      ensures Shown(ps)
    {
      var params := ParseParams(search);
      var listed := FilterAndSort(ps, params, 0, DefaultMaxPrice);
      location := search;
      priceRange := (0, DefaultMaxPrice);
      selectedCategory := params.category;
      searchQuery := params.query;
      sortOption := params.sort;
      filteredProducts := listed;
    }

    /** The effect that runs when the location or the price range changes. */
    method Refresh(ps: seq<Product>)
      modifies this
      ensures location == old(location) && priceRange == old(priceRange)
      ensures Shown(ps)
    {
      var params := ParseParams(location);
      var listed := FilterAndSort(ps, params, priceRange.0, priceRange.1);
      selectedCategory, searchQuery, sortOption := params.category, params.query, params.sort;
      filteredProducts := listed;
    }

    method HandleCategoryChange(ps: seq<Product>, category: string)
      modifies this
      ensures location == UpdatedParams(old(location), FilterUpdate(Some(category), None, None))
      ensures priceRange == old(priceRange)
      ensures Shown(ps)
    {
      selectedCategory := category;
      location := UpdateFilters(location, FilterUpdate(Some(category), None, None));
      Refresh(ps);
    }

    method HandleSortChange(ps: seq<Product>, sort: string)
      modifies this
      ensures location == UpdatedParams(old(location), FilterUpdate(None, Some(sort), None))
      ensures priceRange == old(priceRange)
      ensures Shown(ps)
    {
      sortOption := sort;
      location := UpdateFilters(location, FilterUpdate(None, Some(sort), None));
      Refresh(ps);
    }

    method HandlePriceRangeChange(ps: seq<Product>, min: int, max: int)
      modifies this
      ensures location == old(location) && priceRange == (min, max)
      ensures Shown(ps)
    {
      priceRange := (min, max);
      Refresh(ps);
    }

    /** Typing into the search box only changes the pending query. */
    method HandleSearchInput(query: string)
      modifies this`searchQuery
      ensures searchQuery == query
    {
      searchQuery := query;
    }

    /** Submitting the search writes the pending query to the URL. */
    method HandleSearch(ps: seq<Product>)
      modifies this
      ensures location == UpdatedParams(old(location), FilterUpdate(None, None, Some(old(searchQuery))))
      ensures priceRange == old(priceRange)
      ensures Shown(ps)
    {
      location := UpdateFilters(location, FilterUpdate(None, None, Some(searchQuery)));
      Refresh(ps);
    }

    /** `clearFilters`: every setting back to its default and the URL back to `/products`. */
    method ClearFilters(ps: seq<Product>)
      modifies this
      ensures location == map[] && priceRange == (0, DefaultMaxPrice)
      ensures selectedCategory == AllCategory && sortOption == DefaultSort && searchQuery == ""
      ensures Shown(ps)
    {
      selectedCategory := AllCategory;
      priceRange := (0, DefaultMaxPrice);
      sortOption := DefaultSort;
      searchQuery := "";
      location := map[];
      Refresh(ps);
    }
  }
}
