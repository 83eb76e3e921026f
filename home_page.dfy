/** The home page (src/pages/HomePage.tsx): its featured products, new arrivals and
    category tiles. */
module HomePageView {
  import opened Wrappers
  import opened Types
  import opened Seqs
  import opened Dates
  import opened Catalog
  import opened ArraySort
  import opened ProductsPage

  const ShowcaseSize := 4

  /** The first four catalog products, in catalog order. */
  function Featured(ps: seq<Product>): (r: seq<Product>)
    ensures r == ps[..Min(ShowcaseSize, |ps|)]
  {
    Take(ps, ShowcaseSize)
  }

  /** The newest-first key the new-arrivals sort orders by. */
  function NewestFirst(p: Product): int {
    -(DateKey(p.createdAt) as int)
  }

  /** In a list sorted newest first, the first n entries are newest first and none of
      the entries after them is newer than any of them. */
  lemma NewestPrefix(sorted: seq<Product>, n: nat)
    requires SortedByKey(sorted, NewestFirst) && n <= |sorted|
    ensures forall i, j :: 0 <= i < j < n ==> DateKey(sorted[i].createdAt) >= DateKey(sorted[j].createdAt)
    ensures multiset(sorted[..n]) <= multiset(sorted)
    ensures forall i, q: Product :: 0 <= i < n && q in multiset(sorted) - multiset(sorted[..n]) ==>
      DateKey(sorted[i].createdAt) >= DateKey(q.createdAt)
  {
    assert sorted == sorted[..n] + sorted[n..];
    assert multiset(sorted) - multiset(sorted[..n]) == multiset(sorted[n..]);
    forall i, j | 0 <= i < j < n
      ensures DateKey(sorted[i].createdAt) >= DateKey(sorted[j].createdAt)
    {
      assert NewestFirst(sorted[i]) <= NewestFirst(sorted[j]);
    }
    forall i, q: Product | 0 <= i < n && q in multiset(sorted[n..])
      ensures DateKey(sorted[i].createdAt) >= DateKey(q.createdAt)
    {
      assert q in sorted[n..];
      var m :| 0 <= m < |sorted[n..]| && sorted[n..][m] == q;
      assert sorted[n + m] == q;
      assert NewestFirst(sorted[i]) <= NewestFirst(sorted[n + m]);
    }
  }

  /** New arrivals: a copy of the catalog sorted newest first, cut to four. The shown
      products are newest first and no product left out is newer than any shown. */
  method NewArrivals(ps: seq<Product>) returns (r: seq<Product>)
    ensures |r| == Min(ShowcaseSize, |ps|)
    ensures forall i, j :: 0 <= i < j < |r| ==> DateKey(r[i].createdAt) >= DateKey(r[j].createdAt)
    ensures multiset(r) <= multiset(ps)
    ensures forall i, q: Product :: 0 <= i < |r| && q in multiset(ps) - multiset(r) ==> DateKey(r[i].createdAt) >= DateKey(q.createdAt)
  {
    var a := new Product[|ps|](i requires 0 <= i < |ps| => ps[i]);
    assert a[..] == ps;
    SortInPlace(a, NewestFirst);
    var sorted := a[..];
    var n := Min(ShowcaseSize, |ps|);
    NewestPrefix(sorted, n);
    r := Take(sorted, ShowcaseSize);
    assert r == sorted[..n];
  }

  /** The category tiles: every category but `All`, in order. */
  function CategoryTiles(categories: seq<string>): (r: seq<string>)
    ensures forall c :: c in r <==> c in categories && c != AllCategory
    ensures forall c :: multiset(r)[c] == if c != AllCategory then multiset(categories)[c] else 0
    ensures IsSubsequence(r, categories)
  {
    FilterMultiset(categories, (c: string) => c != AllCategory);
    FilterSubsequence(categories, (c: string) => c != AllCategory);
    Filter(categories, (c: string) => c != AllCategory)
  }

  /** The listing URL a tile opens: `/products?category=<c>`. */
  function TileParams(category: string): map<string, string> {
    map["category" := category]
  }

  /** A tile opens the listing on exactly its category, with no query and the default sort. */
  lemma TileOpensItsCategory(category: string)
    requires category != ""
    ensures ParseParams(TileParams(category)) == ListingParams(category, "", DefaultSort)
  {
  }

  /** The seed's tiles are its categories after `All`, in order. */
  lemma SeedTiles()
    ensures CategoryTiles(Categories) == Categories[1..]
  {
    CategoriesWellFormed();
    var keep := (c: string) => c != AllCategory;
    assert Categories == [Categories[0]] + Categories[1..];
    FilterConcat([Categories[0]], Categories[1..], keep);
    FilterKeepsAll(Categories[1..], keep);
    assert Filter([Categories[0]], keep) == [];
  }
}
