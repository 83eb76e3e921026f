/** The product page (src/pages/ProductDetailPage.tsx): loading a product by id, its
    related products, the quantity picker's bound and adding to the cart. */
module ProductDetailPageView {
  import opened Wrappers
  import opened Types
  import opened Seqs
  import opened Catalog
  import opened CartContext

  /** The picker's bound when there is no product or its stock is 0. */
  const FallbackBound := 10
  const RelatedLimit := 4

  /** `product?.stock || 10`: the stock, unless there is no product or the stock is 0
      (which `||` reads as false). */
  function QuantityBound(product: Option<Product>): (r: nat)
    ensures r >= 1
    ensures product.Some? && product.value.stock > 0 ==> r == product.value.stock
    ensures product.None? || product.value.stock == 0 ==> r == FallbackBound
  {
    if product.Some? && product.value.stock != 0 then product.value.stock else FallbackBound
  }

  /** The quantities `handleQuantityChange` accepts. */
  predicate AcceptsQuantity(product: Option<Product>, n: int) {
    1 <= n <= QuantityBound(product)
  }

  /** A product the page may list beside `p`: another product of `p`'s category, or any
      other product when `p`'s category is the sentinel. */
  predicate IsRelated(p: Product, q: Product) {
    (p.category == AllCategory || q.category == p.category) && q.id != p.id
  }

  /** The related list: the first four related products, in catalog order. */
  function RelatedProducts(ps: seq<Product>, p: Product): (r: seq<Product>)
    ensures r == Take(Filter(ps, (q: Product) => IsRelated(p, q)), RelatedLimit)
    ensures |r| <= RelatedLimit
    ensures forall q :: q in r ==> q in ps && q.id != p.id
    ensures p.category != AllCategory ==> forall q :: q in r ==> q.category == p.category
    ensures IsSubsequence(r, ps)
  {
    var others := Filter(GetProductsByCategory(ps, p.category), (q: Product) => q.id != p.id);
    FilterSubsequence(GetProductsByCategory(ps, p.category), (q: Product) => q.id != p.id);
    RelatedCandidates(ps, p);
    var r := Take(others, RelatedLimit);
    PrefixIsSubsequence(r, others);
    SubsequenceTransitive(r, others, GetProductsByCategory(ps, p.category));
    SubsequenceTransitive(r, GetProductsByCategory(ps, p.category), ps);
    assert forall q :: q in r ==> q in others by {
      forall q | q in r
        ensures q in others
      {
        var m :| 0 <= m < |r| && r[m] == q;
        assert others[m] == q;
      }
    }
    r
  }

  /** The category's products other than `p` are the catalog's products related to `p`. */
  lemma RelatedCandidates(ps: seq<Product>, p: Product)
    ensures Filter(GetProductsByCategory(ps, p.category), (q: Product) => q.id != p.id) ==
      Filter(ps, (q: Product) => IsRelated(p, q))
  {
    var notP := (q: Product) => q.id != p.id;
    var related := (q: Product) => IsRelated(p, q);
    if p.category == AllCategory {
      FilterSamePredicate(ps, notP, related);
    } else {
      var sameCategory := (q: Product) => q.category == p.category;
      assert GetProductsByCategory(ps, p.category) == Filter(ps, sameCategory);
      FilterFilter(ps, sameCategory, notP, related);
    }
  }

  /** The related list holds min(4, k) products, k being the number of related products in
      the catalog, and they are all the related products of some leading part of the
      catalog: no related product is skipped before the list stops. */
  lemma RelatedAreFirstFound(ps: seq<Product>, p: Product)
    ensures var all := Filter(ps, (q: Product) => IsRelated(p, q));
      |RelatedProducts(ps, p)| == Min(RelatedLimit, |all|)
    ensures exists n :: 0 <= n <= |ps| && RelatedProducts(ps, p) == Filter(ps[..n], (q: Product) => IsRelated(p, q))
  {
    var related := (q: Product) => IsRelated(p, q);
    var all := Filter(ps, related);
    var m := Min(RelatedLimit, |all|);
    FilterPrefix(ps, related, m);
    assert RelatedProducts(ps, p) == all[..m];
  }

  /** The page's state. The loading spinner and the active tab are presentation. */
  class ProductDetailPage {
    var product: Option<Product>
    var selectedImage: string
    var quantity: int
    var relatedProducts: seq<Product>

    ghost predicate Valid()
      reads this
    {
      quantity >= 1
    }

    constructor ()
      ensures Valid()
      ensures product == None && selectedImage == "" && quantity == 1 && relatedProducts == []
    {
      product := None;
      selectedImage := "";
      quantity := 1;
      relatedProducts := [];
    }

    /** The effect for the route's id: nothing without an id; otherwise the product with
      that id, and when there is one, its first image and its related products. A missing
      product keeps the previous image and related list. The quantity is never reset. */
    method Load(ps: seq<Product>, id: string)
      modifies this
      ensures quantity == old(quantity)
      ensures id == "" ==> product == old(product) && selectedImage == old(selectedImage) && relatedProducts == old(relatedProducts)
      ensures id != "" ==> product == GetProductById(ps, id)
      ensures id != "" && product.Some? ==>
        (selectedImage == if |product.value.images| > 0 then product.value.images[0] else "") &&
        relatedProducts == RelatedProducts(ps, product.value)
      ensures id != "" && product.None? ==> selectedImage == old(selectedImage) && relatedProducts == old(relatedProducts)
    {
      if id != "" {
        var fetched := GetProductById(ps, id);
        product := fetched;
        if fetched.Some? {
          selectedImage := if |fetched.value.images| > 0 then fetched.value.images[0] else "";
          relatedProducts := RelatedProducts(ps, fetched.value);
        }
      }
    }

    /** `handleQuantityChange`: take the new quantity when it lies in [1, bound]. */
    method HandleQuantityChange(n: int)
      requires Valid()
      modifies this`quantity
      ensures Valid()
      ensures quantity == if AcceptsQuantity(product, n) then n else old(quantity)
    {
      if n >= 1 && n <= QuantityBound(product) {
        quantity := n;
      }
    }

    /** `handleAddToCart`: add the chosen quantity of the loaded product, if any. */
    method HandleAddToCart(store: CartProvider)
      requires Valid() && store.Valid()
      modifies store
      ensures store.Valid()
      ensures product.Some? ==>
        store.cart == CartReducer(old(store.cart), Add(product.value, quantity)) && store.storage == Parsed(store.cart)
      ensures product.None? ==> store.cart == old(store.cart) && store.storage == old(store.storage)
      ensures product.Some? ==> store.cart.totalItems == old(store.cart.totalItems) + quantity
    {
      if product.Some? {
        store.AddToCart(product.value, quantity);
      }
    }
  }

  /** The quantity is not reset when another product loads, so it can exceed the new
      product's stock: after choosing 5 of a product with stock 10 and opening one with
      stock 3, the page holds a quantity of 5. */
  method QuantityOutlivesProduct(a: Product, b: Product) returns (page: ProductDetailPage)
    requires a.id != "" && b.id != "" && a.id != b.id && a.stock == 10 && b.stock == 3
    ensures page.product == Some(b) && page.quantity == 5 && page.quantity > QuantityBound(page.product)
  {
    GetProductByIdFindsEach([a, b], 0);
    GetProductByIdFindsEach([a, b], 1);
    page := new ProductDetailPage();
    page.Load([a, b], a.id);
    page.HandleQuantityChange(5);
    page.Load([a, b], b.id);
  }
}
