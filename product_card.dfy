/** The catalog card (src/components/products/ProductCard.tsx): its add button, its
    favorite toggle, its star row and its link. Favorites are kept by a store that is not
    part of this model, so the toggle is modelled as the call it makes. */
module ProductCardView {
  import opened Wrappers
  import opened Types
  import opened CartContext

  const StarCount := 5
  const ProductPathPrefix := "/product/"

  /** `handleAddToCart`: always one of this product. */
  function AddToCartRequest(p: Product): CartAction {
    Add(p, 1)
  }

  /** The card's add button puts this product in the cart and raises the item count
      by exactly one. */
  lemma AddButtonAddsOne(state: Cart, p: Product)
    requires UniqueIds(state.items)
    ensures var r := CartReducer(state, AddToCartRequest(p));
      InCart(r.items, p.id) && r.totalItems == TotalItems(state.items) + 1
  {
    AddTotals(state, p, 1);
    var r := CartReducer(state, Add(p, 1));
    if InCart(state.items, p.id) {
      var k :| 0 <= k < |state.items| && state.items[k].product.id == p.id;
      assert r.items[k].product.id == p.id;
    } else {
      assert r.items[|state.items|].product.id == p.id;
    }
  }

  /** The favorites-store call a toggle makes. */
  datatype FavoriteCall = RemoveFromFavorites(productId: string) | AddToFavorites(product: Product)

  /** `handleToggleFavorite`: remove this product's id when it is a favorite, otherwise
      add the product; exactly one call either way. */
  function ToggleFavorite(p: Product, isFavorite: string -> bool): (c: FavoriteCall)
    ensures c.RemoveFromFavorites? <==> isFavorite(p.id)
    ensures c.RemoveFromFavorites? ==> c.productId == p.id
    ensures c.AddToFavorites? ==> c.product == p
  {
    if isFavorite(p.id) then RemoveFromFavorites(p.id) else AddToFavorites(p)
  }

  /** The star row: star i is filled when i is below the whole part of the rating.
      Ratings are tenths of a star, so the whole part is `rating / 10`. */
  function Stars(rating: nat): (s: seq<bool>)
    ensures |s| == StarCount
  {
    seq(StarCount, i requires 0 <= i < StarCount => i < rating / 10)
  }

  function CountFilled(s: seq<bool>): nat {
    if |s| == 0 then 0 else CountFilled(s[..|s| - 1]) + (if s[|s| - 1] then 1 else 0)
  }

  /** Of n stars with the first `whole` filled, min(n, whole) are filled. */
  lemma {:induction false} CountFilledPrefix(n: nat, whole: nat)
    ensures CountFilled(seq(n, i requires 0 <= i < n => i < whole)) == Min(n, whole)
    decreases n
  {
    if n > 0 {
      var s := seq(n, i requires 0 <= i < n => i < whole);
      assert s[..n - 1] == seq(n - 1, i requires 0 <= i < n - 1 => i < whole);
      CountFilledPrefix(n - 1, whole);
    }
  }

  /** The card shows min(5, whole part of the rating) filled stars. */
  lemma FilledStarCount(rating: nat)
    ensures CountFilled(Stars(rating)) == Min(StarCount, rating / 10)
  {
    CountFilledPrefix(StarCount, rating / 10);
  }

  /** The card's link: `/product/` and the id. */
  function ProductLink(id: string): (path: string)
    ensures ProductPathPrefix <= path && |path| == |ProductPathPrefix| + |id|
    ensures path[|ProductPathPrefix|..] == id
  {
    ProductPathPrefix + id
  }

  /** The `:id` the `/product/:id` route reads from a path, when the path has that form. */
  function RouteId(path: string): Option<string> {
    if ProductPathPrefix <= path then Some(path[|ProductPathPrefix|..]) else None
  }

  /** The product page opened from a card reads back the card's product id, so different
      products link to different pages. */
  lemma LinkRoundTrip(id: string)
    ensures RouteId(ProductLink(id)) == Some(id)
  {
    assert (ProductPathPrefix + id)[|ProductPathPrefix|..] == id;
  }

  lemma LinkInjective(a: string, b: string)
    requires ProductLink(a) == ProductLink(b)
    ensures a == b
  {
    LinkRoundTrip(a);
    LinkRoundTrip(b);
  }
}
