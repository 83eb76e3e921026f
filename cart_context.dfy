/** The cart store (src/contexts/CartContext.tsx): a reducer over tagged actions that
    recomputes both totals from the lines after every change, and a provider that
    restores a saved cart by replaying one add per saved line. */
module CartContext {
  import opened Wrappers
  import opened Types
  import opened Seqs

  /** The reducer's actions: ADD_TO_CART, REMOVE_FROM_CART, UPDATE_QUANTITY and CLEAR_CART.
      `Unknown` stands for an action with any other tag, which the `default` branch answers. */
  datatype CartAction =
    | Add(product: Product, quantity: int)
    | Remove(productId: string)
    | Update(productId: string, quantity: int)
    | Clear
    | Unknown

  const InitialCart: Cart := Cart([], 0, 0)

  /** The amount one line contributes: unit price times quantity. */
  function LineAmount(item: CartItem): int {
    item.product.price * item.quantity
  }

  /** `items.reduce((total, item) => total + item.quantity, 0)`. */
  function TotalItems(items: seq<CartItem>): int {
    if |items| == 0 then 0 else TotalItems(items[..|items| - 1]) + items[|items| - 1].quantity
  }

  /** `items.reduce((total, item) => total + item.product.price * item.quantity, 0)`. */
  function Subtotal(items: seq<CartItem>): int {
    if |items| == 0 then 0 else Subtotal(items[..|items| - 1]) + LineAmount(items[|items| - 1])
  }

  /** The two stored totals agree with the lines. */
  predicate TotalsMatch(c: Cart) {
    c.totalItems == TotalItems(c.items) && c.subtotal == Subtotal(c.items)
  }

  /** A cart of these lines with `calculateCartTotals` applied. */
  function WithTotals(items: seq<CartItem>): (c: Cart)
    ensures c.items == items && TotalsMatch(c)
  {
    Cart(items, TotalItems(items), Subtotal(items))
  }

  /** Some line is for the product with this id. */
  predicate InCart(items: seq<CartItem>, id: string) {
    exists i :: 0 <= i < |items| && items[i].product.id == id
  }

  /** At most one line per product id. */
  predicate UniqueIds(items: seq<CartItem>) {
    forall i, j :: 0 <= i < j < |items| ==> items[i].product.id != items[j].product.id
  }

  /** The `map` of ADD_TO_CART: every line for `id` gets `q` more. */
  function IncreaseQuantity(items: seq<CartItem>, id: string, q: int): seq<CartItem> {
    seq(|items|, i requires 0 <= i < |items| =>
      if items[i].product.id == id then items[i].(quantity := items[i].quantity + q) else items[i])
  }

  /** The `map` of UPDATE_QUANTITY: every line for `id` gets quantity `q`. */
  function ReplaceQuantity(items: seq<CartItem>, id: string, q: int): seq<CartItem> {
    seq(|items|, i requires 0 <= i < |items| =>
      if items[i].product.id == id then items[i].(quantity := q) else items[i])
  }

  /** The `filter` of REMOVE_FROM_CART: the lines not for `id`. */
  function WithoutProduct(items: seq<CartItem>, id: string): seq<CartItem> {
    Filter(items, (item: CartItem) => item.product.id != id)
  }

  /** `cartReducer`. Every recognised action leaves totals that agree with the lines;
      CLEAR_CART gives the initial cart and an unrecognised action changes nothing. */
  function CartReducer(state: Cart, action: CartAction): (r: Cart)
    ensures !action.Unknown? ==> TotalsMatch(r)
    ensures action.Clear? ==> r == Cart([], 0, 0)
    ensures action.Unknown? ==> r == state
  {
    match action
    case Add(product, quantity) =>
      var updatedItems :=
        if InCart(state.items, product.id) then IncreaseQuantity(state.items, product.id, quantity)
        else state.items + [CartItem(product, quantity)];
      WithTotals(updatedItems)
    case Remove(productId) =>
      WithTotals(WithoutProduct(state.items, productId))
    case Update(productId, quantity) =>
      if quantity <= 0 then WithTotals(WithoutProduct(state.items, productId))
      else WithTotals(ReplaceQuantity(state.items, productId, quantity))
    case Clear => InitialCart
    case Unknown => state
  }

  // ---------------------------------------------------------------------------
  // Facts about the line helpers

  lemma UniqueIdsSlice(items: seq<CartItem>, lo: nat, hi: nat)
    requires UniqueIds(items) && lo <= hi <= |items|
    ensures UniqueIds(items[lo..hi])
  {
    forall i, j | 0 <= i < j < hi - lo
      ensures items[lo..hi][i].product.id != items[lo..hi][j].product.id
    {
      assert items[lo..hi][i] == items[lo + i] && items[lo..hi][j] == items[lo + j];
    }
  }

  lemma {:induction false} TotalsConcat(a: seq<CartItem>, b: seq<CartItem>)
    ensures TotalItems(a + b) == TotalItems(a) + TotalItems(b)
    ensures Subtotal(a + b) == Subtotal(a) + Subtotal(b)
    decreases |b|
  {
    if |b| == 0 {
      assert a + b == a;
    } else {
      var n := |b|;
      assert (a + b)[..|a + b| - 1] == a + b[..n - 1];
      TotalsConcat(a, b[..n - 1]);
    }
  }

  lemma {:induction false} IncreaseQuantityTotals(items: seq<CartItem>, id: string, q: int, k: nat)
    requires UniqueIds(items) && k < |items| && items[k].product.id == id
    ensures TotalItems(IncreaseQuantity(items, id, q)) == TotalItems(items) + q
    ensures Subtotal(IncreaseQuantity(items, id, q)) == Subtotal(items) + items[k].product.price * q
    decreases |items|
  {
    var n := |items|;
    var front := items[..n - 1];
    var r := IncreaseQuantity(items, id, q);
    assert r[..n - 1] == IncreaseQuantity(front, id, q);
    UniqueIdsSlice(items, 0, n - 1);
    var last := items[n - 1];
    if k == n - 1 {
      assert IncreaseQuantity(front, id, q) == front;
      assert r[n - 1] == last.(quantity := last.quantity + q);
      assert LineAmount(r[n - 1]) == LineAmount(last) + last.product.price * q;
    } else {
      assert front[k] == items[k];
      IncreaseQuantityTotals(front, id, q, k);
      assert r[n - 1] == last;
    }
  }

  /** One step of the REMOVE_FROM_CART filter. */
  lemma WithoutProductCons(items: seq<CartItem>, id: string)
    requires |items| > 0
    ensures WithoutProduct(items, id) ==
      if items[0].product.id != id then [items[0]] + WithoutProduct(items[1..], id) else WithoutProduct(items[1..], id)
  {
  }

  /** Removing an id no line has changes nothing. */
  lemma WithoutAbsent(items: seq<CartItem>, id: string)
    requires forall x :: x in items ==> x.product.id != id
    ensures WithoutProduct(items, id) == items
  {
    FilterKeepsAll(items, (item: CartItem) => item.product.id != id);
  }

  /** In a list with one line per id, no later line shares the first line's id. */
  lemma HeadIdIsFresh(items: seq<CartItem>)
    requires UniqueIds(items) && |items| > 0
    ensures forall x :: x in items[1..] ==> x.product.id != items[0].product.id
  {
    forall x | x in items[1..]
      ensures x.product.id != items[0].product.id
    {
      var m :| 0 <= m < |items[1..]| && items[1..][m] == x;
      assert items[m + 1] == x;
    }
  }

  /** A line whose id no line of `rest` has can be put in front of it. */
  lemma ConsKeepsUnique(x: CartItem, rest: seq<CartItem>)
    requires UniqueIds(rest) && forall y :: y in rest ==> y.product.id != x.product.id
    ensures UniqueIds([x] + rest)
  {
    var r := [x] + rest;
    forall i, j | 0 <= i < j < |r|
      ensures r[i].product.id != r[j].product.id
    {
      assert r[j] == rest[j - 1];
      if i > 0 {
        assert r[i] == rest[i - 1];
      }
    }
  }

  lemma {:induction false} WithoutProductKeepsUnique(items: seq<CartItem>, id: string)
    requires UniqueIds(items)
    ensures UniqueIds(WithoutProduct(items, id))
    decreases |items|
  {
    if |items| > 0 {
      var tail := items[1..];
      var rest := WithoutProduct(tail, id);
      UniqueIdsSlice(items, 1, |items|);
      WithoutProductKeepsUnique(tail, id);
      WithoutProductCons(items, id);
      if items[0].product.id != id {
        HeadIdIsFresh(items);
        assert forall y :: y in rest ==> y in tail;
        ConsKeepsUnique(items[0], rest);
      }
    }
  }

  /** Dropping element k > 0 is keeping the head and dropping element k - 1 of the tail. */
  lemma DropAtTail(items: seq<CartItem>, k: nat)
    requires 0 < k < |items|
    ensures items[..k] + items[k + 1..] == [items[0]] + (items[1..][..k - 1] + items[1..][k..])
  {
  }

  /** With one line per id, removing the id of line k leaves the other lines in order. */
  lemma {:induction false} WithoutProductAt(items: seq<CartItem>, id: string, k: nat)
    requires UniqueIds(items) && k < |items| && items[k].product.id == id
    ensures WithoutProduct(items, id) == items[..k] + items[k + 1..]
    decreases |items|
  {
    var tail := items[1..];
    assert items == [items[0]] + tail;
    UniqueIdsSlice(items, 1, |items|);
    if k == 0 {
      HeadIdIsFresh(items);
      WithoutAbsent(tail, id);
      WithoutProductCons(items, id);
      assert items[..0] + items[1..] == tail;
    } else {
      assert tail[k - 1] == items[k];
      WithoutProductAt(tail, id, k - 1);
      WithoutProductCons(items, id);
      DropAtTail(items, k);
    }
  }

  lemma {:induction false} WithoutProductTotals(items: seq<CartItem>, id: string, k: nat)
    requires UniqueIds(items) && k < |items| && items[k].product.id == id
    ensures TotalItems(WithoutProduct(items, id)) == TotalItems(items) - items[k].quantity
    ensures Subtotal(WithoutProduct(items, id)) == Subtotal(items) - LineAmount(items[k])
    decreases |items|
  {
    var tail := items[1..];
    assert items == [items[0]] + tail;
    TotalsConcat([items[0]], tail);
    UniqueIdsSlice(items, 1, |items|);
    if k == 0 {
      HeadIdIsFresh(items);
      WithoutAbsent(tail, id);
      WithoutProductCons(items, id);
    } else {
      assert tail[k - 1] == items[k];
      WithoutProductTotals(tail, id, k - 1);
      WithoutProductCons(items, id);
      TotalsConcat([items[0]], WithoutProduct(tail, id));
    }
  }

  // ---------------------------------------------------------------------------
  // ADD_TO_CART

  /** Adding a product already in the cart adds `quantity` to its line only and keeps
      the number and order of the lines. */
  lemma AddToExistingLine(state: Cart, p: Product, q: int)
    requires InCart(state.items, p.id)
    ensures var r := CartReducer(state, Add(p, q));
      |r.items| == |state.items| &&
      forall i :: 0 <= i < |r.items| ==>
        r.items[i].product == state.items[i].product &&
        r.items[i].quantity == state.items[i].quantity + (if state.items[i].product.id == p.id then q else 0)
  {
  }

  /** Adding a product not in the cart appends exactly one line at the end. */
  lemma AddNewLine(state: Cart, p: Product, q: int)
    requires !InCart(state.items, p.id)
    ensures CartReducer(state, Add(p, q)).items == state.items + [CartItem(p, q)]
  {
  }

  /** Adding the same product twice is adding it once with the summed quantity. */
  lemma AddTwiceMerges(state: Cart, p: Product, q1: int, q2: int)
    ensures CartReducer(CartReducer(state, Add(p, q1)), Add(p, q2)) == CartReducer(state, Add(p, q1 + q2))
  {
    var items := state.items;
    var once := CartReducer(state, Add(p, q1));
    if InCart(items, p.id) {
      var i :| 0 <= i < |items| && items[i].product.id == p.id;
      assert once.items[i].product.id == p.id;
      assert IncreaseQuantity(IncreaseQuantity(items, p.id, q1), p.id, q2) == IncreaseQuantity(items, p.id, q1 + q2);
    } else {
      assert once.items[|items|].product.id == p.id;
      assert IncreaseQuantity(items + [CartItem(p, q1)], p.id, q2) == items + [CartItem(p, q1 + q2)];
    }
  }

  /** From a cart without the product, two adds leave exactly one new line, holding q1 + q2. */
  lemma AddTwiceGivesOneLine(state: Cart, p: Product, q1: int, q2: int)
    requires !InCart(state.items, p.id)
    ensures CartReducer(CartReducer(state, Add(p, q1)), Add(p, q2)).items == state.items + [CartItem(p, q1 + q2)]
  {
    AddTwiceMerges(state, p, q1, q2);
  }

  /** With one line per id, an add raises the item count by `quantity` and the subtotal
      by `quantity` times the unit price of the line it lands on. */
  lemma AddTotals(state: Cart, p: Product, q: int)
    requires UniqueIds(state.items)
    ensures CartReducer(state, Add(p, q)).totalItems == TotalItems(state.items) + q
    ensures !InCart(state.items, p.id) ==> CartReducer(state, Add(p, q)).subtotal == Subtotal(state.items) + p.price * q
    ensures forall k :: 0 <= k < |state.items| && state.items[k].product.id == p.id ==>
      CartReducer(state, Add(p, q)).subtotal == Subtotal(state.items) + state.items[k].product.price * q
  {
    var items := state.items;
    if InCart(items, p.id) {
      forall k | 0 <= k < |items| && items[k].product.id == p.id
        ensures Subtotal(IncreaseQuantity(items, p.id, q)) == Subtotal(items) + items[k].product.price * q
      {
        IncreaseQuantityTotals(items, p.id, q, k);
      }
      var k :| 0 <= k < |items| && items[k].product.id == p.id;
      IncreaseQuantityTotals(items, p.id, q, k);
    } else {
      assert (items + [CartItem(p, q)])[..|items|] == items;
    }
  }

  // ---------------------------------------------------------------------------
  // REMOVE_FROM_CART and UPDATE_QUANTITY

  /** Removing drops exactly the lines for that id, keeps every other line as often as it
      was there and in its order, and changes no line when the id is absent. */
  lemma RemoveDropsExactlyThatProduct(state: Cart, id: string)
    ensures var r := CartReducer(state, Remove(id));
      !InCart(r.items, id) &&
      (forall item :: item in r.items <==> item in state.items && item.product.id != id) &&
      (forall item :: multiset(r.items)[item] == if item.product.id != id then multiset(state.items)[item] else 0) &&
      IsSubsequence(r.items, state.items) &&
      (!InCart(state.items, id) ==> r.items == state.items)
  {
    var r := CartReducer(state, Remove(id));
    FilterSubsequence(state.items, (item: CartItem) => item.product.id != id);
    FilterMultiset(state.items, (item: CartItem) => item.product.id != id);
    forall i | 0 <= i < |r.items|
      ensures r.items[i].product.id != id
    {
      assert r.items[i] in r.items;
    }
    if !InCart(state.items, id) {
      forall item | item in state.items
        ensures item.product.id != id
      {
        var m :| 0 <= m < |state.items| && state.items[m] == item;
      }
      FilterKeepsAll(state.items, (item: CartItem) => item.product.id != id);
    }
  }

  /** With one line per id, removing a line takes its quantity and amount off the totals. */
  lemma RemoveTotals(state: Cart, id: string, k: nat)
    requires UniqueIds(state.items) && k < |state.items| && state.items[k].product.id == id
    ensures CartReducer(state, Remove(id)).totalItems == TotalItems(state.items) - state.items[k].quantity
    ensures CartReducer(state, Remove(id)).subtotal == Subtotal(state.items) - LineAmount(state.items[k])
  {
    WithoutProductTotals(state.items, id, k);
  }

  /** UPDATE_QUANTITY with a quantity of zero or less is REMOVE_FROM_CART. */
  lemma UpdateNonPositiveIsRemove(state: Cart, id: string, q: int)
    requires q <= 0
    ensures CartReducer(state, Update(id, q)) == CartReducer(state, Remove(id))
  {
  }

  /** UPDATE_QUANTITY with a positive quantity sets the matching line's quantity, keeps
      every product and the order of the lines, and changes no line when the id is absent. */
  lemma UpdatePositiveSetsQuantity(state: Cart, id: string, q: int)
    requires q > 0
    ensures var r := CartReducer(state, Update(id, q));
      |r.items| == |state.items| &&
      (forall i :: 0 <= i < |r.items| ==>
        r.items[i].product == state.items[i].product &&
        r.items[i].quantity == if state.items[i].product.id == id then q else state.items[i].quantity) &&
      (!InCart(state.items, id) ==> r.items == state.items)
  {
    if !InCart(state.items, id) {
      assert ReplaceQuantity(state.items, id, q) == state.items;
    }
  }

  // ---------------------------------------------------------------------------
  // Invariant: at most one line per product id

  /** Every action keeps the cart at one line per product id. */
  lemma ReducerKeepsUniqueIds(state: Cart, action: CartAction)
    requires UniqueIds(state.items)
    ensures UniqueIds(CartReducer(state, action).items)
  {
    match action
    case Add(p, q) =>
      if !InCart(state.items, p.id) {
        var items := state.items + [CartItem(p, q)];
        forall i, j | 0 <= i < j < |items|
          ensures items[i].product.id != items[j].product.id
        {
          if j == |state.items| {
            assert items[i] == state.items[i];
          } else {
            assert items[i] == state.items[i] && items[j] == state.items[j];
          }
        }
      }
    case Remove(id) =>
      WithoutProductKeepsUnique(state.items, id);
    case Update(id, q) =>
      if q <= 0 {
        WithoutProductKeepsUnique(state.items, id);
      }
    case Clear =>
    case Unknown =>
  }

  // ---------------------------------------------------------------------------
  // Restoring a saved cart

  /** The cart reached by dispatching ADD_TO_CART for each saved line, in order, from `start`. */
  function Replay(start: Cart, saved: seq<CartItem>): Cart
    decreases |saved|
  {
    if |saved| == 0 then start
    else
      var last := saved[|saved| - 1];
      CartReducer(Replay(start, saved[..|saved| - 1]), Add(last.product, last.quantity))
  }

  /** Replaying any saved lines from the initial cart gives one line per id, totals that
      agree with the lines, and as many items as the saved lines hold. */
  lemma {:induction false} ReplayKeepsInvariant(saved: seq<CartItem>)
    ensures var c := Replay(InitialCart, saved);
      TotalsMatch(c) && UniqueIds(c.items) && c.totalItems == TotalItems(saved)
    decreases |saved|
  {
    if |saved| > 0 {
      var last := saved[|saved| - 1];
      var before := Replay(InitialCart, saved[..|saved| - 1]);
      ReplayKeepsInvariant(saved[..|saved| - 1]);
      ReducerKeepsUniqueIds(before, Add(last.product, last.quantity));
      AddTotals(before, last.product, last.quantity);
    }
  }

  /** Replaying lines that have one line per id rebuilds exactly those lines, in order,
      with freshly computed totals. */
  lemma {:induction false} ReplayRebuildsLines(saved: seq<CartItem>)
    requires UniqueIds(saved)
    ensures Replay(InitialCart, saved) == WithTotals(saved)
    decreases |saved|
  {
    if |saved| > 0 {
      var n := |saved|;
      var front := saved[..n - 1];
      var last := saved[n - 1];
      UniqueIdsSlice(saved, 0, n - 1);
      ReplayRebuildsLines(front);
      assert !InCart(front, last.product.id) by {
        forall i | 0 <= i < |front|
          ensures front[i].product.id != last.product.id
        {
          assert saved[i] == front[i];
        }
      }
      AddNewLine(WithTotals(front), last.product, last.quantity);
      assert front + [CartItem(last.product, last.quantity)] == saved;
    }
  }

  /** A saved cart with one line per id and consistent totals restores to itself. */
  lemma RestoreRoundTrip(c: Cart)
    requires UniqueIds(c.items) && TotalsMatch(c)
    ensures Replay(InitialCart, c.items) == c
  {
    ReplayRebuildsLines(c.items);
  }

  /** The restored cart: the initial cart, with every parsed saved line re-added
      (the saved totals are not read). */
  method RestoreCart(saved: Snapshot<Cart>) returns (c: Cart)
    ensures c == if saved.Parsed? then Replay(InitialCart, saved.value.items) else InitialCart
    ensures TotalsMatch(c) && UniqueIds(c.items)
    ensures saved.Parsed? ==> c.totalItems == TotalItems(saved.value.items)
    ensures saved.Parsed? && UniqueIds(saved.value.items) && TotalsMatch(saved.value) ==> c == saved.value
  {
    c := InitialCart;
    if saved.Parsed? {
      var items := saved.value.items;
      for i := 0 to |items|
        invariant c == Replay(InitialCart, items[..i])
      {
        assert items[..i + 1][..i] == items[..i];
        c := CartReducer(c, Add(items[i].product, items[i].quantity));
      }
      assert items[..|items|] == items;
      ReplayKeepsInvariant(items);
      if UniqueIds(items) && TotalsMatch(saved.value) {
        RestoreRoundTrip(saved.value);
      }
    }
  }

  /** `CartProvider`: the cart state and its browser-storage copy, rewritten after every change. */
  class CartProvider {
    var cart: Cart
    var storage: Snapshot<Cart>

    ghost predicate Valid()
      reads this
    {
      TotalsMatch(cart) && UniqueIds(cart.items)
    }

    /** Mounting: restore from what the storage held, then write the result back. */
    constructor (saved: Snapshot<Cart>)
      ensures Valid()
      ensures cart == if saved.Parsed? then Replay(InitialCart, saved.value.items) else InitialCart
      ensures storage == Parsed(cart)
    {
      var c := RestoreCart(saved);
      cart := c;
      storage := Parsed(c);
    }

    /** `dispatch` followed by the storage effect. */
    method Dispatch(action: CartAction)
      requires Valid()
      modifies this
      ensures Valid()
      ensures cart == CartReducer(old(cart), action)
      ensures storage == Parsed(cart)
    {
      ReducerKeepsUniqueIds(cart, action);
      cart := CartReducer(cart, action);
      storage := Parsed(cart);
    }

    method AddToCart(product: Product, quantity: int)
      requires Valid()
      modifies this
      ensures Valid()
      ensures cart == CartReducer(old(cart), Add(product, quantity)) && storage == Parsed(cart)
      ensures cart.totalItems == old(cart.totalItems) + quantity
    {
      AddTotals(cart, product, quantity);
      Dispatch(Add(product, quantity));
    }

    method RemoveFromCart(productId: string)
      requires Valid()
      modifies this
      ensures Valid()
      ensures cart == CartReducer(old(cart), Remove(productId)) && storage == Parsed(cart)
      ensures !InCart(cart.items, productId)
    {
      RemoveDropsExactlyThatProduct(cart, productId);
      Dispatch(Remove(productId));
    }

    method UpdateQuantity(productId: string, quantity: int)
      requires Valid()
      modifies this
      ensures Valid()
      ensures cart == CartReducer(old(cart), Update(productId, quantity)) && storage == Parsed(cart)
    {
      Dispatch(Update(productId, quantity));
    }

    method ClearCart()
      requires Valid()
      modifies this
      ensures Valid()
      ensures cart == InitialCart && storage == Parsed(InitialCart)
    {
      Dispatch(Clear);
    }
  }
}
