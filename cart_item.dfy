/** The cart line component (src/components/cart/CartItem.tsx): the store requests its
    three buttons make, and the amount it shows. */
module CartItemView {
  import opened Wrappers
  import opened Types
  import opened CartContext

  /** `handleIncrement`: one more of this line's product. */
  function IncrementRequest(item: CartItem): CartAction {
    Update(item.product.id, item.quantity + 1)
  }

  /** `handleDecrement`: one fewer, asked for only while the line holds more than one. */
  function DecrementRequest(item: CartItem): (r: Option<CartAction>)
    ensures r.Some? <==> item.quantity > 1
  {
    if item.quantity > 1 then Some(Update(item.product.id, item.quantity - 1)) else None
  }

  /** `handleRemove`: drop this line's product. */
  function RemoveRequest(item: CartItem): CartAction {
    Remove(item.product.id)
  }

  /** The amount shown beside the line is the line's amount, unit price times quantity:
      never negative, and the unit price for a single item. */
  lemma ShownAmount(item: CartItem)
    ensures item.quantity >= 0 ==> LineAmount(item) >= 0
    ensures item.quantity == 1 ==> LineAmount(item) == item.product.price
  {
  }

  /** Every line holds at least one unit. */
  predicate AllPositive(items: seq<CartItem>) {
    forall i :: 0 <= i < |items| ==> items[i].quantity >= 1
  }

  /** The store's answer to a line's request, when there is one. */
  function Answer(state: Cart, request: Option<CartAction>): Cart {
    if request.Some? then CartReducer(state, request.value) else state
  }

  /** Incrementing the k-th line raises that line by one and leaves every other line,
      and the order of the lines, as they were. */
  lemma IncrementRaisesLine(state: Cart, k: nat)
    requires UniqueIds(state.items) && k < |state.items| && state.items[k].quantity >= 0
    ensures var r := CartReducer(state, IncrementRequest(state.items[k]));
      |r.items| == |state.items| &&
      r.items[k] == state.items[k].(quantity := state.items[k].quantity + 1) &&
      forall i :: 0 <= i < |r.items| && i != k ==> r.items[i] == state.items[i]
  {
    var id := state.items[k].product.id;
    UpdatePositiveSetsQuantity(state, id, state.items[k].quantity + 1);
  }

  /** Decrementing the k-th line lowers it by one when it holds more than one, and
      changes nothing when it holds one. */
  lemma DecrementLowersLine(state: Cart, k: nat)
    requires UniqueIds(state.items) && k < |state.items|
    ensures var r := Answer(state, DecrementRequest(state.items[k]));
      state.items[k].quantity <= 1 ==> r == state
    ensures var r := Answer(state, DecrementRequest(state.items[k]));
      state.items[k].quantity > 1 ==>
        |r.items| == |state.items| &&
        r.items[k] == state.items[k].(quantity := state.items[k].quantity - 1) &&
        forall i :: 0 <= i < |r.items| && i != k ==> r.items[i] == state.items[i]
  {
    if state.items[k].quantity > 1 {
      UpdatePositiveSetsQuantity(state, state.items[k].product.id, state.items[k].quantity - 1);
    }
  }

  /** The decrement control never takes a line below one: from a cart of positive lines,
      the answer to any line's decrement is again a cart of positive lines. */
  lemma DecrementKeepsPositive(state: Cart, k: nat)
    requires UniqueIds(state.items) && AllPositive(state.items) && k < |state.items|
    ensures AllPositive(Answer(state, DecrementRequest(state.items[k])).items)
  {
    DecrementLowersLine(state, k);
  }

  /** Removing a line leaves no line for its product and keeps the others in order. */
  lemma RemoveDropsLine(state: Cart, k: nat)
    requires UniqueIds(state.items) && k < |state.items|
    ensures var r := CartReducer(state, RemoveRequest(state.items[k]));
      !InCart(r.items, state.items[k].product.id) &&
      r.items == state.items[..k] + state.items[k + 1..]
  {
    WithoutProductAt(state.items, state.items[k].product.id, k);
    RemoveDropsExactlyThatProduct(state, state.items[k].product.id);
  }
}
