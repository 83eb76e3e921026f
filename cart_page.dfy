/** The cart page (src/pages/CartPage.tsx): the order summary's shipping, tax and total,
    which of its three views it shows, and checkout. Amounts are in cents; tax is a `real`
    because 8% of a cent amount need not be whole. */
module CartPageView {
  import opened Wrappers
  import opened Types
  import opened CartContext

  /** Orders of 100 dollars or more ship free. */
  const FreeShippingThreshold := 10000
  /** The flat shipping charge below the threshold: 10 dollars. */
  const ShippingCharge := 1000
  const TaxRate: real := 0.08

  function ShippingCost(subtotal: int): (r: int)
    ensures r == 0 <==> subtotal >= FreeShippingThreshold
    ensures r == 0 || r == ShippingCharge
  {
    if subtotal >= FreeShippingThreshold then 0 else ShippingCharge
  }

  function Tax(subtotal: int): (r: real)
    ensures subtotal >= 0 ==> 0.0 <= r <= subtotal as real
    ensures r == subtotal as real * 0.08
  {
    subtotal as real * TaxRate
  }

  /** Subtotal plus shipping plus tax. */
  function OrderTotal(subtotal: int): (r: real)
    ensures subtotal >= 0 ==> r >= subtotal as real
    ensures r == subtotal as real * 1.08 + ShippingCost(subtotal) as real
  {
    subtotal as real + ShippingCost(subtotal) as real + Tax(subtotal)
  }

  /** The three views the page can render. */
  datatype View =
    | Success
    | EmptyCart
    | Summary(lines: seq<CartItem>, totalItems: int, subtotal: int, shipping: int, tax: real, total: real)

  /** What the page renders: the confirmation after checkout, else the empty-cart notice
      when there are no lines, else the lines with their order summary. */
  function Render(showSuccess: bool, cart: Cart): (v: View)
    ensures v.Success? <==> showSuccess
    ensures v.EmptyCart? <==> !showSuccess && |cart.items| == 0
    ensures v.Summary? ==> |v.lines| > 0 && v.lines == cart.items && v.subtotal == cart.subtotal
    ensures v.Summary? ==> v.total == OrderTotal(cart.subtotal) && v.shipping == ShippingCost(cart.subtotal)
    ensures v.Summary? ==> v.totalItems == cart.totalItems && v.tax == Tax(cart.subtotal)
  {
    if showSuccess then Success
    else if |cart.items| == 0 then EmptyCart
    else Summary(cart.items, cart.totalItems, cart.subtotal, ShippingCost(cart.subtotal), Tax(cart.subtotal), OrderTotal(cart.subtotal))
  }

  /** A summary always shows a total at least the subtotal of a cart whose lines
      have non-negative quantities. */
  lemma SummaryTotalCoversLines(showSuccess: bool, cart: Cart)
    requires TotalsMatch(cart) && forall i :: 0 <= i < |cart.items| ==> cart.items[i].quantity >= 0
    ensures var v := Render(showSuccess, cart);
      v.Summary? ==> v.subtotal >= 0 && v.total >= v.subtotal as real
  {
    SubtotalNonNegative(cart.items);
  }

  lemma {:induction false} SubtotalNonNegative(items: seq<CartItem>)
    requires forall i :: 0 <= i < |items| ==> items[i].quantity >= 0
    ensures Subtotal(items) >= 0
    decreases |items|
  {
    if |items| > 0 {
      SubtotalNonNegative(items[..|items| - 1]);
    }
  }

  /** The page's local state: whether the order confirmation is showing. */
  class CartPage {
    var showSuccess: bool

    constructor ()
      ensures !showSuccess
    {
      showSuccess := false;
    }

    /** `handleCheckout`: show the confirmation and empty the cart. */
    method HandleCheckout(store: CartProvider)
      requires store.Valid()
      modifies this, store
      ensures showSuccess && store.Valid()
      ensures store.cart == InitialCart && store.storage == Parsed(InitialCart)
      ensures Render(showSuccess, store.cart) == Success
    {
      showSuccess := true;
      store.ClearCart();
    }
  }
}
