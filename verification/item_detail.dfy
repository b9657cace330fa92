/**
 The quantity selector of the product detail screen
 (src/screens/ItemDetail.jsx): a counter that starts at 1, a "+" and a "-"
 button, and an "add to cart" button that hands the chosen quantity to the
 cart and starts over at 1. It is the only place that builds `addCartItem`
 payloads, so it is what keeps cart quantities positive.

 The loaded product is an input: `None` while the fetch has not produced one.
 Alerts and animations are left out.
 */
module ItemDetail {
  import opened Catalog
  import Cart

  /** `useState(1)`. */
  const InitialQuantity: int := 1

  /** The screen's own state: the fetched product, if any, and the selection. */
  datatype Screen = Screen(product: Option<Product>, quantity: int)

  /** The screen as mounted: whatever product the fetch gives, and the
      selection `useState(1)` starts from. */
  function Open(product: Option<Product>): (r: Screen)
    ensures r.product == product && r.quantity == InitialQuantity
  {
    Screen(product, InitialQuantity)
  }

  /** `handleIncrementQuantity`. */
  function Increment(q: int): int {
    q + 1
  }

  /** `handleDecrementQuantity`: one less, but never below 1. */
  function Decrement(q: int): (r: int)
    ensures r >= 1
    ensures q > 1 ==> r == q - 1
    ensures q <= 1 ==> r == 1
  {
    if q > 1 then q - 1 else 1
  }

  /** `handleAddCart`: with a product loaded, dispatch the product with the
      selected quantity and reset the selection to 1; with none, do nothing.
      The second component is the dispatched payload, if any. */
  function HandleAddCart(s: Screen): (r: (Screen, Option<Cart.Line>))
    ensures s.product.None? ==> r.0 == s && r.1.None?
    ensures s.product.Some? ==>
      && r.1 == Some(Cart.Line(s.product.value, s.quantity))
      && r.0 == Screen(s.product, InitialQuantity)
  {
    match s.product
    case None => (s, None)
    case Some(p) => (s.(quantity := InitialQuantity), Some(Cart.Line(p, s.quantity)))
  }

  datatype Event = IncrementPressed | DecrementPressed | AddToCartPressed

  /** One button press. Only "add to cart" can dispatch, only with a
      product loaded, and no press lets the selection fall below 1. */
  function Step(s: Screen, e: Event): (r: (Screen, Option<Cart.Line>))
    ensures r.0.product == s.product
    ensures s.quantity >= 1 ==> r.0.quantity >= 1
    ensures r.1.Some? ==> e == AddToCartPressed && s.product == Some(r.1.value.product)
    ensures r.1.Some? ==> r.1.value.quantity == s.quantity
    ensures e == IncrementPressed ==> r.0.quantity == s.quantity + 1
  {
    match e
    case IncrementPressed => (s.(quantity := Increment(s.quantity)), None)
    case DecrementPressed => (s.(quantity := Decrement(s.quantity)), None)
    case AddToCartPressed => HandleAddCart(s)
  }

  /** A run of button presses: the final screen and, in order, every payload
      handed to the cart. The selection never drops below 1, so neither does
      any dispatched quantity, and every payload is the loaded product. */
  function Run(s: Screen, events: seq<Event>): (r: (Screen, seq<Cart.Line>))
    ensures r.0.product == s.product
    ensures |r.1| <= |events|
    ensures s.quantity >= 1 ==> r.0.quantity >= 1
    ensures s.quantity >= 1 ==> forall k :: 0 <= k < |r.1| ==> r.1[k].quantity >= 1
    ensures forall k :: 0 <= k < |r.1| ==> s.product == Some(r.1[k].product)
    decreases |events|
  {
    if |events| == 0 then (s, [])
    else
      var (s', out) := Step(s, events[0]);
      var (final, rest) := Run(s', events[1..]);
      (final, (if out.Some? then [out.value] else []) + rest)
  }

  /** "-" undoes "+" from any reachable selection, and "+" undoes "-" above 1. */
  lemma IncrementDecrement(q: int)
    requires q >= 1
    ensures Decrement(Increment(q)) == q
    ensures q > 1 ==> Increment(Decrement(q)) == q
  {
  }
}
