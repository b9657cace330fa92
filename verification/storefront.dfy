/**
 How the detail screen and the cart fit together: every `addCartItem` the
 storefront dispatches comes from the detail screen's "add to cart" button,
 so the cart only ever receives payloads that screen builds.
 */
module Storefront {
  import opened Catalog
  import Cart
  import ItemDetail

  /** The payloads handed over by the detail screen, each dispatched as an
      `addCartItem` action at time `now`. */
  function AsAddActions(payloads: seq<Cart.Line>, now: Cart.Timestamp): seq<Cart.Action> {
    seq(|payloads|, k requires 0 <= k < |payloads| => Cart.AddItem(payloads[k], now))
  }

  /** Whatever buttons a shopper presses on a freshly opened detail screen,
      feeding the resulting payloads to a valid cart with positive quantities
      keeps it valid, keeps every quantity positive, and touches only the
      product the screen shows: every line of another product was already
      in the cart. */
  lemma DetailScreenFeedsCart(
    c: Cart.CartState, product: Option<Product>, events: seq<ItemDetail.Event>, now: Cart.Timestamp)
    requires Cart.Valid(c) && Cart.PositiveQuantities(c.items)
    ensures var payloads := ItemDetail.Run(ItemDetail.Open(product), events).1;
            var r := Cart.Run(c, AsAddActions(payloads, now));
      && Cart.Valid(r)
      && Cart.PositiveQuantities(r.items)
      && (product.None? ==> r == c)
      && (product.Some? ==>
            forall l :: l in r.items && l.Id() != product.value.id ==> l in c.items)
  {
    var payloads := ItemDetail.Run(ItemDetail.Open(product), events).1;
    var actions := AsAddActions(payloads, now);
    Cart.RunKeepsValid(c, actions);
    Cart.RunKeepsPositive(c, actions);
    if product.Some? {
      Cart.RunOfAddsLeavesOthers(c, actions, product.value);
    }
  }
}
