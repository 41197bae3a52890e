/** The client-side cart container as far as the pages use it. Its own
    add/update rules live outside this model, so `AddItem` only records the
    request it receives and leaves the resulting lines unspecified;
    `ClearCart` empties the cart. */
module CartStore {
  import opened Types

  class Cart {
    /** The current cart lines, each holding a product snapshot. */
    var items: seq<CartItem>
    /** Every `addItem(product, quantity)` request made so far. */
    var requests: seq<CartItem>

    constructor (initial: seq<CartItem>)
      ensures items == initial && requests == []
    {
      items := initial;
      requests := [];
    }

    /** `addItem(product, quantity)`: the request is recorded; its effect on
        the lines belongs to the cart store and is left open. */
    method AddItem(product: Product, quantity: int)
      modifies this
      ensures requests == old(requests) + [CartItem(product, quantity)]
    {
      requests := requests + [CartItem(product, quantity)];
      items := *;
    }

    /** `clearCart()`: no line is left. */
    method ClearCart()
      modifies this
      ensures items == [] && requests == old(requests)
    {
      items := [];
    }
  }
}
