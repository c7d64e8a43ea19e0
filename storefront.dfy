/** How what the page shows follows from what the cart and order routes compute: the badge, the
    checkout dialog, the total the cart shows and the total checkout charges. */
module Storefront {
  import opened Common
  import opened Store
  import opened CartRoutes
  import opened OrderRoutes
  import opened Client

  /** Every row of a cart view carries the quantity of a stored cart line, so it is positive. */
  lemma JoinedQuantitiesPositive(items: seq<CartItem>, next: nat, products: seq<Product>, cartId: nat)
    requires CartItemsWellFormed(items, next)
    ensures forall line :: line in JoinCart(items, products, cartId) ==> line.qty >= 1
  {
    forall line | line in JoinCart(items, products, cartId)
      ensures line.qty >= 1
    {
      var it :| it in items && it.cartId == cartId && JoinRow(it, products) == Some(line);
      var k :| 0 <= k < |items| && items[k] == it;
    }
  }

  /** For the reply of GET /cart on a well-formed database, the badge shows 0 exactly when the
      checkout dialog disables "Place order". */
  lemma BadgeZeroIffPlaceDisabledForView(items: seq<CartItem>, next: nat, products: seq<Product>, cartId: nat)
    requires CartItemsWellFormed(items, next)
    ensures var lines := JoinCart(items, products, cartId);
            var fetched := Ok(CartView(lines, Total(lines)));
            CartCount(fetched) == 0 <==> PromptFor(fetched).placeDisabled
  {
    JoinedQuantitiesPositive(items, next, products, cartId);
    var lines := JoinCart(items, products, cartId);
    BadgeZeroIffPlaceDisabled(Ok(CartView(lines, Total(lines))));
  }

  /** The dialog enables "Place order" exactly when checkout of the same cart, without a database
      fault, goes through; when it is disabled checkout answers "Cart is empty". */
  lemma PlaceEnabledIffCheckoutProceeds(items: seq<CartItem>, products: seq<Product>, cartId: nat)
    ensures var lines := JoinCart(items, products, cartId);
            var prompt := PromptFor(Ok(CartView(lines, Total(lines))));
            && (!prompt.placeDisabled <==> CheckoutError(Some(cartId), lines, None).None?)
            && (prompt.placeDisabled ==> CheckoutError(Some(cartId), lines, None) == Some(prompt.message))
  {
    CheckoutErrorWithoutFault(Some(cartId), JoinCart(items, products, cartId));
  }

  /** The total the cart drawer shows is the total checkout stores and returns. */
  lemma ShownTotalIsChargedTotal(items: seq<CartItem>, products: seq<Product>, cartId: nat)
    ensures Total(JoinCart(items, products, cartId)) == OrderTotal(JoinCart(items, products, cartId))
  {
    CartTotalIsOrderTotal(JoinCart(items, products, cartId));
  }

  /** After a checkout (or a clear) has deleted the cart's lines, the cart reads back empty: the
      badge shows 0, the total is 0 and "Place order" is disabled. */
  lemma EmptiedCartShowsNothing(items: seq<CartItem>, products: seq<Product>, cartId: nat)
    ensures var lines := JoinCart(ClearLines(items, cartId), products, cartId);
            var fetched := Ok(CartView(lines, Total(lines)));
            && CartCount(fetched) == 0
            && Total(lines) == 0
            && PromptFor(fetched).placeDisabled
  {
    ClearedCartJoinsNothing(items, products, cartId);
  }
}
