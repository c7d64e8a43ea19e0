/** The relational tables the routes read and write (`carts`, `cart_items`, `products`, `orders`,
    `order_items`), their auto-increment counters and the invariants every route keeps. */
module Store {
  import opened Common
  import opened Seqs

  /** A catalog row, as far as the cart and order routes read it; prices are in integer cents. */
  datatype Product = Product(id: int, name: string, price: nat)

  datatype Cart = Cart(id: nat, sessionId: string)

  datatype CartItem = CartItem(id: nat, cartId: nat, productId: int, qty: nat)

  datatype Status = Placed | Fulfilled

  datatype Order = Order(id: nat, userId: Option<int>, total: nat, pickupCode: string, status: Status)

  /** An order line: product, quantity and the unit price copied at checkout time. */
  datatype OrderItem = OrderItem(id: nat, orderId: nat, productId: int, qty: nat, price: nat)

  /** A row of the cart view: a cart line joined with its product. */
  datatype CartLine = CartLine(id: nat, productId: int, name: string, price: nat, qty: nat, subtotal: nat)

  /** The JSON body of GET /cart: `{ items, total }`. */
  datatype CartView = CartView(items: seq<CartLine>, total: nat)

  /** Two cart lines of the same cart for the same product. */
  predicate SameLine(a: CartItem, b: CartItem)
  {
    a.cartId == b.cartId && a.productId == b.productId
  }

  /** Product ids are the key of the catalog: no two rows share one. */
  ghost predicate ProductsWellFormed(products: seq<Product>)
  {
    forall i, j :: 0 <= i < j < |products| ==> products[i].id != products[j].id
  }

  /** Cart ids are issued in increasing order below the counter, and a session has at most one
      cart (find-or-create only inserts for a session without one). */
  ghost predicate CartsWellFormed(carts: seq<Cart>, next: nat)
  {
    && (forall i :: 0 <= i < |carts| ==> 1 <= carts[i].id < next)
    && (forall i, j :: 0 <= i < j < |carts| ==> carts[i].id < carts[j].id && carts[i].sessionId != carts[j].sessionId)
  }

  /** Ids are issued in increasing order below the counter, every quantity is at least 1, and a
      cart holds at most one line per product. */
  ghost predicate CartItemsWellFormed(items: seq<CartItem>, next: nat)
  {
    && (forall i :: 0 <= i < |items| ==> 1 <= items[i].id < next && items[i].qty >= 1)
    && (forall i, j :: 0 <= i < j < |items| ==> items[i].id < items[j].id && !SameLine(items[i], items[j]))
  }

  ghost predicate OrdersWellFormed(orders: seq<Order>, next: nat)
  {
    && (forall i :: 0 <= i < |orders| ==> 1 <= orders[i].id < next)
    && (forall i, j :: 0 <= i < j < |orders| ==> orders[i].id < orders[j].id)
  }

  /** Every cart line belongs to a cart id already issued (at least 1 and below the counter), so
      a cart created later starts empty. */
  ghost predicate LinesInIssuedCarts(items: seq<CartItem>, nextCart: nat)
  {
    forall i :: 0 <= i < |items| ==> 1 <= items[i].cartId < nextCart
  }

  /** Order line ids are issued in increasing order below the counter, each under an order id
      already issued. */
  ghost predicate OrderItemsWellFormed(items: seq<OrderItem>, next: nat, nextOrder: nat)
  {
    && (forall i :: 0 <= i < |items| ==> 1 <= items[i].id < next && 1 <= items[i].orderId < nextOrder)
    && (forall i, j :: 0 <= i < j < |items| ==> items[i].id < items[j].id)
  }

  /** `SELECT * FROM order_items WHERE order_id=?` */
  function ItemsOf(items: seq<OrderItem>, orderId: int): seq<OrderItem>
  {
    Filter(items, (it: OrderItem) => it.orderId == orderId)
  }

  /** The sum of price * qty over order lines. */
  function ItemsTotal(items: seq<OrderItem>): nat
  {
    if items == [] then 0 else items[0].price * items[0].qty + ItemsTotal(items[1..])
  }

  /** Every order's stored total is the sum of its own lines' price * qty. */
  ghost predicate TotalsMatch(orders: seq<Order>, items: seq<OrderItem>)
  {
    forall o :: o in orders ==> ItemsTotal(ItemsOf(items, o.id)) == o.total
  }

  /** The database: one sequence of rows per table and the next id each table's AUTO_INCREMENT
      will issue. Counters only grow; a rolled-back insert does not give its id back. */
  class Tables {
    var products: seq<Product>
    var carts: seq<Cart>
    var cartItems: seq<CartItem>
    var orders: seq<Order>
    var orderItems: seq<OrderItem>
    var nextCartId: nat
    var nextCartItemId: nat
    var nextOrderId: nat
    var nextOrderItemId: nat

    ghost predicate Valid()
      reads this
    {
      && 1 <= nextCartId && 1 <= nextCartItemId && 1 <= nextOrderId && 1 <= nextOrderItemId
      && ProductsWellFormed(products)
      && CartsWellFormed(carts, nextCartId)
      && CartItemsWellFormed(cartItems, nextCartItemId)
      && LinesInIssuedCarts(cartItems, nextCartId)
      && OrdersWellFormed(orders, nextOrderId)
      && OrderItemsWellFormed(orderItems, nextOrderItemId, nextOrderId)
      && TotalsMatch(orders, orderItems)
    }

    /** A database holding the given catalog and nothing else. */
    constructor (catalog: seq<Product>)
      requires ProductsWellFormed(catalog)
      ensures Valid()
      ensures products == catalog && carts == [] && cartItems == [] && orders == [] && orderItems == []
      ensures nextCartId == 1 && nextCartItemId == 1 && nextOrderId == 1 && nextOrderItemId == 1
    {
      products := catalog;
      carts, cartItems, orders, orderItems := [], [], [], [];
      nextCartId, nextCartItemId, nextOrderId, nextOrderItemId := 1, 1, 1, 1;
    }
  }

  lemma TailKeepsCartItemsWellFormed(items: seq<CartItem>, next: nat)
    requires items != [] && CartItemsWellFormed(items, next)
    ensures CartItemsWellFormed(items[1..], next)
    ensures forall y :: y in items[1..] ==> items[0].id < y.id && !SameLine(items[0], y)
  {
    var tail := items[1..];
    forall i, j | 0 <= i < j < |tail|
      ensures tail[i].id < tail[j].id && !SameLine(tail[i], tail[j])
    {
      assert tail[i] == items[i + 1] && tail[j] == items[j + 1];
    }
    forall y | y in tail
      ensures items[0].id < y.id && !SameLine(items[0], y)
    {
      var k :| 0 <= k < |tail| && tail[k] == y;
      assert items[k + 1] == y;
    }
  }

  lemma ConsKeepsCartItemsWellFormed(x: CartItem, rest: seq<CartItem>, next: nat)
    requires CartItemsWellFormed(rest, next)
    requires 1 <= x.id < next && x.qty >= 1
    requires forall y :: y in rest ==> x.id < y.id && !SameLine(x, y)
    ensures CartItemsWellFormed([x] + rest, next)
  {
    var r := [x] + rest;
    forall i, j | 0 <= i < j < |r|
      ensures r[i].id < r[j].id && !SameLine(r[i], r[j])
    {
      assert r[j] == rest[j - 1];
      if i == 0 {
        assert rest[j - 1] in rest;
      } else {
        assert r[i] == rest[i - 1];
      }
    }
  }

  /** A rollback keeps the counters the failed inserts advanced; the restored order rows stay
      well formed under them. */
  lemma LaterCountersKeepOrders(orders: seq<Order>, items: seq<OrderItem>, nextOrder: nat, nextItem: nat,
                                laterOrder: nat, laterItem: nat)
    requires OrdersWellFormed(orders, nextOrder) && OrderItemsWellFormed(items, nextItem, nextOrder)
    requires nextOrder <= laterOrder && nextItem <= laterItem
    ensures OrdersWellFormed(orders, laterOrder) && OrderItemsWellFormed(items, laterItem, laterOrder)
  {
  }

  /** Deleting cart lines keeps every remaining line in an issued cart. */
  lemma FilterKeepsLinesInIssuedCarts(items: seq<CartItem>, keep: CartItem -> bool, nextCart: nat)
    requires LinesInIssuedCarts(items, nextCart)
    ensures LinesInIssuedCarts(Filter(items, keep), nextCart)
  {
    var r := Filter(items, keep);
    forall i | 0 <= i < |r|
      ensures r[i].cartId < nextCart
    {
      assert r[i] in r;
      var k :| 0 <= k < |items| && items[k] == r[i];
    }
  }

  /** Keeping any subset of the cart lines keeps them well formed (DELETE ... WHERE). */
  lemma {:induction false} FilterKeepsCartItemsWellFormed(items: seq<CartItem>, keep: CartItem -> bool, next: nat)
    requires CartItemsWellFormed(items, next)
    ensures CartItemsWellFormed(Filter(items, keep), next)
  {
    if items != [] {
      TailKeepsCartItemsWellFormed(items, next);
      FilterKeepsCartItemsWellFormed(items[1..], keep, next);
      var rest := Filter(items[1..], keep);
      assert items == [items[0]] + items[1..];
      if keep(items[0]) {
        ConsKeepsCartItemsWellFormed(items[0], rest, next);
        assert Filter(items, keep) == [items[0]] + rest;
      } else {
        assert Filter(items, keep) == rest;
      }
    }
  }
}
