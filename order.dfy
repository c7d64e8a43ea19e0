/** The order routes (`/order`): pickup-code generation, the checkout transaction, order lookup
    and pickup. */
module OrderRoutes {
  import opened Common
  import opened Seqs
  import opened Store
  import opened CartRoutes

  const CartNotFound := "Cart not found"
  const CartEmpty := "Cart is empty"
  const OrderNotFound := "Order not found"
  const PickupCodeRequired := "pickupCode required"
  const InvalidPickupCode := "Invalid pickupCode"

  predicate IsBase36Digit(c: char)
  {
    '0' <= c <= '9' || 'a' <= c <= 'z'
  }

  /** What `Math.random().toString(36)` can produce: "0" for zero, otherwise "0." followed by
      lower-case base-36 digits. */
  predicate IsRandomRendering(s: string)
  {
    s == "0" || (|s| > 2 && s[0] == '0' && s[1] == '.' && forall i :: 2 <= i < |s| ==> IsBase36Digit(s[i]))
  }

  /** A character of a pickup code: [0-9A-Z]. */
  predicate IsCodeChar(c: char)
  {
    '0' <= c <= '9' || 'A' <= c <= 'Z'
  }

  function UpperChar(c: char): char
  {
    if 'a' <= c <= 'z' then (c as int - 32) as char else c
  }

  function ToUpper(s: string): string
  {
    seq(|s|, i requires 0 <= i < |s| => UpperChar(s[i]))
  }

  function Clamp(x: int, n: nat): nat
  {
    if x < 0 then 0 else if x > n then n else x
  }

  /** `String.prototype.substring`: both ends clamped to [0, |s|], swapped when start > end. */
  function Substring(s: string, start: int, end: int): string
  {
    var a := Clamp(start, |s|);
    var b := Clamp(end, |s|);
    if a <= b then s[a..b] else s[b..a]
  }

  /** `randomCode(len = 6)`: `Math.random().toString(36).substring(2, 2 + len).toUpperCase()`,
      where `rendering` stands for the string `Math.random().toString(36)` produced. */
  function RandomCode(rendering: string, len: nat := 6): (code: string)
    requires IsRandomRendering(rendering)
    ensures |code| == if |rendering| <= 2 then 0 else Min(len, |rendering| - 2)
    ensures forall i :: 0 <= i < |code| ==> IsCodeChar(code[i]) && code[i] == UpperChar(rendering[2 + i])
  {
    ToUpper(Substring(rendering, 2, 2 + len))
  }

  /** When the random number has fewer than six base-36 fraction digits the code is shorter:
      0.5 renders as "0.i" and gives the one-character code "I". */
  lemma ShortRenderingGivesShortCode()
    ensures RandomCode("0.i") == "I"
  {
    assert IsRandomRendering("0.i");
    var code := RandomCode("0.i");
    assert |code| == 1 && code[0] == UpperChar('i');
  }

  /** `items.reduce((sum, it) => sum + Number(it.price) * it.qty, 0)` */
  function OrderTotal(lines: seq<CartLine>): nat
  {
    if lines == [] then 0 else lines[0].price * lines[0].qty + OrderTotal(lines[1..])
  }

  /** The total the cart view shows (sum of SQL subtotals) is the total checkout charges. */
  lemma {:induction false} CartTotalIsOrderTotal(lines: seq<CartLine>)
    requires forall line :: line in lines ==> line.subtotal == line.price * line.qty
    ensures Total(lines) == OrderTotal(lines)
  {
    if lines != [] {
      assert lines[0] in lines;
      assert forall line :: line in lines[1..] ==> line in lines;
      CartTotalIsOrderTotal(lines[1..]);
    }
  }

  /** The `order_items` rows the checkout loop inserts: one per joined cart line, in order, with
      that line's product, quantity and current price, all under the new order id. */
  function SnapshotItems(lines: seq<CartLine>, orderId: nat, firstId: nat): seq<OrderItem>
  {
    seq(|lines|, k requires 0 <= k < |lines| =>
      OrderItem(firstId + k, orderId, lines[k].productId, lines[k].qty, lines[k].price))
  }

  /** The stored order lines add up to the total computed from the cart lines. */
  lemma {:induction false} SnapshotTotal(lines: seq<CartLine>, orderId: nat, firstId: nat)
    ensures ItemsTotal(SnapshotItems(lines, orderId, firstId)) == OrderTotal(lines)
  {
    if lines != [] {
      var s := SnapshotItems(lines, orderId, firstId);
      assert s[1..] == SnapshotItems(lines[1..], orderId, firstId + 1);
      SnapshotTotal(lines[1..], orderId, firstId + 1);
    }
  }

  /** `userId || null` */
  function StoredUser(userId: Option<int>): Option<int>
  {
    if userId.Some? && userId.value != 0 then userId else None
  }

  /** A database error raised by the statement with the given index inside the checkout
      transaction: 0 beginTransaction, 1 the cart lookup, 2 the joined items, 3 the order
      insert, 4 .. 3 + n the n order-item inserts, 4 + n the delete, 5 + n commit. */
  datatype DbFault = DbFault(step: nat, message: string)

  predicate FaultAt(fault: Option<DbFault>, step: nat)
  {
    fault.Some? && fault.value.step == step
  }

  /** The message checkout fails with, if any, in the order the statements run. */
  function CheckoutError(cart: Option<nat>, lines: seq<CartLine>, fault: Option<DbFault>): Option<string>
  {
    if FaultAt(fault, 0) || FaultAt(fault, 1) then Some(fault.value.message)
    else if cart.None? then Some(CartNotFound)
    else if FaultAt(fault, 2) then Some(fault.value.message)
    else if lines == [] then Some(CartEmpty)
    else if fault.Some? && 3 <= fault.value.step <= 5 + |lines| then Some(fault.value.message)
    else None
  }

  /** Checkout fails before its first INSERT: at BEGIN, at either SELECT, or for want of a cart
      or of a joinable line. */
  predicate FailsBeforeInsert(cart: Option<nat>, lines: seq<CartLine>, fault: Option<DbFault>)
  {
    FaultAt(fault, 0) || FaultAt(fault, 1) || cart.None? || FaultAt(fault, 2) || lines == []
  }

  /** Without a database fault checkout fails exactly when the session has no cart or the cart
      has no joinable line, and with that message. */
  lemma CheckoutErrorWithoutFault(cart: Option<nat>, lines: seq<CartLine>)
    ensures cart.None? ==> CheckoutError(cart, lines, None) == Some(CartNotFound)
    ensures cart.Some? && lines == [] ==> CheckoutError(cart, lines, None) == Some(CartEmpty)
    ensures cart.Some? && lines != [] ==> CheckoutError(cart, lines, None) == None
  {
  }

  datatype Receipt = Receipt(orderId: nat, total: nat, pickupCode: string)

  /** Appending a new order with the snapshot lines under a fresh id keeps every order's total
      equal to its lines, and the new order's lines are exactly the snapshot. */
  lemma CheckoutKeepsTotals(orders: seq<Order>, items: seq<OrderItem>, nextOrderId: nat, nextItemId: nat,
                            lines: seq<CartLine>, userId: Option<int>, code: string)
    requires OrdersWellFormed(orders, nextOrderId)
    requires OrderItemsWellFormed(items, nextItemId, nextOrderId)
    requires TotalsMatch(orders, items)
    ensures var snapshot := SnapshotItems(lines, nextOrderId, nextItemId);
            && ItemsOf(items + snapshot, nextOrderId) == snapshot
            && TotalsMatch(orders + [Order(nextOrderId, userId, OrderTotal(lines), code, Placed)], items + snapshot)
  {
    var snapshot := SnapshotItems(lines, nextOrderId, nextItemId);
    var newOrder := Order(nextOrderId, userId, OrderTotal(lines), code, Placed);
    var after := items + snapshot;
    forall it | it in snapshot
      ensures it.orderId == nextOrderId
    {
      var k :| 0 <= k < |snapshot| && snapshot[k] == it;
    }
    forall it | it in items
      ensures it.orderId < nextOrderId
    {
      var k :| 0 <= k < |items| && items[k] == it;
    }
    FilterAppend(items, snapshot, (it: OrderItem) => it.orderId == nextOrderId);
    FilterKeepsNone(items, (it: OrderItem) => it.orderId == nextOrderId);
    FilterKeepsAll(snapshot, (it: OrderItem) => it.orderId == nextOrderId);
    assert ItemsOf(after, nextOrderId) == snapshot;
    SnapshotTotal(lines, nextOrderId, nextItemId);
    forall o | o in orders + [newOrder]
      ensures ItemsTotal(ItemsOf(after, o.id)) == o.total
    {
      if o != newOrder {
        assert o in orders;
        var k :| 0 <= k < |orders| && orders[k] == o;
        FilterAppend(items, snapshot, (it: OrderItem) => it.orderId == o.id);
        FilterKeepsNone(snapshot, (it: OrderItem) => it.orderId == o.id);
        assert ItemsOf(after, o.id) == ItemsOf(items, o.id) + [];
        assert ItemsOf(items, o.id) + [] == ItemsOf(items, o.id);
      }
    }
  }

  /** Lines 44-51 of POST /order/checkout: the loop inserting one order item per joined line,
      stopped by a fault of one of its inserts. */
  method InsertOrderItems(db: Tables, orderId: nat, lines: seq<CartLine>, fault: Option<DbFault>)
    returns (failed: Option<string>)
    modifies db`orderItems, db`nextOrderItemId
    ensures db.nextOrderItemId >= old(db.nextOrderItemId)
    ensures failed.Some? <==> fault.Some? && 4 <= fault.value.step < 4 + |lines|
    ensures failed.Some? ==> failed.value == fault.value.message
    ensures failed.None? ==>
              && db.orderItems == old(db.orderItems) + SnapshotItems(lines, orderId, old(db.nextOrderItemId))
              && db.nextOrderItemId == old(db.nextOrderItemId) + |lines|
  {
    var firstItemId := db.nextOrderItemId;
    var i := 0;
    while i < |lines|
      invariant 0 <= i <= |lines|
      invariant db.orderItems == old(db.orderItems) + SnapshotItems(lines[..i], orderId, firstItemId)
      invariant db.nextOrderItemId == firstItemId + i
      invariant !(fault.Some? && 4 <= fault.value.step < 4 + i)
    {
      if FaultAt(fault, 4 + i) {
        return Some(fault.value.message);
      }
      assert SnapshotItems(lines[..i + 1], orderId, firstItemId)
          == SnapshotItems(lines[..i], orderId, firstItemId)
             + [OrderItem(firstItemId + i, orderId, lines[i].productId, lines[i].qty, lines[i].price)];
      db.orderItems := db.orderItems + [OrderItem(db.nextOrderItemId, orderId, lines[i].productId, lines[i].qty, lines[i].price)];
      db.nextOrderItemId := db.nextOrderItemId + 1;
      i := i + 1;
    }
    assert lines[..|lines|] == lines;
    failed := None;
  }

  /** Appending an order under the next order id keeps the orders table well formed. */
  lemma AppendOrderWellFormed(orders: seq<Order>, order: Order)
    requires 1 <= order.id && OrdersWellFormed(orders, order.id)
    ensures OrdersWellFormed(orders + [order], order.id + 1)
  {
    var r := orders + [order];
    forall i, j | 0 <= i < j < |r|
      ensures r[i].id < r[j].id
    {
      if j < |orders| {
        assert r[i] == orders[i] && r[j] == orders[j];
      } else {
        assert r[i] == orders[i];
      }
    }
  }

  /** The snapshot lines, numbered from the next item id under the next order id, keep the
      order_items table well formed. */
  lemma AppendSnapshotWellFormed(items: seq<OrderItem>, lines: seq<CartLine>, orderId: nat, firstItemId: nat)
    requires 1 <= orderId && 1 <= firstItemId
    requires OrderItemsWellFormed(items, firstItemId, orderId)
    ensures OrderItemsWellFormed(items + SnapshotItems(lines, orderId, firstItemId), firstItemId + |lines|, orderId + 1)
  {
    var snapshot := SnapshotItems(lines, orderId, firstItemId);
    var r := items + snapshot;
    forall i | 0 <= i < |r|
      ensures 1 <= r[i].id < firstItemId + |lines| && 1 <= r[i].orderId < orderId + 1
    {
      if i < |items| {
        assert r[i] == items[i];
      } else {
        assert r[i] == snapshot[i - |items|];
      }
    }
  }

  /** The new order and its snapshot lines keep both order tables well formed and every total
      matching. */
  lemma PlacedOrderWellFormed(orders: seq<Order>, items: seq<OrderItem>, orderId: nat, firstItemId: nat,
                              lines: seq<CartLine>, userId: Option<int>, code: string)
    requires 1 <= orderId && 1 <= firstItemId
    requires OrdersWellFormed(orders, orderId) && OrderItemsWellFormed(items, firstItemId, orderId)
    requires TotalsMatch(orders, items)
    ensures OrdersWellFormed(orders + [Order(orderId, userId, OrderTotal(lines), code, Placed)], orderId + 1)
    ensures OrderItemsWellFormed(items + SnapshotItems(lines, orderId, firstItemId), firstItemId + |lines|, orderId + 1)
    ensures TotalsMatch(orders + [Order(orderId, userId, OrderTotal(lines), code, Placed)],
                        items + SnapshotItems(lines, orderId, firstItemId))
  {
    AppendOrderWellFormed(orders, Order(orderId, userId, OrderTotal(lines), code, Placed));
    AppendSnapshotWellFormed(items, lines, orderId, firstItemId);
    CheckoutKeepsTotals(orders, items, orderId, firstItemId, lines, userId, code);
  }

  /** Lines 38-51 of POST /order/checkout: the order insert and the item inserts; the first
      failing statement stops the rest. On success the tables keep every invariant. */
  method PlaceOrder(db: Tables, lines: seq<CartLine>, userId: Option<int>, code: string, fault: Option<DbFault>)
    returns (failed: Option<string>)
    requires db.Valid()
    modifies db`orders, db`orderItems, db`nextOrderId, db`nextOrderItemId
    ensures db.nextOrderId >= old(db.nextOrderId) && db.nextOrderItemId >= old(db.nextOrderItemId)
    ensures failed.Some? <==> fault.Some? && 3 <= fault.value.step < 4 + |lines|
    ensures failed.Some? ==> failed.value == fault.value.message
    ensures failed.None? ==>
              && db.orders == old(db.orders) + [Order(old(db.nextOrderId), userId, OrderTotal(lines), code, Placed)]
              && db.orderItems == old(db.orderItems) + SnapshotItems(lines, old(db.nextOrderId), old(db.nextOrderItemId))
              && db.nextOrderId == old(db.nextOrderId) + 1
              && db.nextOrderItemId == old(db.nextOrderItemId) + |lines|
              && db.Valid()
  {
    if FaultAt(fault, 3) {
      return Some(fault.value.message);
    }
    var orderId := db.nextOrderId;
    var order := Order(orderId, userId, OrderTotal(lines), code, Placed);
    db.orders := db.orders + [order];
    db.nextOrderId := db.nextOrderId + 1;
    failed := InsertOrderItems(db, orderId, lines, fault);
    if failed.Some? {
      return;
    }
    PlacedOrderWellFormed(old(db.orders), old(db.orderItems), orderId, old(db.nextOrderItemId), lines, userId, code);
  }

  /** Lines 38-56 of POST /order/checkout: the order insert, the item inserts, the delete of the
      cart's lines and the commit; the first failing statement stops the rest. On success the
      committed tables keep every invariant of the database. */
  method CommitOrder(db: Tables, cartId: nat, lines: seq<CartLine>, userId: Option<int>, code: string,
                     fault: Option<DbFault>)
    returns (failed: Option<string>)
    requires db.Valid()
    modifies db`cartItems, db`orders, db`orderItems, db`nextOrderId, db`nextOrderItemId
    ensures db.nextOrderId >= old(db.nextOrderId) && db.nextOrderItemId >= old(db.nextOrderItemId)
    ensures failed.Some? <==> fault.Some? && 3 <= fault.value.step <= 5 + |lines|
    ensures failed.Some? ==> failed.value == fault.value.message
    ensures failed.None? ==>
              && db.orders == old(db.orders) + [Order(old(db.nextOrderId), userId, OrderTotal(lines), code, Placed)]
              && db.orderItems == old(db.orderItems) + SnapshotItems(lines, old(db.nextOrderId), old(db.nextOrderItemId))
              && db.cartItems == ClearLines(old(db.cartItems), cartId)
              && db.nextOrderId == old(db.nextOrderId) + 1
              && db.nextOrderItemId == old(db.nextOrderItemId) + |lines|
              && db.Valid()
  {
    failed := PlaceOrder(db, lines, userId, code, fault);
    if failed.Some? {
      return;
    }
    if FaultAt(fault, 4 + |lines|) {
      return Some(fault.value.message);
    }
    DeleteCartLines(db, cartId);
    if FaultAt(fault, 5 + |lines|) {
      return Some(fault.value.message);
    }
  }

  /** Lines 13-55 of POST /order/checkout, inside the try block: the statements run one after the
      other and the first failure stops them, leaving whatever they already wrote. */
  method CheckoutTransaction(db: Tables, sessionId: string, userId: Option<int>, rendering: string, fault: Option<DbFault>)
    returns (outcome: Outcome<Receipt>)
    requires db.Valid() && IsRandomRendering(rendering)
    modifies db`cartItems, db`orders, db`orderItems, db`nextOrderId, db`nextOrderItemId
    ensures db.nextOrderId >= old(db.nextOrderId) && db.nextOrderItemId >= old(db.nextOrderItemId)
    ensures var cart := FindCart(old(db.carts), sessionId);
            var lines := if cart.Some? then JoinCart(old(db.cartItems), old(db.products), cart.value) else [];
            var err := CheckoutError(cart, lines, fault);
            && (err.Some? ==> outcome == Threw(err.value))
            && (err.None? ==>
                  && outcome == Done(Receipt(old(db.nextOrderId), OrderTotal(lines), RandomCode(rendering)))
                  && db.orders == old(db.orders) + [Order(old(db.nextOrderId), StoredUser(userId), OrderTotal(lines), RandomCode(rendering), Placed)]
                  && db.orderItems == old(db.orderItems) + SnapshotItems(lines, old(db.nextOrderId), old(db.nextOrderItemId))
                  && db.cartItems == ClearLines(old(db.cartItems), cart.value)
                  && db.nextOrderId == old(db.nextOrderId) + 1
                  && db.nextOrderItemId == old(db.nextOrderItemId) + |lines|
                  && db.Valid())
    ensures var cart := FindCart(old(db.carts), sessionId);
            var lines := if cart.Some? then JoinCart(old(db.cartItems), old(db.products), cart.value) else [];
            FailsBeforeInsert(cart, lines, fault) ==> unchanged(db)
  {
    if FaultAt(fault, 0) || FaultAt(fault, 1) {
      return Threw(fault.value.message);
    }
    var cart := FindCart(db.carts, sessionId);
    if cart.None? {
      return Threw(CartNotFound);
    }
    var cartId := cart.value;
    if FaultAt(fault, 2) {
      return Threw(fault.value.message);
    }
    var lines := JoinCart(db.cartItems, db.products, cartId);
    if lines == [] {
      return Threw(CartEmpty);
    }
    var total := OrderTotal(lines);
    var pickupCode := RandomCode(rendering, 6);
    var orderId := db.nextOrderId;
    var failed := CommitOrder(db, cartId, lines, StoredUser(userId), pickupCode, fault);
    if failed.Some? {
      return Threw(failed.value);
    }
    outcome := Done(Receipt(orderId, total, pickupCode));
  }

  /** `rollback`: the rows return to those saved at `beginTransaction`; the counters keep the ids
      the failed inserts took, so the restored rows stay well formed under them. */
  method Rollback(db: Tables, cartItems: seq<CartItem>, orders: seq<Order>, orderItems: seq<OrderItem>,
                  ghost savedNextOrderId: nat, ghost savedNextOrderItemId: nat)
    requires 1 <= db.nextCartId && 1 <= db.nextCartItemId && 1 <= savedNextOrderId && 1 <= savedNextOrderItemId
    requires ProductsWellFormed(db.products) && CartsWellFormed(db.carts, db.nextCartId)
    requires CartItemsWellFormed(cartItems, db.nextCartItemId) && LinesInIssuedCarts(cartItems, db.nextCartId)
    requires OrdersWellFormed(orders, savedNextOrderId)
    requires OrderItemsWellFormed(orderItems, savedNextOrderItemId, savedNextOrderId)
    requires TotalsMatch(orders, orderItems)
    requires savedNextOrderId <= db.nextOrderId && savedNextOrderItemId <= db.nextOrderItemId
    modifies db`cartItems, db`orders, db`orderItems
    ensures db.cartItems == cartItems && db.orders == orders && db.orderItems == orderItems
    ensures db.Valid()
  {
    db.cartItems, db.orders, db.orderItems := cartItems, orders, orderItems;
    LaterCountersKeepOrders(orders, orderItems, savedNextOrderId, savedNextOrderItemId,
                            db.nextOrderId, db.nextOrderItemId);
  }

  /** POST /order/checkout: the transaction commits all of its writes or, on any failure, is
      rolled back to the rows it started from. Ids taken by rolled-back inserts are not reused. */
  method Checkout(db: Tables, sessionId: string, userId: Option<int>, rendering: string, fault: Option<DbFault>)
    returns (r: Reply<Receipt>)
    requires db.Valid() && IsRandomRendering(rendering)
    modifies db`cartItems, db`orders, db`orderItems, db`nextOrderId, db`nextOrderItemId
    ensures db.Valid()
    ensures db.carts == old(db.carts) && db.products == old(db.products)
    ensures sessionId == "" ==> r == Fail(BadRequest, SessionRequired) && unchanged(db)
    ensures sessionId != "" ==>
              var cart := FindCart(old(db.carts), sessionId);
              var lines := if cart.Some? then JoinCart(old(db.cartItems), old(db.products), cart.value) else [];
              var err := CheckoutError(cart, lines, fault);
              && (err.Some? ==>
                    && r == Fail(ServerError, err.value)
                    && db.cartItems == old(db.cartItems) && db.orders == old(db.orders) && db.orderItems == old(db.orderItems)
                    && db.nextOrderId >= old(db.nextOrderId) && db.nextOrderItemId >= old(db.nextOrderItemId))
              && (err.None? ==>
                    && r == Ok(Receipt(old(db.nextOrderId), OrderTotal(lines), RandomCode(rendering)))
                    && db.orders == old(db.orders) + [Order(old(db.nextOrderId), StoredUser(userId), OrderTotal(lines), RandomCode(rendering), Placed)]
                    && db.orderItems == old(db.orderItems) + SnapshotItems(lines, old(db.nextOrderId), old(db.nextOrderItemId))
                    && db.cartItems == ClearLines(old(db.cartItems), cart.value)
                    && db.nextOrderId == old(db.nextOrderId) + 1
                    && db.nextOrderItemId == old(db.nextOrderItemId) + |lines|)
              && (FailsBeforeInsert(cart, lines, fault) ==>
                    db.nextOrderId == old(db.nextOrderId) && db.nextOrderItemId == old(db.nextOrderItemId))
  {
    if sessionId == "" {
      return Fail(BadRequest, SessionRequired);
    }
    // beginTransaction: the rows a rollback returns to
    var savedItems, savedOrders, savedOrderItems := db.cartItems, db.orders, db.orderItems;
    ghost var savedNextOrderId, savedNextOrderItemId := db.nextOrderId, db.nextOrderItemId;
    var outcome := CheckoutTransaction(db, sessionId, userId, rendering, fault);
    match outcome
    case Threw(message) =>
      Rollback(db, savedItems, savedOrders, savedOrderItems, savedNextOrderId, savedNextOrderItemId);
      r := Fail(ServerError, message);
    case Done(receipt) =>
      r := Ok(receipt);
  }

  /** `SELECT * FROM orders WHERE id=?`, first row. */
  function OrderIndex(orders: seq<Order>, id: int): Option<nat>
  {
    FirstIndex(orders, (o: Order) => o.id == id)
  }

  /** The JSON body of GET /order/:id: the order's columns and its `items`. */
  datatype OrderView = OrderView(order: Order, items: seq<OrderItem>)

  /** GET /order/:id */
  method GetOrder(db: Tables, id: int) returns (r: Reply<OrderView>)
    requires db.Valid()
    ensures r.Fail? <==> forall o :: o in db.orders ==> o.id != id
    ensures r.Fail? ==> r == Fail(NotFound, OrderNotFound)
    ensures r.Ok? ==> && r.value.order in db.orders && r.value.order.id == id
                      && r.value.items == ItemsOf(db.orderItems, id)
                      && (forall it :: it in r.value.items ==> it in db.orderItems && it.orderId == id)
                      && ItemsTotal(r.value.items) == r.value.order.total
  {
    var found := OrderIndex(db.orders, id);
    if found.None? {
      return Fail(NotFound, OrderNotFound);
    }
    var order := db.orders[found.value];
    r := Ok(OrderView(order, ItemsOf(db.orderItems, id)));
  }

  /** `SELECT * FROM orders WHERE pickup_code=?`, first row. */
  function CodeIndex(orders: seq<Order>, pickupCode: string): Option<nat>
  {
    FirstIndex(orders, (o: Order) => o.pickupCode == pickupCode)
  }

  /** `UPDATE orders SET status="fulfilled" WHERE id=?` */
  function MarkFulfilled(orders: seq<Order>, id: nat): seq<Order>
  {
    seq(|orders|, i requires 0 <= i < |orders| =>
      if orders[i].id == id then orders[i].(status := Fulfilled) else orders[i])
  }

  /** Order ids are unique, so the update touches exactly the one order, whatever its status. */
  lemma MarkFulfilledOnlyThatOrder(orders: seq<Order>, k: nat, next: nat)
    requires OrdersWellFormed(orders, next) && k < |orders|
    ensures MarkFulfilled(orders, orders[k].id) == orders[k := orders[k].(status := Fulfilled)]
  {
    var r := MarkFulfilled(orders, orders[k].id);
    forall i | 0 <= i < |orders|
      ensures r[i] == orders[k := orders[k].(status := Fulfilled)][i]
    {
      if i < k {
        assert orders[i].id < orders[k].id;
      } else if i > k {
        assert orders[k].id < orders[i].id;
      }
    }
  }

  /** Fulfilling an order keeps the orders table well formed and every total matching. */
  lemma FulfilledKeepsInvariants(orders: seq<Order>, items: seq<OrderItem>, k: nat, next: nat)
    requires OrdersWellFormed(orders, next) && TotalsMatch(orders, items) && k < |orders|
    ensures var after := orders[k := orders[k].(status := Fulfilled)];
            OrdersWellFormed(after, next) && TotalsMatch(after, items)
  {
    var after := orders[k := orders[k].(status := Fulfilled)];
    forall o | o in after
      ensures ItemsTotal(ItemsOf(items, o.id)) == o.total
    {
      var j :| 0 <= j < |after| && after[j] == o;
      assert orders[j] in orders;
    }
  }

  /** A second pickup with the same code finds the same order and changes nothing more. */
  lemma PickupRepeats(orders: seq<Order>, pickupCode: string, next: nat)
    requires OrdersWellFormed(orders, next) && CodeIndex(orders, pickupCode).Some?
    ensures var k := CodeIndex(orders, pickupCode).value;
            var after := orders[k := orders[k].(status := Fulfilled)];
            && CodeIndex(after, pickupCode) == Some(k)
            && after[k].id == orders[k].id
            && after[k := after[k].(status := Fulfilled)] == after
  {
    var k := CodeIndex(orders, pickupCode).value;
    var after := orders[k := orders[k].(status := Fulfilled)];
    var p := (o: Order) => o.pickupCode == pickupCode;
    assert forall j :: 0 <= j < |orders| ==> p(after[j]) == p(orders[j]);
    var k2 := CodeIndex(after, pickupCode);
    assert k2.Some? && k2.value == k;
  }

  /** POST /order/pickup `{ pickupCode }`: the order with that code becomes fulfilled, with no
      check of its previous status. */
  method Pickup(db: Tables, pickupCode: string) returns (r: Reply<nat>)
    requires db.Valid()
    modifies db`orders
    ensures db.Valid()
    ensures pickupCode == "" ==> r == Fail(BadRequest, PickupCodeRequired) && db.orders == old(db.orders)
    ensures pickupCode != "" && CodeIndex(old(db.orders), pickupCode).None? ==>
              r == Fail(NotFound, InvalidPickupCode) && db.orders == old(db.orders)
    ensures pickupCode != "" && CodeIndex(old(db.orders), pickupCode).Some? ==>
              var k := CodeIndex(old(db.orders), pickupCode).value;
              && r == Ok(old(db.orders)[k].id)
              && db.orders == old(db.orders)[k := old(db.orders)[k].(status := Fulfilled)]
  {
    if pickupCode == "" {
      return Fail(BadRequest, PickupCodeRequired);
    }
    var found := CodeIndex(db.orders, pickupCode);
    if found.None? {
      return Fail(NotFound, InvalidPickupCode);
    }
    var k := found.value;
    var id := db.orders[k].id;
    MarkFulfilledOnlyThatOrder(db.orders, k, db.nextOrderId);
    FulfilledKeepsInvariants(db.orders, db.orderItems, k, db.nextOrderId);
    db.orders := MarkFulfilled(db.orders, id);
    r := Ok(id);
  }
}
