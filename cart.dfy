/** The cart routes (`/cart`): find-or-create of a session's cart, the cart view, add, remove
    and clear. Each SQL statement is a table operation: SELECT ... WHERE is a lookup or a filter,
    the JOIN keeps the lines whose product exists, DELETE is a filter-out. */
module CartRoutes {
  import opened Common
  import opened Seqs
  import opened Store

  const SessionRequired := "X-Session-Id required"
  const ProductRequired := "productId required"
  const CartItemRequired := "cartItemId required"

  /** `SELECT id FROM carts WHERE session_id=?`, taking `found[0].id`. */
  function FindCart(carts: seq<Cart>, sessionId: string): (r: Option<nat>)
    ensures r.None? <==> forall c :: c in carts ==> c.sessionId != sessionId
    ensures r.Some? ==> Cart(r.value, sessionId) in carts
  {
    match FirstIndex(carts, (c: Cart) => c.sessionId == sessionId)
    case None => None
    case Some(k) => Some(carts[k].id)
  }

  /** The carts table after `ensureCart`: unchanged when the session has a cart, otherwise with
      one new row for the session under the next id. */
  function WithCart(carts: seq<Cart>, sessionId: string, nextId: nat): seq<Cart>
  {
    if FindCart(carts, sessionId).Some? then carts else carts + [Cart(nextId, sessionId)]
  }

  /** After `ensureCart` the session's cart is found: the one that existed, or the new row. */
  lemma {:induction false} WithCartFinds(carts: seq<Cart>, sessionId: string, nextId: nat)
    ensures FindCart(WithCart(carts, sessionId, nextId), sessionId)
         == Some(if FindCart(carts, sessionId).Some? then FindCart(carts, sessionId).value else nextId)
  {
    if FindCart(carts, sessionId).None? {
      var s := carts + [Cart(nextId, sessionId)];
      var p := (c: Cart) => c.sessionId == sessionId;
      var k := FirstIndex(s, p);
      assert p(s[|carts|]);
      assert k.Some? && k.value == |carts|;
    }
  }

  /** A second `ensureCart` for the same session changes nothing. */
  lemma {:induction false} WithCartIdempotent(carts: seq<Cart>, sessionId: string, nextId: nat, laterId: nat)
    ensures WithCart(WithCart(carts, sessionId, nextId), sessionId, laterId) == WithCart(carts, sessionId, nextId)
  {
    WithCartFinds(carts, sessionId, nextId);
  }

  /** A cart that is found has an id already issued. */
  lemma FoundCartIssued(carts: seq<Cart>, sessionId: string, next: nat)
    requires CartsWellFormed(carts, next) && FindCart(carts, sessionId).Some?
    ensures 1 <= FindCart(carts, sessionId).value < next
  {
    var k :| 0 <= k < |carts| && carts[k] == Cart(FindCart(carts, sessionId).value, sessionId);
  }

  /** Find-or-create keeps the carts well formed: the only insert is for a session without a
      cart, under the next id, so ids stay ascending and sessions stay unique. */
  lemma WithCartKeepsSessionsUnique(carts: seq<Cart>, sessionId: string, next: nat)
    requires 1 <= next && CartsWellFormed(carts, next)
    ensures CartsWellFormed(WithCart(carts, sessionId, next),
                            if FindCart(carts, sessionId).Some? then next else next + 1)
  {
    if FindCart(carts, sessionId).None? {
      var r := carts + [Cart(next, sessionId)];
      forall i, j | 0 <= i < j < |r|
        ensures r[i].id < r[j].id && r[i].sessionId != r[j].sessionId
      {
        assert r[i] == carts[i] && carts[i] in carts;
      }
    }
  }

  /** With sessions unique, the lookup picks out the session's one cart: any cart row with that
      session is the one found. */
  lemma FindCartUnique(carts: seq<Cart>, next: nat, sessionId: string, k: nat)
    requires CartsWellFormed(carts, next) && k < |carts| && carts[k].sessionId == sessionId
    ensures FindCart(carts, sessionId) == Some(carts[k].id)
  {
    var j := FirstIndex(carts, (c: Cart) => c.sessionId == sessionId);
    assert j.Some? && j.value <= k;
  }

  /** `ensureCart(pool, sessionId)`: the id of the session's cart, inserting one if none exists. */
  method EnsureCart(db: Tables, sessionId: string) returns (cartId: nat)
    requires db.Valid()
    modifies db`carts, db`nextCartId
    ensures db.Valid()
    ensures db.carts == WithCart(old(db.carts), sessionId, old(db.nextCartId))
    ensures FindCart(db.carts, sessionId) == Some(cartId) && 1 <= cartId < db.nextCartId
    ensures old(FindCart(db.carts, sessionId)).Some? ==>
              cartId == old(FindCart(db.carts, sessionId)).value && db.nextCartId == old(db.nextCartId)
    ensures old(FindCart(db.carts, sessionId)).None? ==>
              cartId == old(db.nextCartId) && db.nextCartId == old(db.nextCartId) + 1
  {
    WithCartFinds(db.carts, sessionId, db.nextCartId);
    WithCartKeepsSessionsUnique(db.carts, sessionId, db.nextCartId);
    var found := FindCart(db.carts, sessionId);
    if found.Some? {
      FoundCartIssued(db.carts, sessionId, db.nextCartId);
      return found.value;
    }
    cartId := db.nextCartId;
    db.carts := db.carts + [Cart(cartId, sessionId)];
    db.nextCartId := db.nextCartId + 1;
  }

  /** `SELECT ... FROM products WHERE id=?`, first row. */
  function ProductIndex(products: seq<Product>, productId: int): Option<nat>
  {
    FirstIndex(products, (p: Product) => p.id == productId)
  }

  /** The inner join of one cart line with products on `p.id = ci.product_id`. */
  function JoinRow(item: CartItem, products: seq<Product>): (r: Option<CartLine>)
    ensures r.None? <==> forall p :: p in products ==> p.id != item.productId
    ensures r.Some? ==> && r.value.id == item.id && r.value.productId == item.productId
                        && r.value.qty == item.qty && r.value.subtotal == r.value.price * r.value.qty
                        && Product(item.productId, r.value.name, r.value.price) in products
  {
    match ProductIndex(products, item.productId)
    case None => None
    case Some(k) =>
      var p := products[k];
      Some(CartLine(item.id, item.productId, p.name, p.price, item.qty, p.price * item.qty))
  }

  /** With product ids unique, as in every valid database, the join of a line takes the one
      product with its id, so the inner join yields exactly one row per line. */
  lemma JoinRowIsThatProduct(item: CartItem, products: seq<Product>, k: nat)
    requires ProductsWellFormed(products) && k < |products| && products[k].id == item.productId
    ensures JoinRow(item, products)
         == Some(CartLine(item.id, item.productId, products[k].name, products[k].price, item.qty, products[k].price * item.qty))
  {
    var j := ProductIndex(products, item.productId);
    assert j.Some? && j.value <= k;
  }

  /** The rows of `cart_items ci JOIN products p ON p.id = ci.product_id WHERE ci.cart_id=?`,
      with `p.price * ci.qty AS subtotal`, in table order. */
  function JoinCart(items: seq<CartItem>, products: seq<Product>, cartId: nat): (r: seq<CartLine>)
    ensures |r| <= |items|
    ensures forall line :: line in r ==> line.subtotal == line.price * line.qty
    ensures forall line :: line in r ==>
              exists it :: it in items && it.cartId == cartId && JoinRow(it, products) == Some(line)
    ensures forall it :: it in items && it.cartId == cartId && JoinRow(it, products).Some? ==>
              JoinRow(it, products).value in r
  {
    if items == [] then []
    else
      assert items == [items[0]] + items[1..];
      var rest := JoinCart(items[1..], products, cartId);
      var row := JoinRow(items[0], products);
      if items[0].cartId == cartId && row.Some? then [row.value] + rest else rest
  }

  /** The view is exactly the cart's joinable lines, each joined once, in table order. */
  lemma {:induction false} JoinCartIsJoinableRows(items: seq<CartItem>, products: seq<Product>, cartId: nat)
    ensures var joinable := Filter(items, (it: CartItem) => it.cartId == cartId && JoinRow(it, products).Some?);
            var r := JoinCart(items, products, cartId);
            && |r| == |joinable|
            && forall k :: 0 <= k < |r| ==> JoinRow(joinable[k], products) == Some(r[k])
  {
    if items != [] {
      var keep := (it: CartItem) => it.cartId == cartId && JoinRow(it, products).Some?;
      JoinCartIsJoinableRows(items[1..], products, cartId);
      var rest := JoinCart(items[1..], products, cartId);
      var joinableRest := Filter(items[1..], keep);
      if keep(items[0]) {
        assert Filter(items, keep) == [items[0]] + joinableRest;
        assert JoinCart(items, products, cartId) == [JoinRow(items[0], products).value] + rest;
      } else {
        assert Filter(items, keep) == joinableRest;
        assert JoinCart(items, products, cartId) == rest;
      }
    }
  }

  /** `rows.reduce((s, r) => s + Number(r.subtotal), 0)` */
  function Total(lines: seq<CartLine>): nat
  {
    if lines == [] then 0 else lines[0].subtotal + Total(lines[1..])
  }

  /** A cart whose lines all lack a joinable product shows no rows and a total of 0. */
  lemma JoinOfNothing(items: seq<CartItem>, products: seq<Product>, cartId: nat)
    requires forall it :: it in items ==> it.cartId != cartId || JoinRow(it, products).None?
    ensures JoinCart(items, products, cartId) == [] && Total(JoinCart(items, products, cartId)) == 0
  {
  }

  /** A cart created after every existing line has none of them: its view is empty. */
  lemma FreshCartJoinsNothing(items: seq<CartItem>, products: seq<Product>, nextCart: nat)
    requires LinesInIssuedCarts(items, nextCart)
    ensures JoinCart(items, products, nextCart) == [] && Total(JoinCart(items, products, nextCart)) == 0
  {
    forall it | it in items
      ensures it.cartId != nextCart
    {
      var k :| 0 <= k < |items| && items[k] == it;
    }
    JoinOfNothing(items, products, nextCart);
  }

  /** GET /cart: the session's cart, created if missing, as joined rows and their total. */
  method ViewCart(db: Tables, sessionId: string) returns (r: Reply<CartView>)
    requires db.Valid()
    modifies db`carts, db`nextCartId
    ensures db.Valid()
    ensures sessionId == "" ==>
              r == Fail(BadRequest, SessionRequired) && db.carts == old(db.carts) && db.nextCartId == old(db.nextCartId)
    ensures sessionId != "" ==>
              && db.carts == WithCart(old(db.carts), sessionId, old(db.nextCartId))
              && FindCart(db.carts, sessionId).Some?
              && db.nextCartId == old(db.nextCartId) + (if old(FindCart(db.carts, sessionId)).None? then 1 else 0)
              && var lines := JoinCart(db.cartItems, db.products, FindCart(db.carts, sessionId).value);
                 r == Ok(CartView(lines, Total(lines)))
    ensures sessionId != "" && old(FindCart(db.carts, sessionId)).None? ==> r == Ok(CartView([], 0))
  {
    if sessionId == "" {
      return Fail(BadRequest, SessionRequired);
    }
    FreshCartJoinsNothing(db.cartItems, db.products, db.nextCartId);
    var cartId := EnsureCart(db, sessionId);
    var rows := JoinCart(db.cartItems, db.products, cartId);
    r := Ok(CartView(rows, Total(rows)));
  }

  /** `n = Math.max(1, parseInt(qty || 1, 10))` for an integer or absent `qty`. */
  function Quantity(qty: Option<int>): (n: nat)
    ensures n >= 1
    ensures qty.Some? && qty.value >= 1 ==> n == qty.value
    ensures qty.None? || qty.value <= 1 ==> n == 1
  {
    var parsed := if qty.None? || qty.value == 0 then 1 else qty.value;
    if parsed < 1 then 1 else parsed
  }

  /** `SELECT id, qty FROM cart_items WHERE cart_id=? AND product_id=?`, first row. */
  function LineIndex(items: seq<CartItem>, cartId: nat, productId: int): Option<nat>
  {
    FirstIndex(items, (it: CartItem) => it.cartId == cartId && it.productId == productId)
  }

  /** `UPDATE cart_items SET qty = qty + ? WHERE id=?` */
  function AddQty(items: seq<CartItem>, id: nat, n: nat): seq<CartItem>
  {
    seq(|items|, i requires 0 <= i < |items| =>
      if items[i].id == id then items[i].(qty := items[i].qty + n) else items[i])
  }

  /** The cart_items table after POST /cart/add has resolved the cart: the existing line for the
      product is raised by n, or a line `(nextId, cartId, productId, n)` is inserted. */
  function AddLine(items: seq<CartItem>, cartId: nat, productId: int, n: nat, nextId: nat): seq<CartItem>
  {
    match LineIndex(items, cartId, productId)
    case Some(k) => AddQty(items, items[k].id, n)
    case None => items + [CartItem(nextId, cartId, productId, n)]
  }

  /** Adding either raises exactly the one existing line for (cart, product), leaving every other
      line as it was, or appends exactly one new line because none existed. */
  lemma AddLineEffect(items: seq<CartItem>, cartId: nat, productId: int, n: nat, nextId: nat)
    requires CartItemsWellFormed(items, nextId)
    ensures LineIndex(items, cartId, productId).Some? ==>
              var k := LineIndex(items, cartId, productId).value;
              && items[k].cartId == cartId && items[k].productId == productId
              && AddLine(items, cartId, productId, n, nextId) == items[k := items[k].(qty := items[k].qty + n)]
    ensures LineIndex(items, cartId, productId).None? ==>
              && (forall it :: it in items ==> !(it.cartId == cartId && it.productId == productId))
              && AddLine(items, cartId, productId, n, nextId) == items + [CartItem(nextId, cartId, productId, n)]
  {
    match LineIndex(items, cartId, productId)
    case Some(k) =>
      var r := AddLine(items, cartId, productId, n, nextId);
      var expected := items[k := items[k].(qty := items[k].qty + n)];
      assert |r| == |expected|;
      forall i | 0 <= i < |r|
        ensures r[i] == expected[i]
      {
        if i < k {
          assert items[i].id < items[k].id;
        } else if i > k {
          assert items[k].id < items[i].id;
        }
      }
    case None =>
      forall it | it in items
        ensures !(it.cartId == cartId && it.productId == productId)
      {
        var j :| 0 <= j < |items| && items[j] == it;
      }
  }

  /** Adding keeps the line table well formed, in particular at most one line per
      (cart_id, product_id); the counter advances exactly when a row was inserted. */
  lemma AddLineKeepsWellFormed(items: seq<CartItem>, cartId: nat, productId: int, n: nat, nextId: nat)
    requires CartItemsWellFormed(items, nextId)
    requires n >= 1 && nextId >= 1
    ensures CartItemsWellFormed(AddLine(items, cartId, productId, n, nextId),
                                if LineIndex(items, cartId, productId).Some? then nextId else nextId + 1)
  {
    AddLineEffect(items, cartId, productId, n, nextId);
    var r := AddLine(items, cartId, productId, n, nextId);
    if LineIndex(items, cartId, productId).Some? {
      var k := LineIndex(items, cartId, productId).value;
      forall i, j | 0 <= i < j < |r|
        ensures r[i].id < r[j].id && !SameLine(r[i], r[j])
      {
        assert items[i].id < items[j].id && !SameLine(items[i], items[j]);
      }
    } else {
      var x := CartItem(nextId, cartId, productId, n);
      forall i, j | 0 <= i < j < |r|
        ensures r[i].id < r[j].id && !SameLine(r[i], r[j])
      {
        if j == |items| {
          assert r[i] == items[i] && items[i] in items;
        } else {
          assert r[i] == items[i] && r[j] == items[j];
        }
      }
    }
  }

  /** Adding a line to an issued cart keeps every line in an issued cart. */
  lemma AddLineKeepsLinesInIssuedCarts(items: seq<CartItem>, cartId: nat, productId: int, n: nat, nextId: nat, nextCart: nat)
    requires LinesInIssuedCarts(items, nextCart) && 1 <= cartId < nextCart
    ensures LinesInIssuedCarts(AddLine(items, cartId, productId, n, nextId), nextCart)
  {
  }

  /** Lines 43-58 of POST /cart/add: look up the (cart, product) line, then UPDATE it or INSERT one. */
  method UpsertLine(db: Tables, cartId: nat, productId: int, n: nat)
    requires db.Valid() && n >= 1 && 1 <= cartId < db.nextCartId
    modifies db`cartItems, db`nextCartItemId
    ensures db.Valid()
    ensures db.cartItems == AddLine(old(db.cartItems), cartId, productId, n, old(db.nextCartItemId))
    ensures db.nextCartItemId == if LineIndex(old(db.cartItems), cartId, productId).Some?
                                 then old(db.nextCartItemId) else old(db.nextCartItemId) + 1
  {
    AddLineKeepsWellFormed(db.cartItems, cartId, productId, n, db.nextCartItemId);
    AddLineKeepsLinesInIssuedCarts(db.cartItems, cartId, productId, n, db.nextCartItemId, db.nextCartId);
    var existing := LineIndex(db.cartItems, cartId, productId);
    if existing.Some? {
      db.cartItems := AddQty(db.cartItems, db.cartItems[existing.value].id, n);
    } else {
      db.cartItems := db.cartItems + [CartItem(db.nextCartItemId, cartId, productId, n)];
      db.nextCartItemId := db.nextCartItemId + 1;
    }
  }

  /** POST /cart/add `{ productId, qty }`. */
  method AddToCart(db: Tables, sessionId: string, productId: Option<int>, qty: Option<int>) returns (r: Reply<()>)
    requires db.Valid()
    modifies db`carts, db`nextCartId, db`cartItems, db`nextCartItemId
    ensures db.Valid()
    ensures sessionId == "" ==> r == Fail(BadRequest, SessionRequired)
    ensures sessionId != "" && (productId.None? || productId.value == 0) ==> r == Fail(BadRequest, ProductRequired)
    ensures r.Fail? ==> && db.carts == old(db.carts) && db.nextCartId == old(db.nextCartId)
                        && db.cartItems == old(db.cartItems) && db.nextCartItemId == old(db.nextCartItemId)
    ensures r.Ok? <==> sessionId != "" && productId.Some? && productId.value != 0
    ensures r.Ok? ==>
              && db.carts == WithCart(old(db.carts), sessionId, old(db.nextCartId))
              && FindCart(db.carts, sessionId).Some?
              && db.cartItems == AddLine(old(db.cartItems), FindCart(db.carts, sessionId).value,
                                         productId.value, Quantity(qty), old(db.nextCartItemId))
              && db.nextCartId == old(db.nextCartId) + (if old(FindCart(db.carts, sessionId)).None? then 1 else 0)
              && db.nextCartItemId
                 == old(db.nextCartItemId)
                    + (if LineIndex(old(db.cartItems), FindCart(db.carts, sessionId).value, productId.value).Some? then 0 else 1)
  {
    if sessionId == "" {
      return Fail(BadRequest, SessionRequired);
    }
    if productId.None? || productId.value == 0 {
      return Fail(BadRequest, ProductRequired);
    }
    var n := Quantity(qty);
    var cartId := EnsureCart(db, sessionId);
    UpsertLine(db, cartId, productId.value, n);
    r := Ok(());
  }

  /** `DELETE FROM cart_items WHERE id=? AND cart_id=?` */
  function RemoveLine(items: seq<CartItem>, cartItemId: int, cartId: nat): (r: seq<CartItem>)
    ensures forall it :: it in r <==> it in items && !(it.id == cartItemId && it.cartId == cartId)
    ensures IsSubsequence(r, items)
  {
    Filter(items, (it: CartItem) => !(it.id == cartItemId && it.cartId == cartId))
  }

  /** Removing an id that is not a line of this cart is a no-op. */
  lemma RemoveLineWithoutMatch(items: seq<CartItem>, cartItemId: int, cartId: nat)
    requires forall it :: it in items ==> !(it.id == cartItemId && it.cartId == cartId)
    ensures RemoveLine(items, cartItemId, cartId) == items
  {
    FilterKeepsAll(items, (it: CartItem) => !(it.id == cartItemId && it.cartId == cartId));
  }

  /** Line 74 of POST /cart/remove: `DELETE FROM cart_items WHERE id=? AND cart_id=?`. */
  method DeleteLine(db: Tables, cartItemId: int, cartId: nat)
    requires db.Valid()
    modifies db`cartItems
    ensures db.Valid()
    ensures db.cartItems == RemoveLine(old(db.cartItems), cartItemId, cartId)
  {
    FilterKeepsCartItemsWellFormed(db.cartItems, (it: CartItem) => !(it.id == cartItemId && it.cartId == cartId), db.nextCartItemId);
    FilterKeepsLinesInIssuedCarts(db.cartItems, (it: CartItem) => !(it.id == cartItemId && it.cartId == cartId), db.nextCartId);
    db.cartItems := RemoveLine(db.cartItems, cartItemId, cartId);
  }

  /** POST /cart/remove `{ cartItemId }`: deletes the line only when it belongs to the session's
      cart (which is created first if missing). */
  method RemoveFromCart(db: Tables, sessionId: string, cartItemId: Option<int>) returns (r: Reply<()>)
    requires db.Valid()
    modifies db`carts, db`nextCartId, db`cartItems
    ensures db.Valid()
    ensures sessionId == "" ==> r == Fail(BadRequest, SessionRequired)
    ensures sessionId != "" && (cartItemId.None? || cartItemId.value == 0) ==> r == Fail(BadRequest, CartItemRequired)
    ensures r.Fail? ==> db.carts == old(db.carts) && db.nextCartId == old(db.nextCartId) && db.cartItems == old(db.cartItems)
    ensures r.Ok? <==> sessionId != "" && cartItemId.Some? && cartItemId.value != 0
    ensures r.Ok? ==>
              && db.carts == WithCart(old(db.carts), sessionId, old(db.nextCartId))
              && FindCart(db.carts, sessionId).Some?
              && db.cartItems == RemoveLine(old(db.cartItems), cartItemId.value, FindCart(db.carts, sessionId).value)
              && db.nextCartId == old(db.nextCartId) + (if old(FindCart(db.carts, sessionId)).None? then 1 else 0)
  {
    if sessionId == "" {
      return Fail(BadRequest, SessionRequired);
    }
    if cartItemId.None? || cartItemId.value == 0 {
      return Fail(BadRequest, CartItemRequired);
    }
    var cartId := EnsureCart(db, sessionId);
    DeleteLine(db, cartItemId.value, cartId);
    r := Ok(());
  }

  /** `DELETE FROM cart_items WHERE cart_id=?` */
  function ClearLines(items: seq<CartItem>, cartId: nat): (r: seq<CartItem>)
    ensures forall it :: it in r <==> it in items && it.cartId != cartId
    ensures IsSubsequence(r, items)
  {
    Filter(items, (it: CartItem) => it.cartId != cartId)
  }

  /** `DELETE FROM cart_items WHERE cart_id=?`, run by POST /cart/clear and by checkout. */
  method DeleteCartLines(db: Tables, cartId: nat)
    requires db.Valid()
    modifies db`cartItems
    ensures db.Valid()
    ensures db.cartItems == ClearLines(old(db.cartItems), cartId)
  {
    FilterKeepsCartItemsWellFormed(db.cartItems, (it: CartItem) => it.cartId != cartId, db.nextCartItemId);
    FilterKeepsLinesInIssuedCarts(db.cartItems, (it: CartItem) => it.cartId != cartId, db.nextCartId);
    db.cartItems := ClearLines(db.cartItems, cartId);
  }

  /** After clearing, the cart view of that cart is empty with total 0. */
  lemma ClearedCartJoinsNothing(items: seq<CartItem>, products: seq<Product>, cartId: nat)
    ensures JoinCart(ClearLines(items, cartId), products, cartId) == []
    ensures Total(JoinCart(ClearLines(items, cartId), products, cartId)) == 0
  {
    JoinOfNothing(ClearLines(items, cartId), products, cartId);
  }

  /** Clearing leaves the lines of every other cart in place, in order. */
  lemma {:induction false} ClearLinesKeepsOtherCarts(items: seq<CartItem>, cartId: nat, other: nat)
    requires other != cartId
    ensures Filter(ClearLines(items, cartId), (it: CartItem) => it.cartId == other)
         == Filter(items, (it: CartItem) => it.cartId == other)
  {
    if items != [] {
      assert items == [items[0]] + items[1..];
      ClearLinesKeepsOtherCarts(items[1..], cartId, other);
      FilterAppend([items[0]], items[1..], (it: CartItem) => it.cartId != cartId);
      FilterAppend([items[0]], items[1..], (it: CartItem) => it.cartId == other);
      var cleared := Filter(items[1..], (it: CartItem) => it.cartId != cartId);
      if items[0].cartId != cartId {
        FilterAppend([items[0]], cleared, (it: CartItem) => it.cartId == other);
      }
    }
  }

  /** The body of POST /cart/clear (lines 88-94) with the undefined `getUserIdFromReq` taken as
      yielding no user: every line of the session's cart is deleted; the cart row stays. The user
      id the route passes to `ensureCart` as a third argument is ignored there, so it is not a
      parameter here. */
  method ClearCart(db: Tables, sessionId: string) returns (r: Reply<()>)
    requires db.Valid()
    modifies db`carts, db`nextCartId, db`cartItems
    ensures db.Valid()
    ensures sessionId == "" ==>
              && r == Fail(BadRequest, "X-Session-Id or user token required")
              && db.carts == old(db.carts) && db.nextCartId == old(db.nextCartId) && db.cartItems == old(db.cartItems)
    ensures sessionId != "" ==>
              && r == Ok(())
              && db.carts == WithCart(old(db.carts), sessionId, old(db.nextCartId))
              && FindCart(db.carts, sessionId).Some?
              && db.cartItems == ClearLines(old(db.cartItems), FindCart(db.carts, sessionId).value)
              && db.nextCartId == old(db.nextCartId) + (if old(FindCart(db.carts, sessionId)).None? then 1 else 0)
  {
    if sessionId == "" {
      return Fail(BadRequest, "X-Session-Id or user token required");
    }
    var cartId := EnsureCart(db, sessionId);
    DeleteCartLines(db, cartId);
    r := Ok(());
  }

  /** POST /cart/clear as written: line 84 calls `getUserIdFromReq`, which is defined nowhere, so
      the handler throws a ReferenceError before its try block and no table is touched. */
  method ClearRouteAsWritten(db: Tables, sessionId: string) returns (r: Reply<()>)
    ensures r == Unhandled("getUserIdFromReq is not defined")
  {
    r := Unhandled("getUserIdFromReq is not defined");
  }

  /** One line in a session's cart: the route as written leaves it there, the corrected clear
      removes it. */
  method ClearCounterexample() returns (before: nat, afterAsWritten: nat, afterCorrected: nat)
    ensures before == 1 && afterAsWritten == 1 && afterCorrected == 0
  {
    var db := new Tables([Product(7, "Tea", 250)]);
    assert FindCart([], "s1") == None && LineIndex([], 1, 7) == None;
    var added := AddToCart(db, "s1", Some(7), None);
    assert WithCart([], "s1", 1) == [Cart(1, "s1")];
    var cartId := FindCart(db.carts, "s1").value;
    assert cartId == 1 && db.cartItems == [CartItem(1, 1, 7, 1)];
    before := |db.cartItems| - |ClearLines(db.cartItems, cartId)|;
    var thrown := ClearRouteAsWritten(db, "s1");
    afterAsWritten := |db.cartItems| - |ClearLines(db.cartItems, cartId)|;
    var cleared := ClearCart(db, "s1");
    afterCorrected := |db.cartItems| - |ClearLines(db.cartItems, cartId)|;
  }
}
