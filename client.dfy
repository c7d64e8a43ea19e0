/** The storefront page (`frontend/app.js`): the session id kept in localStorage, product search
    and category chips over the loaded catalog, the cart badge, the place-order button and the
    add-to-cart request that waits for a login. */
module Client {
  import opened Common
  import opened Seqs
  import opened Store

  const SessionKey := "uqms_session"
  const TokenKey := "uqms_token"
  const NameKey := "uqms_name"
  const EmptyCartMessage := "Cart is empty"
  const AllChip := "All"

  /** A product as `GET /catalog` returns it to the page; `name` and `category` may be null. */
  datatype CatalogEntry = CatalogEntry(id: int, name: Option<string>, category: Option<string>, price: nat)

  // ---------------------------------------------------------------------------------------------
  // localStorage

  /** `localStorage.getItem(key)` read as a condition: a missing key (null) and "" are both falsy. */
  function Stored(storage: map<string, string>, key: string): Option<string>
  {
    if key in storage && storage[key] != "" then Some(storage[key]) else None
  }

  /** `setItem(key, value)` then `getItem`: the key reads back the value unless it is empty, and
      every other key reads as before. */
  lemma StoredAfterWrite(storage: map<string, string>, key: string, value: string, other: string)
    ensures Stored(storage[key := value], key) == if value == "" then None else Some(value)
    ensures other != key ==> Stored(storage[key := value], other) == Stored(storage, other)
  {
  }

  /** The id `getSessionId` returns, where `generated` is the id `crypto.randomUUID()` (or
      `String(Date.now())`) would produce. */
  function SessionId(storage: map<string, string>, generated: string): string
  {
    match Stored(storage, SessionKey)
    case Some(sid) => sid
    case None => generated
  }

  /** The storage after `getSessionId`: the generated id is written only when none is stored. */
  function WithSession(storage: map<string, string>, generated: string): map<string, string>
  {
    if Stored(storage, SessionKey).Some? then storage else storage[SessionKey := generated]
  }

  /** Once `getSessionId` has run, the id is stored, and every later call returns that same id and
      writes nothing, whatever id it would have generated. */
  lemma SessionIdIsStable(storage: map<string, string>, generated: string, later: string)
    requires generated != ""
    ensures var after := WithSession(storage, generated);
            && Stored(after, SessionKey) == Some(SessionId(storage, generated))
            && SessionId(after, later) == SessionId(storage, generated)
            && WithSession(after, later) == after
  {
  }

  /** Only the session key is ever written by `getSessionId`; a stored id is never replaced. */
  lemma WithSessionTouchesOnlyItsKey(storage: map<string, string>, generated: string)
    ensures forall k :: k in storage && k != SessionKey ==> k in WithSession(storage, generated) && WithSession(storage, generated)[k] == storage[k]
    ensures Stored(storage, SessionKey).Some? ==> WithSession(storage, generated) == storage
  {
  }

  // ---------------------------------------------------------------------------------------------
  // search

  /** The characters `String.prototype.trim` removes: ECMAScript WhiteSpace and LineTerminator. */
  predicate IsWhitespace(c: char)
  {
    var n := c as int;
    || (0x09 <= n <= 0x0D) || n == 0x20 || n == 0xA0 || n == 0x1680
    || (0x2000 <= n <= 0x200A) || n == 0x2028 || n == 0x2029 || n == 0x202F || n == 0x205F
    || n == 0x3000 || n == 0xFEFF
  }

  /** Drops the leading whitespace: the result is a suffix of s, what was dropped is all
      whitespace, and the result does not start with whitespace. */
  function TrimStart(s: string): (r: string)
    ensures |r| <= |s| && r == s[|s| - |r|..]
    ensures forall i :: 0 <= i < |s| - |r| ==> IsWhitespace(s[i])
    ensures r != [] ==> !IsWhitespace(r[0])
  {
    if s != [] && IsWhitespace(s[0]) then
      var r := TrimStart(s[1..]);
      assert forall i :: 1 <= i < |s| - |r| ==> s[i] == s[1..][i - 1];
      r
    else s
  }

  /** Drops the trailing whitespace: the result is a prefix of s, what was dropped is all
      whitespace, and the result does not end with whitespace. */
  function TrimEnd(s: string): (r: string)
    ensures |r| <= |s| && r == s[..|r|]
    ensures forall i :: |r| <= i < |s| ==> IsWhitespace(s[i])
    ensures r != [] ==> !IsWhitespace(r[|r| - 1])
  {
    if s != [] && IsWhitespace(s[|s| - 1]) then
      var r := TrimEnd(s[..|s| - 1]);
      assert forall i :: |r| <= i < |s| - 1 ==> s[i] == s[..|s| - 1][i];
      r
    else s
  }

  /** r is s[a..a + |r|] and everything of s outside that slice is whitespace. */
  predicate TrimmedAt(s: string, r: string, a: int)
  {
    && 0 <= a && a + |r| <= |s| && r == s[a..a + |r|]
    && (forall i :: 0 <= i < a ==> IsWhitespace(s[i]))
    && (forall i :: a + |r| <= i < |s| ==> IsWhitespace(s[i]))
  }

  /** Cutting a whitespace prefix and then a whitespace suffix leaves a slice with only
      whitespace around it. */
  lemma TrimmedOfParts(s: string, t: string, r: string)
    requires |t| <= |s| && t == s[|s| - |t|..]
    requires forall i :: 0 <= i < |s| - |t| ==> IsWhitespace(s[i])
    requires |r| <= |t| && r == t[..|r|]
    requires forall i :: |r| <= i < |t| ==> IsWhitespace(t[i])
    ensures TrimmedAt(s, r, |s| - |t|)
  {
    var a := |s| - |t|;
    assert r == s[a..a + |r|];
    forall i | a + |r| <= i < |s|
      ensures IsWhitespace(s[i])
    {
      assert s[i] == t[i - a];
    }
  }

  /** `String.prototype.trim`: a slice of s with only whitespace cut off either end, and neither
      starting nor ending with whitespace. */
  function Trim(s: string): (r: string)
    ensures exists a :: TrimmedAt(s, r, a)
    ensures r != [] ==> !IsWhitespace(r[0]) && !IsWhitespace(r[|r| - 1])
  {
    var t := TrimStart(s);
    var r := TrimEnd(t);
    TrimmedOfParts(s, t, r);
    r
  }

  /** A string trims to "" exactly when it consists of whitespace only. */
  lemma TrimEmptyIff(s: string)
    ensures Trim(s) == "" <==> forall i :: 0 <= i < |s| ==> IsWhitespace(s[i])
  {
  }

  /** ASCII case mapping; the page calls `toLowerCase`. */
  function LowerChar(c: char): char
  {
    if 'A' <= c <= 'Z' then (c as int + 32) as char else c
  }

  function ToLower(s: string): (r: string)
    ensures |r| == |s|
  {
    seq(|s|, i requires 0 <= i < |s| => LowerChar(s[i]))
  }

  /** `String.prototype.includes`: q occurs in s at some position. */
  predicate Contains(s: string, q: string)
    decreases |s|
  {
    q <= s || (s != [] && Contains(s[1..], q))
  }

  /** q occurs in s starting at position i. */
  predicate OccursAt(s: string, q: string, i: int)
  {
    0 <= i <= |s| - |q| && s[i..i + |q|] == q
  }

  /** The recursive search agrees with the definition by position. */
  lemma {:induction false} ContainsIffOccurs(s: string, q: string)
    ensures Contains(s, q) <==> exists i :: OccursAt(s, q, i)
  {
    if q <= s {
      assert OccursAt(s, q, 0);
    } else if s != [] {
      ContainsIffOccurs(s[1..], q);
      if Contains(s[1..], q) {
        var i :| OccursAt(s[1..], q, i);
        assert s[i + 1..i + 1 + |q|] == s[1..][i..i + |q|];
        assert OccursAt(s, q, i + 1);
      }
      if exists i :: OccursAt(s, q, i) {
        var i :| OccursAt(s, q, i);
        if i != 0 {
          assert s[1..][i - 1..i - 1 + |q|] == s[i..i + |q|];
          assert OccursAt(s[1..], q, i - 1);
        }
      }
    }
  }

  /** `(searchInput.value || "").trim().toLowerCase()` */
  function NormalizeQuery(input: string): string
  {
    ToLower(Trim(input))
  }

  /** The query is empty exactly when the input is blank. */
  lemma BlankQueryIff(input: string)
    ensures NormalizeQuery(input) == "" <==> forall i :: 0 <= i < |input| ==> IsWhitespace(input[i])
  {
    TrimEmptyIff(input);
  }

  /** `(p.name || "").toLowerCase().includes(q) || (p.category || "").toLowerCase().includes(q)` */
  predicate Matches(p: CatalogEntry, q: string)
  {
    Contains(ToLower(OrEmpty(p.name)), q) || Contains(ToLower(OrEmpty(p.category)), q)
  }

  /** The products `doSearch` shows for the text in the search box. */
  function Search(products: seq<CatalogEntry>, input: string): (r: seq<CatalogEntry>)
    ensures NormalizeQuery(input) == "" ==> r == products
    ensures var q := NormalizeQuery(input);
            q != "" ==>
              && IsSubsequence(r, products)
              && (forall p :: p in r ==> p in products && Matches(p, q))
              && (forall p :: p in products && Matches(p, q) ==> p in r)
              && (forall p :: multiset(r)[p] == if Matches(p, q) then multiset(products)[p] else 0)
  {
    var q := NormalizeQuery(input);
    FilterMultiplicity(products, (p: CatalogEntry) => Matches(p, q));
    if q == "" then products else Filter(products, (p: CatalogEntry) => Matches(p, q))
  }

  /** A blank search box shows the whole catalog in catalog order. */
  lemma BlankSearchShowsAll(products: seq<CatalogEntry>, input: string)
    requires forall i :: 0 <= i < |input| ==> IsWhitespace(input[i])
    ensures Search(products, input) == products
  {
    BlankQueryIff(input);
  }

  /** A search box with any non-blank character filters: a product only shows when its name or
      category contains the normalized query. */
  lemma NonBlankSearchFilters(products: seq<CatalogEntry>, input: string, i: nat)
    requires i < |input| && !IsWhitespace(input[i])
    ensures forall p :: p in Search(products, input) ==> Matches(p, NormalizeQuery(input))
  {
    BlankQueryIff(input);
  }

  /** The products a category chip shows: all of them for "All", otherwise those whose category
      (a missing one read as "") is exactly the chip's value. */
  function ChipFilter(products: seq<CatalogEntry>, cat: string): (r: seq<CatalogEntry>)
    ensures cat == AllChip ==> r == products
    ensures cat != AllChip ==>
              && IsSubsequence(r, products)
              && (forall p :: p in r ==> p in products && OrEmpty(p.category) == cat)
              && (forall p :: p in products && OrEmpty(p.category) == cat ==> p in r)
              && (forall p :: multiset(r)[p] == if OrEmpty(p.category) == cat then multiset(products)[p] else 0)
  {
    FilterMultiplicity(products, (p: CatalogEntry) => OrEmpty(p.category) == cat);
    if cat == AllChip then products else Filter(products, (p: CatalogEntry) => OrEmpty(p.category) == cat)
  }

  // ---------------------------------------------------------------------------------------------
  // cart badge and checkout dialog

  /** `items.reduce((s, it) => s + Number(it.qty), 0)` */
  function ItemCount(lines: seq<CartLine>): nat
  {
    if lines == [] then 0 else lines[0].qty + ItemCount(lines[1..])
  }

  /** With every quantity at least 1 the count is at least the number of lines, so it is 0
      exactly when there are no lines. */
  lemma {:induction false} ItemCountBounds(lines: seq<CartLine>)
    requires forall line :: line in lines ==> line.qty >= 1
    ensures ItemCount(lines) >= |lines|
    ensures ItemCount(lines) == 0 <==> lines == []
  {
    if lines != [] {
      assert lines[0] in lines;
      assert forall line :: line in lines[1..] ==> line in lines;
      ItemCountBounds(lines[1..]);
    }
  }

  /** The number `refreshCartCount` writes into the badge for the reply of GET /cart: an error
      body has no `items` and counts 0. */
  function CartCount(fetched: Reply<CartView>): nat
  {
    if fetched.Ok? then ItemCount(fetched.value.items) else 0
  }

  /** What the checkout button sets up in the dialog: the message and whether "Place order" is
      disabled. */
  datatype CheckoutPrompt = CheckoutPrompt(message: string, placeDisabled: bool)

  function PromptFor(fetched: Reply<CartView>): CheckoutPrompt
  {
    if !fetched.Ok? || fetched.value.items == [] then CheckoutPrompt(EmptyCartMessage, true)
    else CheckoutPrompt("", false)
  }

  /** The badge and the dialog agree: the badge shows 0 exactly when "Place order" is disabled,
      as long as every line has a positive quantity. */
  lemma BadgeZeroIffPlaceDisabled(fetched: Reply<CartView>)
    requires fetched.Ok? ==> forall line :: line in fetched.value.items ==> line.qty >= 1
    ensures CartCount(fetched) == 0 <==> PromptFor(fetched).placeDisabled
  {
    if fetched.Ok? {
      ItemCountBounds(fetched.value.items);
    }
  }

  // ---------------------------------------------------------------------------------------------
  // the page's state

  /** `pendingAdd = { productId, qty }` */
  datatype PendingAdd = PendingAdd(productId: int, qty: int)

  /** A POST /cart/add the page sends: the X-Session-Id header and the `{ productId, qty }` body. */
  datatype AddRequest = AddRequest(sessionId: string, productId: int, qty: int)

  /** The JSON body of POST /auth/login as far as the page reads it. */
  datatype LoginReply = LoginReply(success: bool, token: Option<string>, fullname: Option<string>)

  /** `data.success && data.token` */
  predicate LoginSucceeds(reply: LoginReply)
  {
    reply.success && reply.token.Some? && reply.token.value != ""
  }

  /** The storage after a successful login: the token, and the name when it is not empty. */
  function LoggedIn(storage: map<string, string>, reply: LoginReply): map<string, string>
    requires LoginSucceeds(reply)
  {
    var withToken := storage[TokenKey := reply.token.value];
    if reply.fullname.Some? && reply.fullname.value != "" then withToken[NameKey := reply.fullname.value]
    else withToken
  }

  /** A successful login leaves a token that the next add-to-cart sees and keeps the session id. */
  lemma LoggedInHasToken(storage: map<string, string>, reply: LoginReply)
    requires LoginSucceeds(reply)
    ensures Stored(LoggedIn(storage, reply), TokenKey) == reply.token
    ensures Stored(LoggedIn(storage, reply), SessionKey) == Stored(storage, SessionKey)
  {
  }

  /** The module-level state of the page: localStorage, the loaded catalog, the products shown,
      the add waiting for a login, and the add-to-cart requests sent so far. */
  class Page {
    var storage: map<string, string>
    var products: seq<CatalogEntry>
    var filtered: seq<CatalogEntry>
    var pendingAdd: Option<PendingAdd>
    var sent: seq<AddRequest>

    /** The page after `loadProducts`: everything shown, nothing pending, nothing sent. */
    constructor (initialStorage: map<string, string>, catalog: seq<CatalogEntry>)
      ensures storage == initialStorage && products == catalog && filtered == catalog
      ensures pendingAdd == None && sent == []
    {
      storage := initialStorage;
      products := catalog;
      filtered := catalog;
      pendingAdd := None;
      sent := [];
    }

    /** `getSessionId()` */
    method GetSessionId(generated: string) returns (sid: string)
      requires generated != ""
      modifies this`storage
      ensures sid == SessionId(old(storage), generated) && sid != ""
      ensures storage == WithSession(old(storage), generated)
      ensures Stored(storage, SessionKey) == Some(sid)
    {
      var stored := Stored(storage, SessionKey);
      if stored.None? {
        sid := generated;
        storage := storage[SessionKey := sid];
      } else {
        sid := stored.value;
      }
    }

    /** `doSearch()` with the text of the search box. */
    method DoSearch(input: string)
      modifies this`filtered
      ensures filtered == Search(products, input)
    {
      var q := NormalizeQuery(input);
      if q == "" {
        filtered := products;
      } else {
        filtered := Filter(products, (p: CatalogEntry) => Matches(p, q));
      }
    }

    /** A click on the chip whose `data-cat` is cat. */
    method ChooseChip(cat: string)
      modifies this`filtered
      ensures filtered == ChipFilter(products, cat)
    {
      if cat == AllChip {
        filtered := products;
      } else {
        filtered := Filter(products, (p: CatalogEntry) => OrEmpty(p.category) == cat);
      }
    }

    /** `addToCart(productId, qty)`: without a token the add is parked for after the login and no
        request goes out; with one the request carries the session id. */
    method AddToCart(productId: int, qty: int, generated: string)
      requires generated != ""
      modifies this`storage, this`pendingAdd, this`sent
      ensures Stored(old(storage), TokenKey).None? ==>
                && pendingAdd == Some(PendingAdd(productId, qty))
                && sent == old(sent) && storage == old(storage)
      ensures Stored(old(storage), TokenKey).Some? ==>
                && pendingAdd == old(pendingAdd)
                && sent == old(sent) + [AddRequest(SessionId(old(storage), generated), productId, qty)]
                && storage == WithSession(old(storage), generated)
    {
      if Stored(storage, TokenKey).None? {
        pendingAdd := Some(PendingAdd(productId, qty));
        return;
      }
      var sid := GetSessionId(generated);
      sent := sent + [AddRequest(sid, productId, qty)];
    }

    /** The login button's handler once the reply of POST /auth/login has arrived: on success the
        token (and name) are stored and a parked add is cleared and sent. */
    method Login(reply: LoginReply, generated: string)
      requires generated != ""
      modifies this`storage, this`pendingAdd, this`sent
      ensures !LoginSucceeds(reply) ==>
                storage == old(storage) && pendingAdd == old(pendingAdd) && sent == old(sent)
      ensures LoginSucceeds(reply) ==>
                var st := LoggedIn(old(storage), reply);
                && pendingAdd == None
                && (old(pendingAdd).None? ==> sent == old(sent) && storage == st)
                && (old(pendingAdd).Some? ==>
                      && sent == old(sent) + [AddRequest(SessionId(st, generated), old(pendingAdd).value.productId, old(pendingAdd).value.qty)]
                      && storage == WithSession(st, generated))
    {
      if !LoginSucceeds(reply) {
        return;
      }
      storage := storage[TokenKey := reply.token.value];
      if reply.fullname.Some? && reply.fullname.value != "" {
        storage := storage[NameKey := reply.fullname.value];
      }
      if pendingAdd.Some? {
        var add := pendingAdd.value;
        pendingAdd := None;
        LoggedInHasToken(old(storage), reply);
        AddToCart(add.productId, add.qty, generated);
      }
    }
  }

  /** An add made without a token is sent by the next successful login, exactly once: a second
      login sends nothing more. The request carries the session id of the logged-in storage. */
  method PendingAddSentOnce(page: Page, productId: int, qty: int, reply: LoginReply, generated: string, later: string)
    requires Stored(page.storage, TokenKey).None? && LoginSucceeds(reply)
    requires generated != "" && later != ""
    modifies page
    ensures page.sent == old(page.sent)
                         + [AddRequest(SessionId(LoggedIn(old(page.storage), reply), generated), productId, qty)]
    ensures page.pendingAdd == None
  {
    page.AddToCart(productId, qty, generated);
    page.Login(reply, generated);
    page.Login(reply, later);
  }

  /** The same on a fresh page: nothing goes out before the login, one request after it, and none
      after a second login. */
  method PendingAddExample() returns (beforeLogin: seq<AddRequest>, afterLogin: seq<AddRequest>,
                                      afterSecondLogin: seq<AddRequest>)
    ensures beforeLogin == []
    ensures afterLogin == [AddRequest("s-1", 7, 1)]
    ensures afterSecondLogin == afterLogin
  {
    var page := new Page(map[], [CatalogEntry(7, Some("Tea"), Some("Drinks"), 250)]);
    page.AddToCart(7, 1, "s-1");
    beforeLogin := page.sent;
    var reply := LoginReply(true, Some("t"), Some("Ann Lee"));
    page.Login(reply, "s-1");
    afterLogin := page.sent;
    page.Login(reply, "s-2");
    afterSecondLogin := page.sent;
  }
}
