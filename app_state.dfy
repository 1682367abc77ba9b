/**
 * The updates of the application root (App.tsx). Every handler there replaces
 * one piece of state by a map, filter or spread of its old value; each such
 * transform is a function here. The `App.Store` class applies them.
 */
module AppState {
  import opened Wrappers
  import opened Seqs
  import opened Text
  import opened Types
  import opened Catalog

  // ---------------------------------------------------------------------------
  // Cart (App.tsx:116-147)

  predicate InCart(cart: seq<CartItem>, id: string) {
    exists i :: 0 <= i < |cart| && cart[i].Id() == id
  }

  predicate UniqueIds(cart: seq<CartItem>) {
    forall i, j :: 0 <= i < j < |cart| ==> cart[i].Id() != cart[j].Id()
  }

  predicate PositiveQuantities(cart: seq<CartItem>) {
    forall i :: 0 <= i < |cart| ==> cart[i].quantity >= 1
  }

  /** How many cart lines carry `id`. */
  function Occurrences(cart: seq<CartItem>, id: string): (n: nat)
    ensures n == 0 <==> !InCart(cart, id)
  {
    if |cart| == 0 then 0
    else
      var p := cart[..|cart| - 1];
      assert InCart(cart, id) <==> InCart(p, id) || cart[|cart| - 1].Id() == id by {
        if InCart(cart, id) {
          var i :| 0 <= i < |cart| && cart[i].Id() == id;
          if i < |cart| - 1 { assert p[i].Id() == id; }
        }
        if InCart(p, id) {
          var i :| 0 <= i < |p| && p[i].Id() == id;
          assert cart[i].Id() == id;
        }
      }
      Occurrences(p, id) + (if cart[|cart| - 1].Id() == id then 1 else 0)
  }

  /** The units of product `id` held in the cart, over all its lines. */
  function QuantityOf(cart: seq<CartItem>, id: string): int {
    if |cart| == 0 then 0
    else QuantityOf(cart[..|cart| - 1], id) + (if cart[|cart| - 1].Id() == id then cart[|cart| - 1].quantity else 0)
  }

  /** Adds `q` to the quantity of every line carrying `id`; the lines keep their product snapshot. */
  function Bump(cart: seq<CartItem>, id: string, q: int): (r: seq<CartItem>)
    ensures |r| == |cart|
    ensures forall i :: 0 <= i < |cart| ==> r[i].product == cart[i].product
  {
    seq(|cart|, i requires 0 <= i < |cart| =>
      if cart[i].Id() == id then cart[i].(quantity := cart[i].quantity + q) else cart[i])
  }

  /**
   * `handleAddToCart`: a product already in the cart has its line's quantity
   * raised by `q`; any other product is appended as a new line.
   */
  function AddToCart(cart: seq<CartItem>, p: Product, q: int): (r: seq<CartItem>)
    ensures InCart(r, p.id)
    ensures InCart(cart, p.id) ==> |r| == |cart|
    ensures !InCart(cart, p.id) ==> |r| == |cart| + 1 && r[..|cart|] == cart && r[|cart|] == CartItem(p, q)
    ensures forall i :: 0 <= i < |cart| && cart[i].Id() != p.id ==> r[i] == cart[i]
  {
    if InCart(cart, p.id) then
      var r := Bump(cart, p.id, q);
      var i :| 0 <= i < |cart| && cart[i].Id() == p.id;
      assert r[i].Id() == p.id;
      r
    else
      var r := cart + [CartItem(p, q)];
      assert r[|cart|].Id() == p.id;
      r
  }

  lemma {:induction false} BumpQuantity(cart: seq<CartItem>, id: string, q: int, x: string)
    ensures QuantityOf(Bump(cart, id, q), x) == QuantityOf(cart, x) + (if x == id then q * Occurrences(cart, id) else 0)
  {
    if |cart| > 0 {
      var n := |cart| - 1;
      var b := Bump(cart, id, q);
      assert b[..n] == Bump(cart[..n], id, q);
      BumpQuantity(cart[..n], id, q, x);
      assert b[n].Id() == cart[n].Id();
      assert b[n].quantity == cart[n].quantity + (if cart[n].Id() == id then q else 0);
      assert QuantityOf(b, x) == QuantityOf(b[..n], x) + (if b[n].Id() == x then b[n].quantity else 0);
      assert QuantityOf(cart, x) == QuantityOf(cart[..n], x) + (if cart[n].Id() == x then cart[n].quantity else 0);
      if x == id {
        var o := Occurrences(cart[..n], id);
        var last := if cart[n].Id() == id then 1 else 0;
        assert Occurrences(cart, id) == o + last;
        assert q * (o + last) == q * o + q * last;
      }
    }
  }

  lemma {:induction false} UniqueOccursOnce(cart: seq<CartItem>, id: string)
    requires UniqueIds(cart) && InCart(cart, id)
    ensures Occurrences(cart, id) == 1
  {
    var n := |cart| - 1;
    var p := cart[..n];
    if cart[n].Id() == id {
      assert !InCart(p, id);
    } else {
      var i :| 0 <= i < |cart| && cart[i].Id() == id;
      assert p[i].Id() == id;
      UniqueOccursOnce(p, id);
    }
  }

  /**
   * Adding `q` units of a product raises that product's quantity by exactly
   * `q` and leaves every other product's quantity as it was.
   */
  lemma AddToCartQuantity(cart: seq<CartItem>, p: Product, q: int, x: string)
    requires UniqueIds(cart)
    ensures QuantityOf(AddToCart(cart, p, q), x) == QuantityOf(cart, x) + (if x == p.id then q else 0)
  {
    if InCart(cart, p.id) {
      BumpQuantity(cart, p.id, q, x);
      UniqueOccursOnce(cart, p.id);
    } else {
      assert (cart + [CartItem(p, q)])[..|cart|] == cart;
    }
  }

  /** Ids stay unique: adding never creates a second line for a product. */
  lemma AddToCartUnique(cart: seq<CartItem>, p: Product, q: int)
    requires UniqueIds(cart)
    ensures UniqueIds(AddToCart(cart, p, q))
  {
    var r := AddToCart(cart, p, q);
    if !InCart(cart, p.id) {
      forall i, j | 0 <= i < j < |r| ensures r[i].Id() != r[j].Id() {
        if j == |cart| {
          assert r[i] == cart[i];
        }
      }
    }
  }

  /** Adding a positive quantity keeps every line's quantity positive. */
  lemma AddToCartPositive(cart: seq<CartItem>, p: Product, q: int)
    requires PositiveQuantities(cart) && q >= 1
    ensures PositiveQuantities(AddToCart(cart, p, q))
  {
  }

  function Max(a: int, b: int): int { if a < b then b else a }

  /** `handleUpdateCart`: the line carrying `id` gets quantity `max(1, q + delta)`. */
  function UpdateCart(cart: seq<CartItem>, id: string, delta: int): (r: seq<CartItem>)
    ensures |r| == |cart|
    ensures forall i :: 0 <= i < |cart| ==> r[i].product == cart[i].product
    ensures forall i :: 0 <= i < |cart| && cart[i].Id() != id ==> r[i] == cart[i]
    ensures forall i :: 0 <= i < |cart| && cart[i].Id() == id ==> r[i].quantity >= 1 && r[i].quantity >= cart[i].quantity + delta
  {
    seq(|cart|, i requires 0 <= i < |cart| =>
      if cart[i].Id() == id then cart[i].(quantity := Max(1, cart[i].quantity + delta)) else cart[i])
  }

  /** Updating an id that is not in the cart changes nothing. */
  lemma UpdateCartAbsent(cart: seq<CartItem>, id: string, delta: int)
    requires !InCart(cart, id)
    ensures UpdateCart(cart, id, delta) == cart
  {
  }

  /** The quantity clamp: lowering never goes below one, and never lowers by more than asked. */
  lemma UpdateCartClamp(cart: seq<CartItem>, id: string, delta: int, i: int)
    requires 0 <= i < |cart| && cart[i].Id() == id
    ensures UpdateCart(cart, id, delta)[i].quantity == if cart[i].quantity + delta < 1 then 1 else cart[i].quantity + delta
  {
  }

  /** The `+` and then `−` buttons of a line with a positive quantity cancel out. */
  lemma UpdateCartUndo(cart: seq<CartItem>, id: string)
    requires PositiveQuantities(cart)
    ensures UpdateCart(UpdateCart(cart, id, 1), id, -1) == cart
  {
    var r := UpdateCart(UpdateCart(cart, id, 1), id, -1);
    assert forall i :: 0 <= i < |cart| ==> r[i] == cart[i];
  }

  /** `−` at quantity one leaves the line at one. */
  lemma UpdateCartFloor(cart: seq<CartItem>, id: string, i: int)
    requires 0 <= i < |cart| && cart[i].Id() == id && cart[i].quantity == 1
    ensures UpdateCart(cart, id, -1)[i] == cart[i]
  {
  }

  function NotCartId(id: string): CartItem -> bool {
    (item: CartItem) => item.Id() != id
  }

  /** `handleRemoveFromCart`: every line with that id goes, the others keep their order. */
  function RemoveFromCart(cart: seq<CartItem>, id: string): (r: seq<CartItem>)
    ensures !InCart(r, id)
    ensures IsSubseq(r, cart)
    ensures forall i :: 0 <= i < |cart| && cart[i].Id() != id ==> cart[i] in r
  {
    FilterIsSubseq(cart, NotCartId(id));
    Filter(cart, NotCartId(id))
  }

  /** Removing keeps the ids unique. */
  lemma {:induction false} RemoveFromCartUnique(cart: seq<CartItem>, id: string)
    requires UniqueIds(cart)
    ensures UniqueIds(RemoveFromCart(cart, id))
  {
    if |cart| > 0 {
      var t := cart[1..];
      RemoveFromCartUnique(t, id);
      FilterCons(cart[0], t, NotCartId(id));
      assert [cart[0]] + t == cart;
      var rt := RemoveFromCart(t, id);
      forall i | 0 <= i < |rt| ensures rt[i].Id() != cart[0].Id() {
        assert rt[i] in t;
      }
    }
  }

  /** A removed product holds no units any more. */
  lemma {:induction false} RemovedQuantityZero(cart: seq<CartItem>, id: string)
    ensures QuantityOf(RemoveFromCart(cart, id), id) == 0
  {
    AbsentQuantityZero(RemoveFromCart(cart, id), id);
  }

  lemma {:induction false} AbsentQuantityZero(cart: seq<CartItem>, id: string)
    requires !InCart(cart, id)
    ensures QuantityOf(cart, id) == 0
  {
    if |cart| > 0 {
      var p := cart[..|cart| - 1];
      assert !InCart(p, id);
      AbsentQuantityZero(p, id);
    }
  }

  // ---------------------------------------------------------------------------
  // Orders (App.tsx:149-160)

  /** What the checkout page hands over: an order without id, date, status or tracking number. */
  datatype OrderDraft = OrderDraft(items: seq<CartItem>, total: int, paymentMethod: string)

  /**
   * The order `handlePlaceOrder` builds; the random id, the clock's date and
   * the random tracking number are parameters.
   */
  function NewOrder(draft: OrderDraft, id: string, date: string, tracking: string): (o: Order)
    ensures o.status == Processing
    ensures o.items == draft.items && o.total == draft.total && o.paymentMethod == draft.paymentMethod
    ensures o.id == id && o.date == date && o.trackingNumber == tracking
  {
    Order(id, date, draft.items, draft.total, Processing, draft.paymentMethod, tracking)
  }

  /** The digits of `ZK-${Math.floor(100000 + Math.random() * 900000)}`: a six-digit number. */
  function OrderId(n: int): (r: string)
    requires 100000 <= n <= 999999
    ensures |r| == 9 && r[..3] == "ZK-"
    ensures forall i :: 3 <= i < 9 ==> '0' <= r[i] <= '9'
    ensures DigitsValue(r[3..]) == n
  {
    NatSixDigits(n);
    NatToStringValue(n);
    assert ("ZK-" + NatToString(n))[3..] == NatToString(n);
    "ZK-" + NatToString(n)
  }

  lemma NatSixDigits(n: int)
    requires 100000 <= n <= 999999
    ensures |NatToString(n)| == 6
  {
    var a := n / 10;
    var b := a / 10;
    var c := b / 10;
    var d := c / 10;
    var e := d / 10;
    assert 1 <= e < 10 && 10 <= d < 100 && 100 <= c < 1000 && 1000 <= b < 10000 && 10000 <= a < 100000;
    assert |NatToString(e)| == 1;
    assert |NatToString(d)| == 2;
    assert |NatToString(c)| == 3;
    assert |NatToString(b)| == 4;
    assert |NatToString(a)| == 5;
  }

  // ---------------------------------------------------------------------------
  // Wishlist (App.tsx:162-176)

  function NotId(id: string): string -> bool {
    (x: string) => x != id
  }

  /** `toggleWishlist`: a listed id is removed, an unlisted one appended. */
  function ToggleWishlist(w: seq<string>, id: string): (r: seq<string>)
    ensures id in r <==> id !in w
    ensures forall x :: x != id ==> (x in r <==> x in w)
  {
    if id in w then Filter(w, NotId(id)) else w + [id]
  }

  /** Toggling twice gives the same set of ids back. */
  lemma ToggleTwiceMembership(w: seq<string>, id: string, x: string)
    ensures x in ToggleWishlist(ToggleWishlist(w, id), id) <==> x in w
  {
  }

  /** For an id not yet listed, toggling twice restores the list exactly. */
  lemma ToggleTwiceAbsent(w: seq<string>, id: string)
    requires id !in w
    ensures ToggleWishlist(ToggleWishlist(w, id), id) == w
  {
    FilterConcat(w, [id], NotId(id));
    FilterKeepsAll(w, NotId(id));
    FilterSingleton(id, NotId(id));
  }

  /** For a listed id that is not last, toggling twice moves it to the end: order is not restored. */
  lemma ToggleTwiceReorders()
    ensures ToggleWishlist(ToggleWishlist(["a", "b"], "a"), "a") == ["b", "a"]
  {
    FilterCons("a", ["b"], NotId("a"));
    FilterSingleton("b", NotId("a"));
    assert ["a"] + ["b"] == ["a", "b"];
  }

  /** The wishlist never lists an id twice. */
  lemma ToggleNoDups(w: seq<string>, id: string)
    requires NoDups(w)
    ensures NoDups(ToggleWishlist(w, id))
  {
    if id in w {
      FilterNoDups(w, NotId(id));
    }
  }

  // ---------------------------------------------------------------------------
  // Catalogue edits (App.tsx:209-232)

  /** `handleAddProduct`: the new product goes first. */
  function AddProduct(ps: seq<Product>, p: Product): (r: seq<Product>)
    ensures |r| == |ps| + 1 && r[0] == p && r[1..] == ps
  {
    [p] + ps
  }

  function NotProductId(id: string): Product -> bool {
    (p: Product) => p.id != id
  }

  /** `handleDeleteProduct`: every product with that id goes, the rest keep their order. */
  function DeleteProduct(ps: seq<Product>, id: string): (r: seq<Product>)
    ensures !HasProduct(r, id)
    ensures IsSubseq(r, ps)
    ensures forall i :: 0 <= i < |ps| && ps[i].id != id ==> ps[i] in r
  {
    FilterIsSubseq(ps, NotProductId(id));
    Filter(ps, NotProductId(id))
  }

  /** Deleting a freshly added product whose id was new restores the catalogue. */
  lemma DeleteUndoesAdd(ps: seq<Product>, p: Product)
    requires !HasProduct(ps, p.id)
    ensures DeleteProduct(AddProduct(ps, p), p.id) == ps
  {
    FilterCons(p, ps, NotProductId(p.id));
    FilterKeepsAll(ps, NotProductId(p.id));
  }

  /** `handleUpdateProduct`: every product with the updated id is replaced by it. */
  function UpdateProduct(ps: seq<Product>, u: Product): (r: seq<Product>)
    ensures |r| == |ps|
    ensures forall i :: 0 <= i < |ps| ==> r[i].id == ps[i].id
    ensures forall i :: 0 <= i < |ps| && ps[i].id != u.id ==> r[i] == ps[i]
    ensures forall i :: 0 <= i < |ps| && ps[i].id == u.id ==> r[i] == u
  {
    seq(|ps|, i requires 0 <= i < |ps| => if ps[i].id == u.id then u else ps[i])
  }

  /** After an update of a listed product, looking its id up gives the updated product. */
  lemma {:induction false} UpdateProductLookup(ps: seq<Product>, u: Product)
    requires HasProduct(ps, u.id)
    ensures FindProduct(UpdateProduct(ps, u), u.id) == Some(u)
  {
    var r := UpdateProduct(ps, u);
    var k :| 0 <= k < |ps| && ps[k].id == u.id;
    assert r[k].id == u.id;
    assert HasProduct(r, u.id);
    var f := FindProduct(r, u.id);
    var j :| 0 <= j < |r| && r[j] == f.value && forall m :: 0 <= m < j ==> r[m].id != u.id;
    assert ps[j].id == r[j].id == u.id;
    assert r[j] == u;
  }

  /** Updating with an id the catalogue lacks changes nothing. */
  lemma UpdateProductAbsent(ps: seq<Product>, u: Product)
    requires !HasProduct(ps, u.id)
    ensures UpdateProduct(ps, u) == ps
  {
  }

  /** Applying the same update twice is the same as applying it once. */
  lemma UpdateProductIdempotent(ps: seq<Product>, u: Product)
    ensures UpdateProduct(UpdateProduct(ps, u), u) == UpdateProduct(ps, u)
  {
  }

  /** `p.reviews || []`. */
  function ReviewsOf(p: Product): seq<Review> {
    p.reviews.GetOr([])
  }

  /** `handleAddReview`: the review goes in front of the matching products' reviews. */
  function AddReview(ps: seq<Product>, productId: string, review: Review): (r: seq<Product>)
    ensures |r| == |ps|
    ensures forall i :: 0 <= i < |ps| && ps[i].id != productId ==> r[i] == ps[i]
    ensures forall i :: 0 <= i < |ps| && ps[i].id == productId ==>
      r[i] == ps[i].(reviews := Some([review] + ReviewsOf(ps[i])))
  {
    seq(|ps|, i requires 0 <= i < |ps| =>
      if ps[i].id == productId then ps[i].(reviews := Some([review] + ReviewsOf(ps[i]))) else ps[i])
  }

  /** A product with no review list gets a one-review list, just as one with an empty list does. */
  lemma AddReviewToMissingList(ps: seq<Product>, productId: string, review: Review, i: int)
    requires 0 <= i < |ps| && ps[i].id == productId
    ensures |ReviewsOf(AddReview(ps, productId, review)[i])| == |ReviewsOf(ps[i])| + 1
    ensures ReviewsOf(AddReview(ps, productId, review)[i])[0] == review
    ensures ReviewsOf(AddReview(ps, productId, review)[i])[1..] == ReviewsOf(ps[i])
  {
  }

  /** A review leaves the catalogue's ids, and so every lookup by id, in place. */
  lemma AddReviewKeepsLookup(ps: seq<Product>, productId: string, review: Review, id: string)
    ensures HasProduct(AddReview(ps, productId, review), id) <==> HasProduct(ps, id)
  {
    var r := AddReview(ps, productId, review);
    if HasProduct(ps, id) {
      var i :| 0 <= i < |ps| && ps[i].id == id;
      assert r[i].id == id;
    }
    if HasProduct(r, id) {
      var i :| 0 <= i < |r| && r[i].id == id;
      assert ps[i].id == id;
    }
  }

  // ---------------------------------------------------------------------------
  // Easter eggs (App.tsx:109-114)

  /** `handleFindEgg`: an egg is recorded the first time it is found. */
  function FindEgg(found: seq<string>, eggId: string): (r: seq<string>)
    ensures eggId in r
    ensures forall x :: x != eggId ==> (x in r <==> x in found)
    ensures NoDups(found) ==> NoDups(r)
    ensures |found| <= |r| <= |found| + 1 && r[..|found|] == found
  {
    if eggId in found then found else found + [eggId]
  }

  /** Finding the same egg again changes nothing. */
  lemma FindEggIdempotent(found: seq<string>, eggId: string)
    ensures FindEgg(FindEgg(found, eggId), eggId) == FindEgg(found, eggId)
  {
  }

  // ---------------------------------------------------------------------------
  // Session (App.tsx:33-37, 178-207)

  datatype AuthState = AuthState(isLoggedIn: bool, role: Option<UserRole>, user: Option<UserProfile>)

  /** Logged in exactly when a role and a profile are present, and the profile has that role. */
  predicate ConsistentAuth(a: AuthState) {
    (a.isLoggedIn <==> a.role.Some?) && (a.isLoggedIn <==> a.user.Some?) &&
    (a.isLoggedIn ==> a.user.value.role == a.role.value)
  }

  const AvatarBase: string := "https://api.dicebear.com/7.x/avataaars/svg?seed="

  /** The profile `handleLoginSuccess` builds for a role. */
  function ProfileFor(role: UserRole): (u: UserProfile)
    ensures u.role == role && u.joinDate == "Feb 2026"
    ensures role == Admin ==> u.name == "ZENKIRA" && u.email == "admin@zenkira.net" && u.loyaltyPoints == 999999
    ensures role == User ==> u.name == "Operative_Neo" && u.email == "user@zenkira.net" && u.loyaltyPoints == 0
    ensures u.avatar == AvatarBase + (if role == Admin then "Admin" else "Felix")
  {
    UserProfile(
      if role == Admin then "ZENKIRA" else "Operative_Neo",
      if role == Admin then "admin@zenkira.net" else "user@zenkira.net",
      AvatarBase + (if role == Admin then "Admin" else "Felix"),
      "Feb 2026",
      if role == Admin then 999999 else 0,
      role)
  }

  function LoginSuccess(role: UserRole): (a: AuthState)
    ensures ConsistentAuth(a) && a.isLoggedIn && a.role == Some(role)
    ensures a.user == Some(ProfileFor(role))
  {
    AuthState(true, Some(role), Some(ProfileFor(role)))
  }

  function Logout(): (a: AuthState)
    ensures ConsistentAuth(a) && !a.isLoggedIn
  {
    AuthState(false, None, None)
  }

  const InitialAuth: AuthState := AuthState(false, None, None)

  /** The routes whose element depends on the session (App.tsx:351-370). */
  datatype Route = CheckoutRoute | OrdersRoute | ProfileRoute | AdminRoute | OpenRoute

  /** Whether a route shows its page; otherwise it redirects to the login page. */
  function CanView(route: Route, a: AuthState): (ok: bool)
    ensures route == OpenRoute ==> ok
    ensures route == AdminRoute ==> (ok <==> a.isLoggedIn && a.role == Some(Admin))
    ensures route != OpenRoute && route != AdminRoute ==> (ok <==> a.isLoggedIn)
  {
    match route
    case OpenRoute => true
    case AdminRoute => a.isLoggedIn && a.role == Some(Admin)
    case _ => a.isLoggedIn
  }

  /** After logging in as a user every member page opens but the admin page does not; after logging out none opens. */
  lemma GuardsAfterSession(route: Route)
    ensures route != AdminRoute ==> CanView(route, LoginSuccess(User))
    ensures !CanView(AdminRoute, LoginSuccess(User)) && CanView(AdminRoute, LoginSuccess(Admin))
    ensures route != OpenRoute ==> !CanView(route, Logout())
  {
  }

  // ---------------------------------------------------------------------------
  // The typed-key buffer (App.tsx:65, 79-86)

  const Trigger: string := "ZENKIRA"
  const BufferSize: nat := 10

  datatype KeyResult = KeyResult(buffer: string, glow: bool)

  /** The buffer after one key: the last ten characters uppercased, emptied when they spell the trigger. */
  function KeyDown(buffer: string, key: string): (r: KeyResult)
    ensures |r.buffer| <= BufferSize
    ensures r.glow <==> Contains(LastN(Upper(buffer + key), BufferSize), Trigger)
    ensures r.glow ==> r.buffer == ""
    ensures !r.glow ==> r.buffer == LastN(Upper(buffer + key), BufferSize) && !Contains(r.buffer, Trigger)
  {
    var b := LastN(Upper(buffer + key), BufferSize);
    if Contains(b, Trigger) then KeyResult("", true) else KeyResult(b, false)
  }

  /** Every character kept in the buffer is uppercase-normalised. */
  lemma KeyDownUppercase(buffer: string, key: string)
    ensures Upper(KeyDown(buffer, key).buffer) == KeyDown(buffer, key).buffer
  {
    var u := Upper(buffer + key);
    var b := LastN(u, BufferSize);
    UpperNormalises(buffer + key);
    assert forall i :: 0 <= i < |b| ==> b[i] == u[|u| - |b| + i];
  }

  /** A key that completes the trigger, in any letter case, lights the glow and empties the buffer. */
  lemma TypingTriggerGlows(buffer: string, key: string)
    requires var u := Upper(buffer + key); |u| >= |Trigger| && u[|u| - |Trigger|..] == Trigger
    ensures KeyDown(buffer, key).glow && KeyDown(buffer, key).buffer == ""
  {
    var u := Upper(buffer + key);
    var b := LastN(u, BufferSize);
    assert b[|b| - |Trigger|..] == u[|u| - |Trigger|..];
    ContainsSuffix(b, Trigger);
  }
}
