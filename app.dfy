/** The application root (App.tsx): the state it holds and the handlers that update it. */
module App {
  import opened Wrappers
  import opened Seqs
  import opened Types
  import opened Catalog
  import opened AppState

  // ---------------------------------------------------------------------------
  // The state of the root component

  /** A snapshot of the root state, used to state what each handler leaves unchanged. */
  datatype StoreState = StoreState(
    products: seq<Product>,
    cart: seq<CartItem>,
    wishlist: seq<string>,
    orders: seq<Order>,
    auth: AuthState,
    foundEggs: seq<string>,
    selected: Option<Product>,
    typedBuffer: string,
    glow: bool)

  class Store {
    var products: seq<Product>
    var cart: seq<CartItem>
    var wishlist: seq<string>
    var orders: seq<Order>
    var auth: AuthState
    var foundEggs: seq<string>
    var selected: Option<Product>
    var typedBuffer: string
    var glow: bool

    ghost function State(): StoreState
      reads this
    {
      StoreState(products, cart, wishlist, orders, auth, foundEggs, selected, typedBuffer, glow)
    }

    /** What every handler keeps true. */
    ghost predicate Valid()
      reads this
    {
      UniqueIds(cart) && NoDups(wishlist) && NoDups(foundEggs) &&
      ConsistentAuth(auth) && |typedBuffer| <= BufferSize
    }

    /** The initial state (App.tsx:40-51, 65). */
    constructor (seed: seq<Product>)
      ensures Valid()
      ensures State() == StoreState(seed, [], [], [], InitialAuth, [], None, "", false)
    {
      products, cart, wishlist, orders := seed, [], [], [];
      auth, foundEggs, selected, typedBuffer, glow := InitialAuth, [], None, "", false;
    }

    method AddToCart(p: Product, q: int)
      requires Valid()
      modifies this
      ensures Valid()
      ensures State() == old(State()).(cart := AppState.AddToCart(old(cart), p, q))
    {
      AddToCartUnique(cart, p, q);
      cart := AppState.AddToCart(cart, p, q);
    }

    /** `handleBuyNow`: one unit is added and the product modal closes. */
    method BuyNow(p: Product)
      requires Valid()
      modifies this
      ensures Valid()
      ensures State() == old(State()).(cart := AppState.AddToCart(old(cart), p, 1), selected := None)
    {
      AddToCart(p, 1);
      selected := None;
    }

    method UpdateCart(id: string, delta: int)
      requires Valid()
      modifies this
      ensures Valid()
      ensures State() == old(State()).(cart := AppState.UpdateCart(old(cart), id, delta))
    {
      cart := AppState.UpdateCart(cart, id, delta);
    }

    method RemoveFromCart(id: string)
      requires Valid()
      modifies this
      ensures Valid()
      ensures State() == old(State()).(cart := AppState.RemoveFromCart(old(cart), id))
    {
      RemoveFromCartUnique(cart, id);
      cart := AppState.RemoveFromCart(cart, id);
    }

    /** `handlePlaceOrder`: the new order goes first and the cart is emptied, whatever it held. */
    method PlaceOrder(draft: OrderDraft, id: string, date: string, tracking: string)
      requires Valid()
      modifies this
      ensures Valid()
      ensures State() == old(State()).(orders := [NewOrder(draft, id, date, tracking)] + old(orders), cart := [])
    {
      orders := [NewOrder(draft, id, date, tracking)] + orders;
      cart := [];
    }

    method ToggleWishlist(id: string)
      requires Valid()
      modifies this
      ensures Valid()
      ensures State() == old(State()).(wishlist := AppState.ToggleWishlist(old(wishlist), id))
    {
      ToggleNoDups(wishlist, id);
      wishlist := AppState.ToggleWishlist(wishlist, id);
    }

    method AddProduct(p: Product)
      requires Valid()
      modifies this
      ensures Valid()
      ensures State() == old(State()).(products := AppState.AddProduct(old(products), p))
    {
      products := AppState.AddProduct(products, p);
    }

    method UpdateProduct(u: Product)
      requires Valid()
      modifies this
      ensures Valid()
      ensures State() == old(State()).(products := AppState.UpdateProduct(old(products), u))
    {
      products := AppState.UpdateProduct(products, u);
    }

    /** `handleDeleteProduct`: the cart and the wishlist keep lines and ids of the deleted product. */
    method DeleteProduct(id: string)
      requires Valid()
      modifies this
      ensures Valid()
      ensures State() == old(State()).(products := AppState.DeleteProduct(old(products), id))
    {
      products := AppState.DeleteProduct(products, id);
    }

    method AddReview(productId: string, review: Review)
      requires Valid()
      modifies this
      ensures Valid()
      ensures State() == old(State()).(products := AppState.AddReview(old(products), productId, review))
    {
      products := AppState.AddReview(products, productId, review);
    }

    method FindEgg(eggId: string)
      requires Valid()
      modifies this
      ensures Valid()
      ensures State() == old(State()).(foundEggs := AppState.FindEgg(old(foundEggs), eggId))
    {
      foundEggs := AppState.FindEgg(foundEggs, eggId);
    }

    method LoginSuccess(role: UserRole)
      requires Valid()
      modifies this
      ensures Valid()
      ensures State() == old(State()).(auth := AppState.LoginSuccess(role))
    {
      auth := AppState.LoginSuccess(role);
    }

    method Logout()
      requires Valid()
      modifies this
      ensures Valid()
      ensures State() == old(State()).(auth := AppState.Logout())
    {
      auth := AppState.Logout();
    }

    /** The keydown listener; the glow's five-second timeout is not modelled. */
    method KeyDown(key: string)
      requires Valid()
      modifies this
      ensures Valid()
      ensures var k := AppState.KeyDown(old(typedBuffer), key);
        State() == old(State()).(typedBuffer := k.buffer, glow := old(glow) || k.glow)
    {
      var k := AppState.KeyDown(typedBuffer, key);
      typedBuffer := k.buffer;
      if k.glow {
        glow := true;
      }
    }

    method OpenModal(p: Product)
      requires Valid()
      modifies this
      ensures Valid()
      ensures State() == old(State()).(selected := Some(p))
    {
      selected := Some(p);
    }

    method CloseModal()
      requires Valid()
      modifies this
      ensures Valid()
      ensures State() == old(State()).(selected := None)
    {
      selected := None;
    }

    /**
     * The product the modal shows: the catalogue's current copy of the
     * selected product, or the selected snapshot when it has been deleted
     * (App.tsx:388).
     */
    method ModalProduct() returns (p: Option<Product>)
      ensures selected.None? ==> p.None?
      ensures selected.Some? && HasProduct(products, selected.value.id) ==> p == FindProduct(products, selected.value.id)
      ensures selected.Some? && !HasProduct(products, selected.value.id) ==> p == selected
    {
      if selected.None? {
        p := None;
      } else {
        var found := FindProduct(products, selected.value.id);
        p := if found.Some? then found else selected;
      }
    }

    /** Whether the modal's heart shows as filled (App.tsx:393). */
    method ModalWishlisted() returns (b: bool)
      requires selected.Some?
      ensures b <==> selected.value.id in wishlist
    {
      b := selected.value.id in wishlist;
    }
  }
}
