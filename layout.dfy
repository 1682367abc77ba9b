/** The page frame (Layout.tsx): navigation links, header counters and the cart drawer. */
module Layout {
  import opened Wrappers
  import opened Types
  import opened AppState
  import opened Pricing

  datatype NavLink = NavLink(name: string, path: string)

  const BaseLinks: seq<NavLink> := [
    NavLink("Shop", "/shop"), NavLink("Categories", "/categories"),
    NavLink("About", "/about"), NavLink("Contact", "/contact")]

  const AdminLink: NavLink := NavLink("Admin", "/admin")

  /** `navLinks` (Layout.tsx:61-70): the four links, with Admin put in front for a signed-in admin. */
  method NavLinks(isLoggedIn: bool, role: Option<UserRole>) returns (links: seq<NavLink>)
    ensures isLoggedIn && role == Some(Admin) ==> |links| == 5 && links[0] == AdminLink && links[1..] == BaseLinks
    ensures !(isLoggedIn && role == Some(Admin)) ==> links == BaseLinks
    ensures AdminLink in links <==> isLoggedIn && role == Some(Admin)
  {
    links := BaseLinks;
    if isLoggedIn && role == Some(Admin) {
      links := [AdminLink] + links;
    }
  }

  /** The header badges (Layout.tsx:42-44): units in the cart, its value, and wishlist entries. */
  datatype Badges = Badges(cartCount: int, cartTotal: int, wishlistCount: nat)

  function BadgesFor(cart: seq<CartItem>, wishlist: seq<string>): (b: Badges)
    ensures b.cartCount == CartCount(cart) && b.cartTotal == CartValue(cart)
    ensures b.wishlistCount == |wishlist|
  {
    Badges(CartCount(cart), CartValue(cart), |wishlist|)
  }

  /** The three buttons of a cart drawer line (Layout.tsx:242, 244, 249). */
  datatype LineButton = Minus | Plus | Remove

  function PressLine(cart: seq<CartItem>, id: string, b: LineButton): (r: seq<CartItem>)
    ensures b != Remove ==> |r| == |cart|
    ensures b != Remove ==> forall i :: 0 <= i < |cart| && cart[i].Id() != id ==> r[i] == cart[i]
    ensures b == Plus ==> forall i :: 0 <= i < |cart| && cart[i].Id() == id ==>
      r[i] == cart[i].(quantity := Max(1, cart[i].quantity + 1))
    ensures b == Minus ==> forall i :: 0 <= i < |cart| && cart[i].Id() == id ==>
      r[i] == cart[i].(quantity := Max(1, cart[i].quantity - 1))
    ensures b == Remove ==> !InCart(r, id)
    ensures b == Remove ==> r == RemoveFromCart(cart, id)
  {
    match b
    case Minus => UpdateCart(cart, id, -1)
    case Plus => UpdateCart(cart, id, 1)
    case Remove => RemoveFromCart(cart, id)
  }

  /** `−` and `+` keep every line, and keep every quantity at one or more. */
  lemma StepperKeepsLines(cart: seq<CartItem>, id: string, b: LineButton)
    requires b != Remove && PositiveQuantities(cart)
    ensures PositiveQuantities(PressLine(cart, id, b))
    ensures forall i :: 0 <= i < |cart| ==> PressLine(cart, id, b)[i].Id() == cart[i].Id()
  {
  }

  /** `+` followed by `−` on the same line leaves the cart as it was. */
  lemma PlusThenMinus(cart: seq<CartItem>, id: string)
    requires PositiveQuantities(cart)
    ensures PressLine(PressLine(cart, id, Plus), id, Minus) == cart
  {
    UpdateCartUndo(cart, id);
  }

  /** The checkout section shows for a non-empty cart only (Layout.tsx:256). */
  predicate CheckoutShown(cart: seq<CartItem>) {
    |cart| > 0
  }

  /** Removing the only line hides the checkout section. */
  lemma RemovingLastLineHidesCheckout(item: CartItem)
    ensures !CheckoutShown(PressLine([item], item.Id(), Remove))
  {
  }
}
