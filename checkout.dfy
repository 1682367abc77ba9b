/** The checkout page (Checkout.tsx): its charges, its three steps and the order it hands over. */
module Checkout {
  import opened Wrappers
  import opened Types
  import opened Text
  import opened AppState
  import opened Pricing

  /** Above this subtotal shipping is free (Checkout.tsx:32). */
  const FreeShippingAbove: int := 2000
  const ShippingFee: int := 250

  function Shipping(subtotal: int): (s: int)
    ensures s == 0 <==> subtotal > FreeShippingAbove
    ensures s == 0 || s == ShippingFee
  {
    if subtotal > FreeShippingAbove then 0 else ShippingFee
  }

  /** The charged total: the cart's value plus shipping. */
  function Total(cart: seq<CartItem>): (t: int)
    ensures t - CartValue(cart) == Shipping(CartValue(cart))
    ensures CartValue(cart) <= t <= CartValue(cart) + ShippingFee
  {
    CartValue(cart) + Shipping(CartValue(cart))
  }

  /** A subtotal of exactly 2000 still pays shipping, so it costs more than a subtotal of 2001. */
  lemma ThresholdIsStrict()
    ensures 2000 + Shipping(2000) == 2250 && 2001 + Shipping(2001) == 2001
  {
  }

  datatype PaymentMethod = Card | Upi | Cod {
    /** The value stored in the form. */
    function Name(): string {
      match this
      case Card => "card"
      case Upi => "upi"
      case Cod => "cod"
    }
  }

  /** `formData.paymentMethod.toUpperCase()`. */
  function PaymentLabel(m: PaymentMethod): (s: string)
    ensures s == "CARD" || s == "UPI" || s == "COD"
    ensures Lower(s) == m.Name()
  {
    var s := Upper(m.Name());
    match m
    case Card => assert s == "CARD"; s
    case Upi => assert s == "UPI"; s
    case Cod => assert s == "COD"; s
  }

  /** The payload of `handlePlaceOrder` (Checkout.tsx:39-45). */
  function Draft(cart: seq<CartItem>, m: PaymentMethod): (d: OrderDraft)
    ensures d.items == cart && d.total == Total(cart) && d.paymentMethod == PaymentLabel(m)
    ensures d.total >= CartValue(cart)
  {
    OrderDraft(cart, Total(cart), PaymentLabel(m))
  }

  datatype Screen = EmptyScreen | OrderedScreen | FormScreen

  /** Which of the page's three renderings shows (Checkout.tsx:51, 64, 88). */
  function ScreenFor(cartEmpty: bool, isOrdered: bool): (s: Screen)
    ensures s == EmptyScreen <==> cartEmpty && !isOrdered
    ensures s == OrderedScreen <==> isOrdered
  {
    if cartEmpty && !isOrdered then EmptyScreen
    else if isOrdered then OrderedScreen
    else FormScreen
  }

  datatype Button = ConfirmAddress | ChooseCard | ChooseUpi | ChooseCod | VerifyPayment | PlaceSecureOrder

  /** The buttons on screen: each step's buttons show only on the form and only at that step. */
  predicate Shown(b: Button, cartEmpty: bool, isOrdered: bool, step: int) {
    ScreenFor(cartEmpty, isOrdered) == FormScreen &&
    match b
    case ConfirmAddress => step == 1
    case PlaceSecureOrder => step == 3
    case _ => step == 2
  }

  /** An order can be placed only from a non-empty cart, at step three, before any order was placed. */
  lemma PlaceOrderNeedsCart(cartEmpty: bool, isOrdered: bool, step: int)
    requires Shown(PlaceSecureOrder, cartEmpty, isOrdered, step)
    ensures !cartEmpty && !isOrdered && step == 3
  {
  }

  class CheckoutPage {
    var step: int
    var isOrdered: bool
    var paymentMethod: PaymentMethod

    ghost predicate Valid()
      reads this
    {
      1 <= step <= 3
    }

    /** The page as it mounts (Checkout.tsx:17-28). */
    constructor ()
      ensures Valid() && step == 1 && !isOrdered && paymentMethod == Card
    {
      step, isOrdered, paymentMethod := 1, false, Card;
    }

    /**
     * Pressing a button on screen. The step moves 1 to 2 and 2 to 3 only;
     * the place-order button returns the payload handed to the root and
     * marks the page as ordered.
     */
    method Press(b: Button, cart: seq<CartItem>) returns (placed: Option<OrderDraft>)
      requires Valid() && Shown(b, |cart| == 0, isOrdered, step)
      modifies this
      ensures Valid()
      ensures b == ConfirmAddress ==> step == 2 && old(step) == 1
      ensures b == VerifyPayment ==> step == 3 && old(step) == 2
      ensures b != ConfirmAddress && b != VerifyPayment ==> step == old(step)
      ensures b == ChooseCard ==> paymentMethod == Card
      ensures b == ChooseUpi ==> paymentMethod == Upi
      ensures b == ChooseCod ==> paymentMethod == Cod
      ensures b != ChooseCard && b != ChooseUpi && b != ChooseCod ==> paymentMethod == old(paymentMethod)
      ensures isOrdered <==> old(isOrdered) || b == PlaceSecureOrder
      ensures placed.Some? <==> b == PlaceSecureOrder
      ensures placed.Some? ==> |cart| > 0 && placed.value == Draft(cart, paymentMethod)
    {
      placed := None;
      match b
      case ConfirmAddress => step := 2;
      case ChooseCard => paymentMethod := Card;
      case ChooseUpi => paymentMethod := Upi;
      case ChooseCod => paymentMethod := Cod;
      case VerifyPayment => step := 3;
      case PlaceSecureOrder =>
        isOrdered := true;
        placed := Some(Draft(cart, paymentMethod));
    }
  }
}
