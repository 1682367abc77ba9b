/**
 * The cart sums shown by the header (Layout.tsx:42-43) and charged by the
 * checkout page (Checkout.tsx:31): each line counts at the price of the
 * product snapshot it was created with.
 */
module Pricing {
  import opened Types
  import opened AppState

  /** `cart.reduce((acc, item) => acc + item.price * item.quantity, 0)`. */
  function CartValue(cart: seq<CartItem>): int {
    if |cart| == 0 then 0
    else CartValue(cart[..|cart| - 1]) + cart[|cart| - 1].product.price * cart[|cart| - 1].quantity
  }

  /** `cart.reduce((acc, item) => acc + item.quantity, 0)`. */
  function CartCount(cart: seq<CartItem>): int {
    if |cart| == 0 then 0
    else CartCount(cart[..|cart| - 1]) + cart[|cart| - 1].quantity
  }

  /** The snapshot prices of the lines carrying `id`, summed. */
  function LinePrice(cart: seq<CartItem>, id: string): int {
    if |cart| == 0 then 0
    else LinePrice(cart[..|cart| - 1], id) + (if cart[|cart| - 1].Id() == id then cart[|cart| - 1].product.price else 0)
  }

  /** With positive quantities and prices the value and the count of a non-empty cart are positive. */
  lemma {:induction false} PositiveCart(cart: seq<CartItem>)
    requires PositiveQuantities(cart)
    requires forall i :: 0 <= i < |cart| ==> cart[i].product.price > 0
    ensures |cart| > 0 ==> CartValue(cart) > 0 && CartCount(cart) >= |cart|
    ensures CartValue(cart) >= 0
  {
    if |cart| > 0 {
      var n := |cart| - 1;
      PositiveCart(cart[..n]);
      assert cart[n].product.price * cart[n].quantity > 0;
    }
  }

  /** The arithmetic of one more line carrying the bumped id. */
  lemma OneMoreLine(q: int, o: int)
    ensures q * (o + 1) == q * o + q
  {
  }

  lemma {:induction false} BumpCount(cart: seq<CartItem>, id: string, q: int)
    ensures CartCount(Bump(cart, id, q)) == CartCount(cart) + q * Occurrences(cart, id)
  {
    if |cart| > 0 {
      var n := |cart| - 1;
      var b, c := Bump(cart, id, q), cart[n];
      assert b[..n] == Bump(cart[..n], id, q);
      BumpCount(cart[..n], id, q);
      var o := Occurrences(cart[..n], id);
      assert CartCount(b) == CartCount(b[..n]) + b[n].quantity;
      if c.Id() == id {
        assert b[n].quantity == c.quantity + q;
        assert Occurrences(cart, id) == o + 1;
        OneMoreLine(q, o);
      } else {
        assert b[n] == c;
        assert Occurrences(cart, id) == o;
      }
    }
  }

  /** The arithmetic of one bumped line: its new charge plus the bump on the earlier lines. */
  lemma BumpedLine(price: int, qty: int, q: int, lp: int)
    ensures price * (qty + q) + q * lp == price * qty + q * (lp + price)
  {
  }

  lemma {:induction false} BumpValue(cart: seq<CartItem>, id: string, q: int)
    ensures CartValue(Bump(cart, id, q)) == CartValue(cart) + q * LinePrice(cart, id)
  {
    if |cart| > 0 {
      var n := |cart| - 1;
      var b, c := Bump(cart, id, q), cart[n];
      assert b[..n] == Bump(cart[..n], id, q);
      BumpValue(cart[..n], id, q);
      var lp := LinePrice(cart[..n], id);
      assert CartValue(b) == CartValue(b[..n]) + b[n].product.price * b[n].quantity;
      assert CartValue(cart) == CartValue(cart[..n]) + c.product.price * c.quantity;
      if c.Id() == id {
        assert b[n] == c.(quantity := c.quantity + q);
        assert LinePrice(cart, id) == lp + c.product.price;
        BumpedLine(c.product.price, c.quantity, q, lp);
      } else {
        assert b[n] == c;
        assert LinePrice(cart, id) == lp;
      }
    }
  }

  /** The header's item count rises by exactly the quantity added. */
  lemma AddToCartCount(cart: seq<CartItem>, p: Product, q: int)
    requires UniqueIds(cart)
    ensures CartCount(AppState.AddToCart(cart, p, q)) == CartCount(cart) + q
  {
    if InCart(cart, p.id) {
      BumpCount(cart, p.id, q);
      UniqueOccursOnce(cart, p.id);
    } else {
      assert (cart + [CartItem(p, q)])[..|cart|] == cart;
    }
  }

  /**
   * Adding a product already in the cart charges the added units at the price
   * of the line's snapshot, not at the product's current price.
   */
  lemma AddToCartValue(cart: seq<CartItem>, p: Product, q: int)
    requires UniqueIds(cart)
    ensures CartValue(AppState.AddToCart(cart, p, q))
         == CartValue(cart) + q * (if InCart(cart, p.id) then LinePrice(cart, p.id) else p.price)
  {
    if InCart(cart, p.id) {
      BumpValue(cart, p.id, q);
    } else {
      assert (cart + [CartItem(p, q)])[..|cart|] == cart;
    }
  }

  /**
   * A line whose snapshot is older than an edit of its product keeps the old
   * price: adding one more unit of the edited product to a one-unit line costs
   * the old price twice, whatever the new price.
   */
  lemma StalePrice(p: Product, newPrice: int)
    ensures CartValue(AppState.AddToCart([CartItem(p, 1)], p.(price := newPrice), 1)) == 2 * p.price
  {
    var cart := [CartItem(p, 1)];
    assert cart[0].Id() == p.id;
    assert cart[..0] == [];
    AddToCartValue(cart, p.(price := newPrice), 1);
  }
}
