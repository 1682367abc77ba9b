/** The product tile of the shop and home grids (components/ProductCard.tsx). */
module ProductCard {
  import opened Text
  import opened Types
  import opened AppState
  import opened ProductView

  /** The tile's stock badge: `VOID` at 0, `LIMITED` up to 5 (negatives included), else `READY`. */
  function CardStockLabel(stock: int): (s: string)
    ensures LevelOf(stock) == Empty ==> s == "VOID"
    ensures LevelOf(stock) == Low ==> s == "LIMITED"
    ensures LevelOf(stock) == Plenty ==> s == "READY"
  {
    match LevelOf(stock)
    case Empty => "VOID"
    case Low => "LIMITED"
    case Plenty => "READY"
  }

  /** The badges of the tile and of the modal agree on every stock level except in the wording of low stock. */
  lemma CardAndModalAgreeOutsideLow(stock: int)
    requires LevelOf(stock) != Low
    ensures CardStockLabel(stock) == ModalStockLabel(stock)
  {
  }

  /**
   * `powerLevel`: `Math.floor(price / 100) + 9000`. Dafny's division by a
   * positive divisor rounds down, as `Math.floor` does, for every sign.
   */
  function PowerLevel(price: int): (r: int)
    ensures 100 * (r - 9000) <= price < 100 * (r - 9000) + 100
  {
    price / 100 + 9000
  }

  /** A higher price never shows a lower power level. */
  lemma PowerLevelMonotone(a: int, b: int)
    requires a <= b
    ensures PowerLevel(a) <= PowerLevel(b)
  {
  }

  /** The hover style a tile gets from its category. */
  datatype CardStyle = FigureStyle | ApparelStyle | AccessoriesStyle | CollectiblesStyle | PlainStyle

  /**
   * `getCategoryConfig`: the lowercased category containing `figure` wins;
   * then exact `apparel`, `accessories` and `collectibles`; anything else is plain.
   */
  function StyleOf(category: string): (st: CardStyle)
    ensures st == FigureStyle <==> Contains(Lower(category), "figure")
    ensures st == ApparelStyle <==> !Contains(Lower(category), "figure") && Lower(category) == "apparel"
    ensures st == AccessoriesStyle <==> !Contains(Lower(category), "figure") && Lower(category) == "accessories"
    ensures st == CollectiblesStyle <==> !Contains(Lower(category), "figure") && Lower(category) == "collectibles"
  {
    var c := Lower(category);
    if Contains(c, "figure") then FigureStyle
    else if c == "apparel" then ApparelStyle
    else if c == "accessories" then AccessoriesStyle
    else if c == "collectibles" then CollectiblesStyle
    else PlainStyle
  }

  /** The style each of the six category spellings gets. */
  function StyleFor(c: ProductCategory): CardStyle {
    match c
    case Figures => FigureStyle
    case Figure => FigureStyle
    case Apparel => ApparelStyle
    case Accessories => AccessoriesStyle
    case Collectibles => CollectiblesStyle
    case Collection => PlainStyle
  }

  /**
   * Over the six category spellings: both `Figure` and `Figures` get the
   * figure style, and `Collection` falls through to the plain one.
   */
  lemma CategoryStyles(c: ProductCategory)
    ensures StyleOf(c.Name()) == StyleFor(c)
  {
    match c
    case Figures => LowerFigures();
    case Figure => LowerFigure();
    case Apparel => PlainSpelling("Apparel", "apparel");
    case Accessories => PlainSpelling("Accessories", "accessories");
    case Collectibles => PlainSpelling("Collectibles", "collectibles");
    case Collection => PlainSpelling("Collection", "collection");
  }

  lemma LowerFigures()
    ensures StyleOf("Figures") == FigureStyle
  {
    assert Lower("Figures") == "figures";
    assert StartsWith("figures", "figure");
  }

  lemma LowerFigure()
    ensures StyleOf("Figure") == FigureStyle
  {
    assert Lower("Figure") == "figure";
    assert StartsWith("figure", "figure");
  }

  /** A spelling without an `f` is styled by its exact lowercase form. */
  lemma PlainSpelling(name: string, lower: string)
    requires |name| > 0 && |lower| == |name| && lower[0] == LowerChar(name[0])
    requires lower[1..] == name[1..] && forall i :: 1 <= i < |name| ==> !IsAsciiUpper(name[i])
    requires 'f' !in lower
    ensures Lower(name) == lower && !Contains(lower, "figure")
  {
    MissingFirstChar(lower, "figure");
    assert forall i :: 0 <= i < |name| ==> Lower(name)[i] == lower[i] by {
      forall i | 0 <= i < |name| ensures Lower(name)[i] == lower[i] {
        if i > 0 { assert lower[i] == lower[1..][i - 1] == name[1..][i - 1]; }
      }
    }
  }

  /** Both tile buttons (add, and buy-then-checkout) hand one unit to the cart, with no stock check. */
  function CardAdd(p: Product): (r: CartIntent)
    ensures r.product == p && r.quantity == 1
  {
    CartIntent(p, 1)
  }

  /** A sold-out product refused by the modal is still added from its tile. */
  lemma TileIgnoresStock(p: Product)
    requires p.stock == 0
    ensures ModalAdd(p, 1).None? && BuyNow(p).None?
    ensures CardAdd(p) == CartIntent(p, 1)
  {
  }

  /** The heart toggles this product's id and no other. */
  function CardHeart(wishlist: seq<string>, p: Product): (r: seq<string>)
    ensures p.id in r <==> p.id !in wishlist
    ensures forall x :: x != p.id ==> (x in r <==> x in wishlist)
  {
    ToggleWishlist(wishlist, p.id)
  }
}
