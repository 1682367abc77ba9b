/**
 * The product page (pages/ProductDetail.tsx) and the product modal
 * (components/ProductModal.tsx). Both show the same gallery, quantity
 * stepper and review form; they differ in their stock labels and in how
 * the add-to-cart button is gated.
 */
module ProductView {
  import opened Wrappers
  import opened Seqs
  import opened Text
  import opened Types
  import opened Catalog
  import opened Seed

  // ---------------------------------------------------------------------------
  // Lookup (ProductDetail.tsx:59, 129-136)

  datatype DetailPage = NotFound | Showing(product: Product)

  /** The page for the id in the URL: the first product with exactly that id, else the not-found view. */
  function DetailPageFor(ps: seq<Product>, id: string): (r: DetailPage)
    ensures r.NotFound? <==> !HasProduct(ps, id)
    ensures r.Showing? ==> r.product in ps && r.product.id == id
  {
    match FindProduct(ps, id)
    case None => NotFound
    case Some(p) => Showing(p)
  }

  /** With unique ids, every catalogue entry has a page of its own. */
  lemma EveryProductHasPage(ps: seq<Product>, i: int)
    requires UniqueProductIds(ps) && 0 <= i < |ps|
    ensures DetailPageFor(ps, ps[i].id) == Showing(ps[i])
  {
    FindProductUnique(ps, i);
  }

  // ---------------------------------------------------------------------------
  // The gallery (ProductDetail.tsx:60-64, ProductModal.tsx:35-39)

  /** `filter(Boolean)` on strings: the empty string and a missing value are dropped. */
  predicate IsUrl(s: string) { s != "" }

  function IsUrlFn(): string -> bool { (s: string) => IsUrl(s) }

  /** `[image, image2, ...(images || [])]`, a missing `image2` standing as `""`. */
  function Candidates(p: Product): seq<string> {
    [p.image, p.image2.GetOr("")] + p.images.GetOr([])
  }

  /** The images the gallery cycles through: every non-empty candidate, in order. */
  function GalleryImages(p: Product): (r: seq<string>)
    ensures IsSubseq(r, Candidates(p))
    ensures forall i :: 0 <= i < |r| ==> r[i] != ""
    ensures forall i :: 0 <= i < |Candidates(p)| && Candidates(p)[i] != "" ==> Candidates(p)[i] in r
  {
    FilterIsSubseq(Candidates(p), IsUrlFn());
    Filter(Candidates(p), IsUrlFn())
  }

  /** A product with a main image, a second image and no extra list shows exactly those two. */
  lemma TwoImageGallery(p: Product)
    requires p.image != "" && p.image2.Some? && p.image2.value != "" && p.images.None?
    ensures GalleryImages(p) == [p.image, p.image2.value]
  {
    assert Candidates(p) == [p.image, p.image2.value];
    FilterCons(p.image, [p.image2.value], IsUrlFn());
    FilterSingleton(p.image2.value, IsUrlFn());
  }

  /** Every seed product has two images, so its page offers the prev/next buttons. */
  lemma SeedGalleriesNavigable(i: int)
    requires 0 <= i < |PRODUCTS|
    ensures |GalleryImages(PRODUCTS[i])| == 2
  {
    TwoImageGallery(PRODUCTS[i]);
  }

  /** The prev/next buttons are rendered only for a gallery of more than one image. */
  predicate ArrowsShown(images: seq<string>) { |images| > 1 }

  /** The prev button: one step back, wrapping from the first image to the last. */
  function PrevIndex(i: nat, n: nat): (r: nat)
    requires n > 0
    ensures r < n
    ensures 0 < i < n ==> r == i - 1
    ensures i == 0 ==> r == n - 1
  {
    (i - 1 + n) % n
  }

  /** The next button: one step forward, wrapping from the last image to the first. */
  function NextIndex(i: nat, n: nat): (r: nat)
    requires n > 0
    ensures r < n
    ensures i < n - 1 ==> r == i + 1
    ensures i == n - 1 ==> r == 0
  {
    (i + 1) % n
  }

  /** Prev undoes next on every index of the gallery. */
  lemma PrevUndoesNext(i: nat, n: nat)
    requires i < n
    ensures PrevIndex(NextIndex(i, n), n) == i
  {
  }

  /** Next undoes prev on every index of the gallery. */
  lemma NextUndoesPrev(i: nat, n: nat)
    requires i < n
    ensures NextIndex(PrevIndex(i, n), n) == i
  {
  }

  /** `k` presses of next. */
  function NextTimes(i: nat, n: nat, k: nat): (r: nat)
    requires n > 0
    ensures r < n || (k == 0 && r == i)
  {
    if k == 0 then i else NextIndex(NextTimes(i, n, k - 1), n)
  }

  /** Short of the last image, `k` presses of next move exactly `k` images on. */
  lemma {:induction false} NextTimesAdvances(i: nat, n: nat, k: nat)
    requires i + k < n
    ensures NextTimes(i, n, k) == i + k
  {
    if k > 0 {
      NextTimesAdvances(i, n, k - 1);
    }
  }

  /** Pressing next `a + b` times is pressing it `a` times and then `b` times. */
  lemma {:induction false} NextTimesSplit(i: nat, n: nat, a: nat, b: nat)
    requires n > 0
    ensures NextTimes(i, n, a + b) == NextTimes(NextTimes(i, n, a), n, b)
  {
    if b > 0 {
      NextTimesSplit(i, n, a, b - 1);
    }
  }

  /** Pressing next once per image brings the gallery back to where it started. */
  lemma FullCycle(i: nat, n: nat)
    requires i < n
    ensures NextTimes(i, n, n) == i
  {
    NextTimesAdvances(i, n, n - i - 1);
    assert NextTimes(i, n, n - i) == 0;
    NextTimesSplit(i, n, n - i, i);
    if i > 0 {
      NextTimesAdvances(0, n, i);
    }
  }

  // ---------------------------------------------------------------------------
  // The quantity stepper (ProductDetail.tsx:485-487, ProductModal.tsx:253-255)

  /** `-`: `Math.max(1, quantity - 1)`. */
  function StepDown(q: int): (r: int)
    ensures r >= 1
    ensures q > 1 ==> r == q - 1
    ensures q <= 1 ==> r == 1
  {
    if q - 1 < 1 then 1 else q - 1
  }

  /** `+`: `Math.min(stock, quantity + 1)`. */
  function StepUp(q: int, stock: int): (r: int)
    ensures r <= stock
    ensures q < stock ==> r == q + 1
    ensures q >= stock ==> r == stock
  {
    if stock < q + 1 then stock else q + 1
  }

  /** With nothing in stock, `+` sets the quantity to 0 (or lower, for a negative stock). */
  lemma PlusAtNoStock(q: int)
    requires q >= 0
    ensures StepUp(q, 0) == 0
  {
  }

  /** Between 1 and the stock, `+` followed by `-` restores the quantity. */
  lemma PlusThenMinusRestores(q: int, stock: int)
    requires 1 <= q < stock
    ensures StepDown(StepUp(q, stock)) == q
  {
  }

  /** From 2 up to the stock, `-` followed by `+` restores the quantity. */
  lemma MinusThenPlusRestores(q: int, stock: int)
    requires 2 <= q <= stock
    ensures StepUp(StepDown(q), stock) == q
  {
  }

  // ---------------------------------------------------------------------------
  // Stock status (ProductDetail.tsx:147-151, ProductModal.tsx:118-122)

  datatype StockLevel = Empty | Low | Plenty

  /** `stock === 0` first, then `stock <= 5`: a negative stock counts as low. */
  function LevelOf(stock: int): (l: StockLevel)
    ensures l == Empty <==> stock == 0
    ensures l == Low <==> stock != 0 && stock <= 5
    ensures l == Plenty <==> stock > 5
  {
    if stock == 0 then Empty else if stock <= 5 then Low else Plenty
  }

  /** The product page's label. */
  function DetailStockLabel(stock: int): (s: string)
    ensures LevelOf(stock) == Empty ==> s == "OUT_OF_STOCK"
    ensures LevelOf(stock) == Low ==> s == "LOW_STOCK: ONLY " + IntToString(stock) + " REMAINING"
    ensures LevelOf(stock) == Plenty ==> s == "IN_STOCK // READY"
  {
    match LevelOf(stock)
    case Empty => "OUT_OF_STOCK"
    case Low => "LOW_STOCK: ONLY " + IntToString(stock) + " REMAINING"
    case Plenty => "IN_STOCK // READY"
  }

  /** The modal's label. */
  function ModalStockLabel(stock: int): (s: string)
    ensures LevelOf(stock) == Empty ==> s == "VOID"
    ensures LevelOf(stock) == Low ==> s == "LIMIT (" + IntToString(stock) + ")"
    ensures LevelOf(stock) == Plenty ==> s == "READY"
  {
    match LevelOf(stock)
    case Empty => "VOID"
    case Low => "LIMIT (" + IntToString(stock) + ")"
    case Plenty => "READY"
  }

  /** Each label's first letter tells the three levels apart, so equal labels mean equal levels. */
  lemma LabelsTellLevelsApart(a: int, b: int)
    ensures DetailStockLabel(a) == DetailStockLabel(b) ==> LevelOf(a) == LevelOf(b)
    ensures ModalStockLabel(a) == ModalStockLabel(b) ==> LevelOf(a) == LevelOf(b)
  {
    assert DetailStockLabel(a)[0] == DetailStockLabel(b)[0] ==> LevelOf(a) == LevelOf(b);
    assert ModalStockLabel(a)[0] == ModalStockLabel(b)[0] ==> LevelOf(a) == LevelOf(b);
  }

  // ---------------------------------------------------------------------------
  // The cart buttons (ProductDetail.tsx:140-145, 493-505; ProductModal.tsx:80-92, 261-268)

  /** What a button hands to the cart handler: the product and a quantity. */
  datatype CartIntent = CartIntent(product: Product, quantity: int)

  /**
   * The page's add button has no handler gate; it is only `disabled` at a
   * stock of exactly 0, so a negative stock still lets it through.
   */
  function DetailAdd(p: Product, quantity: int): (r: Option<CartIntent>)
    ensures r.Some? <==> p.stock != 0
    ensures r.Some? ==> r.value == CartIntent(p, quantity)
  {
    if p.stock == 0 then None else Some(CartIntent(p, quantity))
  }

  /** The modal's `handleAddToCart` checks `stock > 0` itself. */
  function ModalAdd(p: Product, quantity: int): (r: Option<CartIntent>)
    ensures r.Some? <==> p.stock > 0
    ensures r.Some? ==> r.value == CartIntent(p, quantity)
  {
    if p.stock > 0 then Some(CartIntent(p, quantity)) else None
  }

  /** Both `handleBuyNow`s act only on a positive stock, and then buy exactly one unit. */
  function BuyNow(p: Product): (r: Option<CartIntent>)
    ensures r.Some? <==> p.stock > 0
    ensures r.Some? ==> r.value == CartIntent(p, 1)
  {
    if p.stock > 0 then Some(CartIntent(p, 1)) else None
  }

  /** The two views agree except on a negative stock, where only the page's add button fires. */
  lemma AddGatesDiffer(p: Product, quantity: int)
    ensures p.stock >= 0 ==> DetailAdd(p, quantity) == ModalAdd(p, quantity)
    ensures p.stock < 0 ==> DetailAdd(p, quantity).Some? && ModalAdd(p, quantity).None?
  {
  }

  /** Whatever the view, nothing sold out can be bought or added. */
  lemma SoldOutIsInert(p: Product, quantity: int)
    requires p.stock == 0
    ensures DetailAdd(p, quantity).None? && ModalAdd(p, quantity).None? && BuyNow(p).None?
  {
  }

  // ---------------------------------------------------------------------------
  // Reviews (ProductDetail.tsx:105-127, 155-157; ProductModal.tsx:94-116)

  datatype ReviewOutcome = GoToLogin | Ignored | Submitted(review: Review)

  /** The id a review gets from the clock: `REV-` and the milliseconds. */
  function ReviewId(now: int): (r: string)
    ensures StartsWith(r, "REV-")
  {
    "REV-" + IntToString(now)
  }

  /**
   * `handleReviewSubmit`: no signed-in user sends the visitor to the login
   * page; a comment that is blank once trimmed is ignored; otherwise the
   * review carries the user's name, the chosen rating and the comment as
   * typed (untrimmed). On the page the missing-product half of the guard
   * cannot trigger, since the form is only rendered for a found product.
   */
  function SubmitReview(user: Option<UserProfile>, rating: int, comment: string, now: int, date: string): (o: ReviewOutcome)
    ensures o.GoToLogin? <==> user.None?
    ensures o.Ignored? <==> user.Some? && IsBlank(comment)
    ensures o.Submitted? ==>
      StartsWith(o.review.id, "REV-") && o.review.userName == user.value.name &&
      o.review.rating == rating && o.review.comment == comment && o.review.date == date
  {
    TrimEmptyIffBlank(comment);
    if user.None? then GoToLogin
    else if Trim(comment) == "" then Ignored
    else Submitted(Review(ReviewId(now), user.value.name, rating, comment, date))
  }

  /** A comment made only of spaces never reaches the catalogue. */
  lemma SpacesAreIgnored(user: UserProfile, rating: int, now: int, date: string)
    ensures SubmitReview(Some(user), rating, "   ", now, date) == Ignored
  {
  }

  function RatingSum(rs: seq<Review>): int {
    if |rs| == 0 then 0 else RatingSum(rs[..|rs| - 1]) + rs[|rs| - 1].rating
  }

  predicate RatingsInRange(rs: seq<Review>) {
    forall i :: 0 <= i < |rs| ==> 1 <= rs[i].rating <= 5
  }

  /** `averageRating`: the mean of the ratings, or 5 when there is no review (or no list). */
  function AverageRating(p: Product): (r: real)
    ensures p.reviews.None? || |p.reviews.value| == 0 ==> r == 5.0
    ensures p.reviews.Some? && |p.reviews.value| > 0 ==>
      r * (|p.reviews.value| as real) == RatingSum(p.reviews.value) as real
  {
    if p.reviews.Some? && |p.reviews.value| > 0 then
      (RatingSum(p.reviews.value) as real) / (|p.reviews.value| as real)
    else 5.0
  }

  lemma {:induction false} RatingSumBounds(rs: seq<Review>)
    requires RatingsInRange(rs)
    ensures |rs| <= RatingSum(rs) <= 5 * |rs|
  {
    if |rs| > 0 {
      RatingSumBounds(rs[..|rs| - 1]);
    }
  }

  /** A factor whose product with a positive number is non-negative is itself non-negative. */
  lemma NonNegativeFactor(d: real, n: real)
    requires n > 0.0 && d * n >= 0.0
    ensures d >= 0.0
  {
  }

  /** With every rating between 1 and 5, so is the average shown. */
  lemma AverageInRange(p: Product)
    requires p.reviews.Some? ==> RatingsInRange(p.reviews.value)
    ensures 1.0 <= AverageRating(p) <= 5.0
  {
    if p.reviews.Some? && |p.reviews.value| > 0 {
      var rs := p.reviews.value;
      RatingSumBounds(rs);
      var n, s, r := |rs| as real, RatingSum(rs) as real, AverageRating(p);
      assert r * n == s && n <= s <= 5.0 * n;
      assert (r - 1.0) * n == s - n;
      assert (5.0 - r) * n == 5.0 * n - s;
      NonNegativeFactor(r - 1.0, n);
      NonNegativeFactor(5.0 - r, n);
    }
  }

  // ---------------------------------------------------------------------------
  // The easter egg of the product's series (ProductModal.tsx:41)

  /** The first egg of `eggs` whose series is `series`. */
  function FirstEggOf(eggs: seq<Egg>, series: string): (r: Option<Egg>)
    ensures r.None? <==> forall i :: 0 <= i < |eggs| ==> eggs[i].anime != series
    ensures r.Some? ==> r.value.anime == series
    ensures r.Some? ==> exists i :: (0 <= i < |eggs| && eggs[i] == r.value &&
      forall j :: 0 <= j < i ==> eggs[j].anime != series)
  {
    if |eggs| == 0 then None
    else if eggs[0].anime == series then
      assert eggs[0] == eggs[0];
      Some(eggs[0])
    else
      var t := FirstEggOf(eggs[1..], series);
      if t.Some? then
        var k :| 0 <= k < |eggs[1..]| && eggs[1..][k] == t.value &&
          forall j :: 0 <= j < k ==> eggs[1..][j].anime != series;
        assert eggs[k + 1] == t.value;
        assert forall j :: 0 <= j < k + 1 ==> eggs[j].anime != series by {
          forall j | 0 <= j < k + 1 ensures eggs[j].anime != series {
            if j > 0 { assert eggs[j] == eggs[1..][j - 1]; }
          }
        }
        t
      else
        assert forall i :: 0 <= i < |eggs| ==> eggs[i].anime != series by {
          forall i | 0 <= i < |eggs| ensures eggs[i].anime != series {
            if i > 0 { assert eggs[i] == eggs[1..][i - 1]; }
          }
        }
        t
  }

  /** `associatedEgg`: looked up by exact series name. */
  function AssociatedEgg(p: Product): (r: Option<Egg>)
    ensures r.Some? ==> r.value in EASTER_EGGS && r.value.anime == p.series
  {
    FirstEggOf(EASTER_EGGS, p.series)
  }

  /**
   * The egg series is `Dragon Ball` while the catalogue writes `Dragon Ball Z`,
   * so the seed Goku products (`zk-010`, `zk-011`) have no egg.
   */
  lemma DragonBallZHasNoEgg(p: Product)
    requires p.series == "Dragon Ball Z"
    ensures AssociatedEgg(p).None?
  {
    assert forall i :: 0 <= i < |EASTER_EGGS| ==> EASTER_EGGS[i].anime != p.series;
  }

  /** A One Piece product gets the first egg, the straw hat emblem. */
  lemma OnePieceGetsStrawHat(p: Product)
    requires p.series == "One Piece"
    ensures AssociatedEgg(p) == Some(EASTER_EGGS[0])
  {
  }

  // ---------------------------------------------------------------------------
  // The view's own state

  /** The state both views keep for the product on screen. */
  class ProductPanel {
    var quantity: int
    var activeImageIndex: nat

    constructor ()
      ensures quantity == 1 && activeImageIndex == 0
    {
      quantity, activeImageIndex := 1, 0;
    }

    method Prev(images: seq<string>)
      requires ArrowsShown(images)
      modifies this
      ensures activeImageIndex == PrevIndex(old(activeImageIndex), |images|)
      ensures quantity == old(quantity)
    {
      activeImageIndex := (activeImageIndex - 1 + |images|) % |images|;
    }

    method Next(images: seq<string>)
      requires ArrowsShown(images)
      modifies this
      ensures activeImageIndex == NextIndex(old(activeImageIndex), |images|)
      ensures quantity == old(quantity)
    {
      activeImageIndex := (activeImageIndex + 1) % |images|;
    }

    /** A thumbnail selects its own image. */
    method Thumbnail(images: seq<string>, idx: nat)
      requires idx < |images|
      modifies this
      ensures activeImageIndex == idx && activeImageIndex < |images|
      ensures quantity == old(quantity)
    {
      activeImageIndex := idx;
    }

    method Minus()
      modifies this
      ensures quantity == StepDown(old(quantity))
      ensures activeImageIndex == old(activeImageIndex)
    {
      quantity := if quantity - 1 < 1 then 1 else quantity - 1;
    }

    method Plus(stock: int)
      modifies this
      ensures quantity == StepUp(old(quantity), stock)
      ensures activeImageIndex == old(activeImageIndex)
    {
      quantity := if stock < quantity + 1 then stock else quantity + 1;
    }

    /** The page's add button, with the quantity currently chosen. */
    method AddFromPage(p: Product) returns (r: Option<CartIntent>)
      ensures r == DetailAdd(p, quantity)
    {
      r := if p.stock == 0 then None else Some(CartIntent(p, quantity));
    }

    /** The modal's add button, with the quantity currently chosen. */
    method AddFromModal(p: Product) returns (r: Option<CartIntent>)
      ensures r == ModalAdd(p, quantity)
    {
      r := if p.stock > 0 then Some(CartIntent(p, quantity)) else None;
    }
  }
}
