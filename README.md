# zenkira-store, modelled in Dafny

This project models the logic of the Zenkira anime-merchandise storefront, a
React single-page shop. It covers:

- the root component's state and its handlers: cart, wishlist, orders,
  catalogue, session, found easter eggs and the typed-key buffer;
- the catalogue queries of the shop, admin, wishlist, home and categories
  pages, including the series-colour string hash with JavaScript's 32-bit
  shift semantics;
- the cart sums of the header and the checkout, with the checkout's step
  machine;
- the per-product view rules of the detail page, the quick-view modal and the
  product card: image gallery and carousel, quantity stepper, stock labels,
  stock gates, the review guard and the average rating;
- the profile's experience points, the login decision and its form, and the
  seed data with the logo's four-click counter.

Modules follow the source files:

- `Types`: `types.ts`.
- `AppState`: the pure update expressions of the `App.tsx` handlers.
- `App`: the `App.tsx` root, as a class `Store` whose methods call `AppState`.
- `Catalog`: lookup, search, the series list and the stable price sort, shared by several pages.
- `Pricing`: the `reduce` sums over the cart.
- `Shop`, `Checkout`, `Admin`, `Layout`, `Categories`, `Home`, `Wishlist`, `Profile`, `Login`: the pages and the frame of the same names.
- `ProductView`: the rules shared by `ProductDetail.tsx` and `ProductModal.tsx`.
- `ProductCard`: `ProductCard.tsx`.
- `Seed`: `constants.tsx`.
- `Wrappers`, `Seqs`, `Text`: `Option`, sequence filters and subsequences, ASCII case mapping, `trim` and string order.

Where the source's state changes step by step, the model uses a class whose
methods change fields. Each such method states its whole new state in terms
of a pure function, and the lemmas are proved about that function. The
classes are `App.Store`, `Shop.ShopPage`, `Checkout.CheckoutPage`,
`Admin.AdminDashboard`, `ProductView.ProductPanel`, `Login.LoginForm` and
`Seed.Logo`. `Categories.GetSeriesColor` keeps the source's loop.

The model follows the code, including these behaviours, which are easy to
expect otherwise:

- The order total includes shipping (`Checkout.tsx:33, 43`).
- `handlePlaceOrder` has no empty-cart guard of its own; only the checkout
  page's rendering keeps it from an empty cart.
- Deleting a product leaves its cart lines and wishlist ids in place.
- Toggling a wishlist entry twice restores which ids are listed, but not
  always their order. `AppState.ToggleTwiceReorders` exhibits this.
- The free-shipping threshold is a subtotal above 2000 (`Checkout.tsx:32`).

## Model

| member | source | states |
|---|---|---|
| Types.CategorySpellingsOutsideFilter | types.ts:16-61 | No filter category is spelled `Figure` or `Collection`, the two product spellings outside the filter set |
| Types.AbsentReviewsDiffer | types.ts:35 | A product with no review list is a different value from one with an empty list |
| Catalog.FindProduct | pages/ProductDetail.tsx:59 | `find` by id: None exactly when no product has the id; otherwise the first product carrying it |
| Catalog.FindProductUnique | pages/ProductDetail.tsx:59 | With unique ids, looking up a product's id returns that product |
| Catalog.EmptyQueryMatchesAll | pages/Shop.tsx:44-45 | The empty query matches every product |
| Catalog.SearchIgnoresCase | pages/Shop.tsx:44-45 | Upper-casing the query does not change which products match |
| Catalog.SortedSeries | pages/Shop.tsx:24-27 | The distinct series are strictly sorted, and a series is listed iff some product has it |
| Catalog.SortedSeriesNoDups | pages/Categories.tsx:20-23 | Every series is listed once |
| Catalog.SortByKey | pages/Shop.tsx:47-51 | The sorted grid is a permutation of its input |
| Catalog.SortByKeySorted | pages/Shop.tsx:48-49 | The sort's result is ordered by the key |
| Catalog.SortByKeyStable | pages/Shop.tsx:47-51 | The sort is stable: the products with any one key keep their input order |
| AppState.Occurrences | App.tsx:118 | The number of cart lines with an id is zero exactly when the id is not in the cart |
| AppState.Bump | App.tsx:120-122 | Raising the matching lines' quantities keeps the length and every line's product snapshot |
| AppState.BumpQuantity | App.tsx:120-122 | The units held of the bumped id rise by the quantity times the number of lines carrying it; other ids are unchanged |
| AppState.UniqueOccursOnce | App.tsx:116-125 | In a cart with unique ids, an id that is present occurs on exactly one line |
| AppState.AddToCart | App.tsx:116-125 | A present id keeps the cart's length; an absent id appends one line with that quantity; lines of other ids are unchanged |
| AppState.AddToCartQuantity | App.tsx:116-125 | The units of the added product rise by exactly the quantity, and other products' units are unchanged |
| AppState.AddToCartUnique | App.tsx:116-125 | Adding keeps the cart's ids unique |
| AppState.AddToCartPositive | App.tsx:116-125 | Adding a positive quantity keeps every line's quantity positive |
| AppState.UpdateCart | App.tsx:135-143 | Same length and products; lines of other ids unchanged; the matching line's quantity is at least 1 and at least `q + delta` |
| AppState.UpdateCartAbsent | App.tsx:135-143 | Updating an absent id changes nothing |
| AppState.UpdateCartClamp | App.tsx:138 | The new quantity is exactly `max(1, q + delta)` |
| AppState.UpdateCartUndo | App.tsx:135-143 | `+1` then `-1` restores a cart whose quantities are positive |
| AppState.UpdateCartFloor | App.tsx:138 | `-1` at quantity 1 leaves the line unchanged |
| AppState.RemoveFromCart | App.tsx:145-147 | The id is gone; the result is an order-preserving subsequence; every other line is kept |
| AppState.RemoveFromCartUnique | App.tsx:145-147 | Removing keeps the ids unique |
| AppState.RemovedQuantityZero | App.tsx:145-147 | No units of the removed product remain |
| AppState.AbsentQuantityZero | App.tsx:145-147 | An id with no line holds no units |
| AppState.NewOrder | App.tsx:149-156 | The new order has status Processing, carries the draft's items, total and payment method, and the given id, date and tracking number |
| AppState.OrderId | App.tsx:152 | The order id is `ZK-` followed by six decimal digits, and those digits read back as the random number |
| Text.NatToString | App.tsx:152 | A number prints as one or more decimal digits |
| Text.NatToStringValue | App.tsx:152 | Reading the printed digits back gives the number |
| AppState.NatSixDigits | App.tsx:152 | A number from 100000 to 999999 prints as six digits |
| AppState.ToggleWishlist | App.tsx:162-176 | The toggled id is listed afterwards iff it was not before; every other id keeps its membership |
| AppState.ToggleTwiceMembership | App.tsx:162-176 | Toggling twice restores the set of listed ids |
| AppState.ToggleTwiceAbsent | App.tsx:162-176 | For an id that was not listed, toggling twice restores the list exactly |
| AppState.ToggleTwiceReorders | App.tsx:170-173 | A listed id that is not last moves to the end after two toggles, so the list's order is not restored |
| AppState.ToggleNoDups | App.tsx:162-176 | The wishlist never lists an id twice |
| AppState.AddProduct | App.tsx:209-212 | The new product is first and the old catalogue follows unchanged |
| AppState.DeleteProduct | App.tsx:219-222 | No product with the id remains; the result is an order-preserving subsequence; every other product is kept |
| AppState.DeleteUndoesAdd | App.tsx:209-222 | Deleting a freshly added product with a new id restores the catalogue |
| AppState.UpdateProduct | App.tsx:214-217 | Same length and ids; every product with the updated id becomes the update, and products with other ids are unchanged |
| AppState.UpdateProductLookup | App.tsx:214-217 | After the update, looking up its id yields the updated product |
| AppState.UpdateProductAbsent | App.tsx:214-217 | An update whose id is not in the catalogue changes nothing |
| AppState.UpdateProductIdempotent | App.tsx:214-217 | Applying the same update twice equals applying it once |
| AppState.AddReview | App.tsx:224-232 | Other products are unchanged; matching products get the review in front of their reviews |
| AppState.AddReviewToMissingList | App.tsx:227 | A missing review list is treated as empty: the review list grows by one, with the review first |
| AppState.AddReviewKeepsLookup | App.tsx:224-232 | A review changes no product's id, so every lookup by id still succeeds or fails as before |
| AppState.FindEgg | App.tsx:109-114 | The egg is recorded; nothing else changes membership; no duplicates are created; the list grows only at its end, by at most one |
| AppState.FindEggIdempotent | App.tsx:110 | Finding the same egg again changes nothing |
| AppState.ProfileFor | App.tsx:179-186 | The profile's name, email, avatar, join date, loyalty points and role for each of the two roles |
| AppState.LoginSuccess | App.tsx:179-191 | The session is consistent, logged in, with the given role, and its user is the profile built for that role |
| AppState.Logout | App.tsx:200-205 | The session is consistent and logged out |
| AppState.CanView | App.tsx:351-370 | Checkout, orders and profile need a session; the admin page needs an admin session; other routes are open |
| AppState.GuardsAfterSession | App.tsx:351-370 | After a user login every member page opens but the admin page does not; after an admin login the admin page opens; after logout no guarded page opens |
| AppState.KeyDown | App.tsx:79-86 | The buffer holds at most 10 characters; the glow fires iff the last ten uppercased characters contain `ZENKIRA`, and then the buffer is emptied; otherwise the buffer is those characters and does not contain the trigger |
| AppState.KeyDownUppercase | App.tsx:79 | The buffer is always upper-case |
| AppState.TypingTriggerGlows | App.tsx:79-86 | Typing the trigger in any letter case lights the glow and empties the buffer |
| App.Store.constructor | App.tsx:40-51 | The initial state for a given catalogue (the application passes the seed catalogue): empty collections, a logged-out session and an empty buffer |
| App.Store.AddToCart | App.tsx:116-127 | Only the cart changes, to `AppState.AddToCart`; the invariant (unique cart ids, duplicate-free wishlist and eggs, consistent session, short buffer) holds |
| App.Store.BuyNow | App.tsx:129-133 | One unit is added and the modal closes; nothing else changes |
| App.Store.UpdateCart | App.tsx:135-143 | Only the cart changes, to `AppState.UpdateCart` |
| App.Store.RemoveFromCart | App.tsx:145-147 | Only the cart changes, to `AppState.RemoveFromCart`, keeping ids unique |
| App.Store.PlaceOrder | App.tsx:149-160 | The new order is prepended and the cart is emptied, with no empty-cart guard; nothing else changes |
| App.Store.ToggleWishlist | App.tsx:162-176 | Only the wishlist changes, and it stays duplicate-free |
| App.Store.AddProduct | App.tsx:209-212 | Only the catalogue changes; cart, wishlist and orders are untouched |
| App.Store.UpdateProduct | App.tsx:214-217 | Only the catalogue changes; cart lines keep their old snapshots |
| App.Store.DeleteProduct | App.tsx:219-222 | Only the catalogue changes; the cart and wishlist keep the deleted product's lines and ids |
| App.Store.AddReview | App.tsx:224-232 | Only the catalogue changes, to `AppState.AddReview` |
| App.Store.FindEgg | App.tsx:109-114 | Only the found eggs change, and they stay duplicate-free |
| App.Store.LoginSuccess | App.tsx:178-198 | Only the session changes, to the role's consistent session |
| App.Store.Logout | App.tsx:200-207 | Only the session changes, to the logged-out session |
| App.Store.KeyDown | App.tsx:77-86 | The buffer becomes `AppState.KeyDown`'s buffer and the glow turns on when it fires; nothing else changes |
| App.Store.OpenModal | App.tsx:346 | Only the selected product changes |
| App.Store.CloseModal | App.tsx:389 | The modal closes; nothing else changes |
| App.Store.ModalProduct | App.tsx:388 | The modal shows the catalogue's current copy of the selected product, or the selected snapshot once it was deleted |
| App.Store.ModalWishlisted | App.tsx:393 | The modal's heart is filled iff the selected id is in the wishlist |
| Pricing.PositiveCart | pages/Checkout.tsx:31 | With positive quantities and prices, a non-empty cart has a positive value and a count of at least its line count |
| Pricing.BumpCount | components/Layout.tsx:42 | Bumping an id raises the count by the quantity times its line count |
| Pricing.BumpValue | components/Layout.tsx:43 | Bumping an id raises the value by the quantity times its lines' snapshot prices |
| Pricing.AddToCartCount | components/Layout.tsx:42 | The header's item count rises by exactly the quantity added |
| Pricing.AddToCartValue | pages/Checkout.tsx:31 | The cart's value rises by the quantity times the price stored in the product's line, or in the new product when the id was absent |
| Pricing.StalePrice | App.tsx:116-125 | Adding a repriced product to a line created at the old price charges the old price for both units |
| Shop.Matching | pages/Shop.tsx:41-46 | The result is an order-preserving subsequence holding exactly the products that pass the category, series and search tests |
| Shop.FilteredProducts | pages/Shop.tsx:40-52 | The grid holds exactly the matching products; Featured keeps catalogue order; the price orders are non-decreasing or non-increasing |
| Shop.PriceOrderStable | pages/Shop.tsx:47-51 | Under Low to High, products of equal price keep their catalogue order |
| Shop.PriceOrderStableDescending | pages/Shop.tsx:47-51 | Under High to Low, products of equal price keep their catalogue order |
| Shop.DefaultsShowAll | pages/Shop.tsx:18-21 | The initial criteria show the whole catalogue in its order |
| Shop.UnknownCategoryShowsNothing | pages/Shop.tsx:36 | A category that no product has, taken unchecked from the URL, shows an empty grid |
| Shop.StraySpellingsOnlyUnderAll | pages/Shop.tsx:60-66 | Of the category buttons, only `All` shows a `Figure` or `Collection` product |
| Shop.AllSeries | pages/Shop.tsx:24-27 | `All`, then every series once in strictly sorted order, and only series some product has |
| Shop.ShopPage.constructor | pages/Shop.tsx:18-21 | The page starts at All, All, the empty query and Featured |
| Shop.ShopPage.ApplyUrlParams | pages/Shop.tsx:29-38 | Each criterion is overwritten only by a present, non-empty parameter; the sort order is untouched |
| Shop.ShopPage.SelectCategory | pages/Shop.tsx:83 | Only the category changes |
| Shop.ShopPage.SelectSeries | pages/Shop.tsx:102 | Only the series changes |
| Shop.ShopPage.SelectSort | pages/Shop.tsx:148 | Only the sort order changes |
| Shop.ShopPage.ClearFilters | pages/Shop.tsx:54-58 | Category, series and query go back to their defaults, and the sort order survives |
| Shop.ShopPage.Results | pages/Shop.tsx:40-52 | The grid is `FilteredProducts` of the current criteria: a permutation of the matching products, in catalogue order under Featured, by rising or falling price under the price orders |
| Shop.ClearedGridShowsAll | pages/Shop.tsx:54-58 | Whatever the earlier criteria, the cleared grid is a permutation of the whole catalogue, and the catalogue itself under Featured |
| Checkout.Shipping | pages/Checkout.tsx:32 | Shipping is free exactly when the subtotal is above 2000, and otherwise costs 250 |
| Checkout.Total | pages/Checkout.tsx:31-33 | The total is the cart's value plus its shipping, so it lies between the value and the value plus 250 |
| Checkout.ThresholdIsStrict | pages/Checkout.tsx:32 | A subtotal of 2000 costs 2250, more than a subtotal of 2001 |
| Checkout.PaymentLabel | pages/Checkout.tsx:44 | The stored payment method is the upper-cased form value: CARD, UPI or COD |
| Checkout.Draft | pages/Checkout.tsx:39-45 | The order handed over carries the cart, the shipping-inclusive total and the upper-cased payment method |
| Checkout.ScreenFor | pages/Checkout.tsx:51-64 | The empty screen shows iff the cart is empty and nothing was ordered; the confirmation shows iff an order was placed |
| Checkout.PlaceOrderNeedsCart | pages/Checkout.tsx:229-247 | The place-order button is reachable only with a non-empty cart, at step 3, before any order was placed |
| Checkout.CheckoutPage.constructor | pages/Checkout.tsx:17-24 | The page starts at step 1, not ordered, paying by card |
| Checkout.CheckoutPage.Press | pages/Checkout.tsx:129-247 | The step moves only 1 to 2 and 2 to 3; the payment choice becomes card, UPI or COD; only place-order marks the page ordered and hands over the draft, from a non-empty cart |
| Admin.QuickSearch | pages/AdminDashboard.tsx:133-136 | An order-preserving subsequence holding exactly the products whose name or series contains the term, ignoring case |
| Admin.EmptyTermListsAll | pages/AdminDashboard.tsx:133-136 | The empty term lists the whole catalogue |
| Admin.AddSlot | pages/AdminDashboard.tsx:41-46 | One empty entry is appended and the others are kept |
| Admin.SetImage | pages/AdminDashboard.tsx:48-52 | Only the entry at the index changes, to the new URL |
| Admin.RemoveAt | pages/AdminDashboard.tsx:54-57 | Exactly the entry at the index is dropped, and the others keep their order; an index out of range changes nothing |
| Admin.RemoveUndoesAddSlot | pages/AdminDashboard.tsx:41-57 | Removing the slot just added restores the list |
| Admin.SetImageUndo | pages/AdminDashboard.tsx:48-52 | Writing back the old URL restores the list |
| Admin.EditFormFor | pages/AdminDashboard.tsx:110-122 | Every field but specs and images is copied; each spec field keeps its value or becomes `''` (rarity `Common`), absent specs become the defaults, and missing images become the empty list |
| Admin.EditFormKeepsComplete | pages/AdminDashboard.tsx:110-122 | A product with every optional form field present fills the form with itself |
| Admin.KeptFeatured | pages/AdminDashboard.tsx:69 | A found product's flag, or true when the flag is missing; true when the product is gone |
| Admin.Confirmed | pages/AdminDashboard.tsx:64-81 | With a non-empty editing id, an update carrying that id and the kept flag; otherwise an add with a `ZK-ADMIN-` id and featured true; the rest is the form |
| Admin.EditConfirmRoundTrip | pages/AdminDashboard.tsx:64-125 | Editing a catalogued product and confirming untouched updates it with its own id and featured flag |
| Admin.EmptyIdEditAdds | pages/AdminDashboard.tsx:65 | A product whose id is empty cannot be edited: confirming adds a new product instead |
| Admin.AdminDashboard.constructor | pages/AdminDashboard.tsx:16-39 | The page starts with the default form, no editing id, the form and overlay closed, and an empty search |
| Admin.AdminDashboard.SetSearchTerm | pages/AdminDashboard.tsx:164 | Only the search term changes |
| Admin.AdminDashboard.Listed | pages/AdminDashboard.tsx:133-136 | The listed products are exactly those matching the current term, in catalogue order |
| Admin.AdminDashboard.AddImageSlot | pages/AdminDashboard.tsx:41-46 | Only the form's images change, by `AddSlot` |
| Admin.AdminDashboard.UpdateImage | pages/AdminDashboard.tsx:48-52 | Only the form's images change, by `SetImage` |
| Admin.AdminDashboard.RemoveImage | pages/AdminDashboard.tsx:54-57 | Only the form's images change, by `RemoveAt` |
| Admin.AdminDashboard.Submit | pages/AdminDashboard.tsx:59-62 | The confirmation overlay opens; nothing else changes |
| Admin.AdminDashboard.AbortConfirm | pages/AdminDashboard.tsx:483 | The confirmation overlay closes; nothing else changes |
| Admin.AdminDashboard.ResetForm | pages/AdminDashboard.tsx:87-108 | The form goes back to its defaults and the editing id is cleared |
| Admin.AdminDashboard.ConfirmSubmit | pages/AdminDashboard.tsx:64-85 | It returns `Confirmed` of the form, and afterwards the form is reset and the form and overlay are closed |
| Admin.AdminDashboard.Edit | pages/AdminDashboard.tsx:110-125 | The form holds `EditFormFor(p)`, the editing id is `p`'s id, and the form is open |
| Admin.AdminDashboard.InitiateAdd | pages/AdminDashboard.tsx:127-131 | The form is reset and opened |
| Admin.AdminDashboard.CloseForm | pages/AdminDashboard.tsx:191 | The form is reset and closed |
| Layout.NavLinks | components/Layout.tsx:61-70 | The Admin link is put in front iff the user is signed in as admin; otherwise there are exactly the four base links |
| Layout.BadgesFor | components/Layout.tsx:42-44 | The badges are the cart's unit count, the cart's value, and the raw wishlist length |
| Layout.PressLine | components/Layout.tsx:242-249 | `+` sets the line's quantity to `max(1, q+1)`, `−` to `max(1, q-1)`, other lines unchanged; the remove button is `RemoveFromCart` and drops the id |
| Layout.StepperKeepsLines | components/Layout.tsx:242-244 | The steppers keep every line, its id and a positive quantity |
| Layout.PlusThenMinus | components/Layout.tsx:242-244 | `+` then `-` restores the cart |
| Layout.RemovingLastLineHidesCheckout | components/Layout.tsx:249-256 | Removing the last line hides the checkout section |
| ProductView.DetailPageFor | pages/ProductDetail.tsx:129-136 | The not-found view shows exactly when no product has the id; otherwise the page shows a catalogue product with that id |
| ProductView.EveryProductHasPage | pages/ProductDetail.tsx:59 | With unique ids, each product's page shows that product |
| ProductView.GalleryImages | pages/ProductDetail.tsx:60-64 | The gallery is an order-preserving subsequence of main image, second image and extras, holding exactly the non-empty ones |
| ProductView.TwoImageGallery | components/ProductModal.tsx:35-39 | Two non-empty images and no extras give a two-image gallery |
| ProductView.SeedGalleriesNavigable | constants.tsx:5-168 | Every seed product's gallery has exactly two images, so its arrows show |
| ProductView.PrevIndex | pages/ProductDetail.tsx:252 | The previous index steps back and wraps from 0 to the last image |
| ProductView.NextIndex | pages/ProductDetail.tsx:258 | The next index steps on and wraps from the last image to 0 |
| ProductView.PrevUndoesNext | components/ProductModal.tsx:174-177 | Previous undoes next |
| ProductView.NextUndoesPrev | components/ProductModal.tsx:174-177 | Next undoes previous |
| ProductView.NextTimesAdvances | pages/ProductDetail.tsx:258 | Below the end, k presses of next advance by k |
| ProductView.NextTimesSplit | pages/ProductDetail.tsx:258 | a + b presses equal a presses followed by b presses |
| ProductView.FullCycle | pages/ProductDetail.tsx:258 | As many presses of next as there are images come back to the start |
| ProductView.StepDown | pages/ProductDetail.tsx:485 | `-` lowers the quantity by one but never below 1 |
| ProductView.StepUp | pages/ProductDetail.tsx:487 | `+` raises the quantity by one but never above the stock |
| ProductView.PlusAtNoStock | components/ProductModal.tsx:255 | At stock 0, `+` sets the quantity to 0 |
| ProductView.PlusThenMinusRestores | pages/ProductDetail.tsx:485-487 | Below the stock, `+` then `-` restores the quantity |
| ProductView.MinusThenPlusRestores | pages/ProductDetail.tsx:485-487 | From 2 up to the stock, `-` then `+` restores the quantity |
| ProductView.LevelOf | pages/ProductDetail.tsx:147-151 | Out of stock at exactly 0, low up to 5, plenty above 5 |
| ProductView.DetailStockLabel | pages/ProductDetail.tsx:147-151 | The detail page's label for each level, with the count in the low label |
| ProductView.ModalStockLabel | components/ProductModal.tsx:118-122 | The modal's label for each level, with the count in the low label |
| ProductView.LabelsTellLevelsApart | pages/ProductDetail.tsx:147-151 | Equal labels mean equal levels, for the page's and for the modal's labels |
| ProductView.DetailAdd | pages/ProductDetail.tsx:493-495 | The page's add button acts iff the stock is not 0, with the chosen quantity |
| ProductView.ModalAdd | components/ProductModal.tsx:80-84 | The modal's add acts iff the stock is positive, with the chosen quantity |
| ProductView.BuyNow | pages/ProductDetail.tsx:140-145 | Buy-now acts iff the stock is positive, with one unit |
| ProductView.AddGatesDiffer | pages/ProductDetail.tsx:494 | The page and the modal agree for non-negative stock; a negative stock passes the page's disabled test but not the modal's |
| ProductView.SoldOutIsInert | components/ProductModal.tsx:261-268 | At stock 0 neither add nor buy-now does anything |
| ProductView.ReviewId | pages/ProductDetail.tsx:115 | A review id starts with `REV-` |
| ProductView.SubmitReview | pages/ProductDetail.tsx:105-127 | Without a user, a redirect to login; with a blank comment, nothing; otherwise a review with the user's name, the rating and the comment as typed |
| ProductView.SpacesAreIgnored | components/ProductModal.tsx:100 | A comment of spaces is not submitted |
| ProductView.AverageRating | pages/ProductDetail.tsx:155-157 | 5 with no reviews; otherwise the average times the count is the rating sum |
| ProductView.RatingSumBounds | pages/ProductDetail.tsx:156 | With ratings from 1 to 5, the sum lies between the count and five times the count |
| ProductView.AverageInRange | pages/ProductDetail.tsx:155-157 | With ratings from 1 to 5, the average lies between 1 and 5 |
| ProductView.FirstEggOf | components/ProductModal.tsx:41 | None iff no egg has the series as its anime; otherwise the first egg that does |
| ProductView.AssociatedEgg | components/ProductModal.tsx:41 | The product's egg is one of the easter eggs, and its anime is the product's series |
| ProductView.DragonBallZHasNoEgg | components/ProductModal.tsx:41 | A `Dragon Ball Z` product gets no egg, because the egg is filed under `Dragon Ball` |
| ProductView.OnePieceGetsStrawHat | components/ProductModal.tsx:41 | A `One Piece` product gets the straw-hat egg |
| ProductView.ProductPanel.constructor | pages/ProductDetail.tsx:46-48 | The panel starts at quantity 1 and image 0 |
| ProductView.ProductPanel.Prev | pages/ProductDetail.tsx:249-252 | Only the image index changes, to `PrevIndex` |
| ProductView.ProductPanel.Next | pages/ProductDetail.tsx:249-258 | Only the image index changes, to `NextIndex` |
| ProductView.ProductPanel.Thumbnail | components/ProductModal.tsx:193 | Only the image index changes, to the thumbnail's |
| ProductView.ProductPanel.Minus | components/ProductModal.tsx:253 | Only the quantity changes, to `StepDown` |
| ProductView.ProductPanel.Plus | components/ProductModal.tsx:255 | Only the quantity changes, to `StepUp` |
| ProductView.ProductPanel.AddFromPage | pages/ProductDetail.tsx:493-495 | The page's add button with the panel's quantity |
| ProductView.ProductPanel.AddFromModal | components/ProductModal.tsx:80-84 | The modal's add button with the panel's quantity |
| ProductCard.CardStockLabel | components/ProductCard.tsx:20-24 | The card's label is VOID at 0, LIMITED up to 5 and READY above 5 |
| ProductCard.CardAndModalAgreeOutsideLow | components/ProductCard.tsx:20-24 | Outside the low level, the card and the modal show the same label |
| ProductCard.PowerLevel | components/ProductCard.tsx:27 | The power level is `floor(price / 100) + 9000` |
| ProductCard.PowerLevelMonotone | components/ProductCard.tsx:27 | A higher price never gives a lower power level |
| ProductCard.StyleOf | components/ProductCard.tsx:30-76 | The figure style iff the lower-cased category contains `figure`; otherwise the exact lower-case names apparel, accessories and collectibles get their styles, and any other name the plain one |
| ProductCard.CategoryStyles | components/ProductCard.tsx:30-76 | `Figures` and `Figure` get the figure style, `Collection` the plain one, and the other three their own |
| ProductCard.LowerFigures | components/ProductCard.tsx:32 | `Figures` gets the figure style |
| ProductCard.LowerFigure | components/ProductCard.tsx:32 | `Figure` gets the figure style |
| ProductCard.CardAdd | components/ProductCard.tsx:164-174 | Both card buttons add one unit of the product |
| ProductCard.TileIgnoresStock | components/ProductCard.tsx:164-174 | At stock 0 the modal refuses, but the card still adds one unit |
| ProductCard.CardHeart | components/ProductCard.tsx:116 | The heart toggles exactly this product's id |
| Categories.TilesAreShopButtons | pages/Categories.tsx:11-16 | There are four category tiles, the shop's buttons without `All` |
| Categories.CategoryCount | pages/Categories.tsx:26-28 | A tile counts the products whose category is spelled exactly like its id |
| Categories.TileCountsPartition | pages/Categories.tsx:26-28 | The four tile counts plus the `Figure` and `Collection` products add up to the catalogue's size, so those products are counted under no tile |
| Categories.ActiveSeries | pages/Categories.tsx:20-23 | The shop's series list without `All`: duplicate-free, and a series is listed iff some product has it |
| Categories.SeriesProducts | pages/Categories.tsx:86 | A series tile counts an order-preserving subsequence holding exactly the products of that series |
| Categories.ListedSeriesNonEmpty | pages/Categories.tsx:86-102 | Every listed series counts at least one product |
| Categories.ToInt32 | pages/Categories.tsx:39 | ECMAScript's ToInt32: the value in the signed 32-bit range congruent to the input modulo 2^32 |
| Categories.ToInt32InRange | pages/Categories.tsx:39 | ToInt32 leaves values already in range alone |
| Categories.ShiftLeft5 | pages/Categories.tsx:39 | `hash << 5` is in the 32-bit range and congruent to 32 times the hash modulo 2^32 |
| Categories.CodeUnits | pages/Categories.tsx:39 | A character is one UTF-16 code unit below U+10000, and otherwise a surrogate pair |
| Categories.Utf16 | pages/Categories.tsx:38 | The string's code units are 16-bit values, and there are at least as many as characters |
| Categories.SeriesColor | pages/Categories.tsx:41 | The colour index is below 4 |
| Categories.HashBound | pages/Categories.tsx:37-40 | The hash grows by less than 2^31 + 2^16 per code unit |
| Categories.ExactInDoubles | pages/Categories.tsx:37-40 | Below 2^21 code units the hash stays below 2^53, where the source's double arithmetic is exact |
| Categories.OneUnitHash | pages/Categories.tsx:37-41 | A one-letter series hashes to its own code, and its colour is that code modulo 4 |
| Categories.GetSeriesColor | pages/Categories.tsx:30-42 | The loop computes the hash of the series' code units, and the method returns `SeriesColor`, an index below 4 |
| Home.AllFeatured | pages/Home.tsx:19 | An order-preserving subsequence holding exactly the featured products |
| Home.FeaturedProducts | pages/Home.tsx:19 | At most 8 featured catalogue products: the first ones in catalogue order, all of them when there are 8 or fewer, and exactly 8 otherwise |
| Home.FeaturedInCatalogueOrder | pages/Home.tsx:19 | The showcase is an order-preserving subsequence of the catalogue |
| Wishlist.WishlistedItems | pages/Wishlist.tsx:25-59 | An order-preserving subsequence of the catalogue holding exactly the products whose ids are listed, so every card's filled heart is correct |
| Wishlist.CatalogueOrderWins | pages/Wishlist.tsx:26 | The display follows the catalogue's order, not the wishlist's |
| Wishlist.DeletedIdsDropped | pages/Wishlist.tsx:26 | After a delete, no shown card has the deleted id, while the header still counts it |
| Wishlist.HeartRemoves | pages/Wishlist.tsx:59 | Pressing a shown card's heart removes its id |
| Profile.TotalSpentPrepend | pages/Profile.tsx:15 | A new order adds its total to the amount spent |
| Profile.TotalSpentNonNegative | pages/Profile.tsx:15 | With non-negative totals, the amount spent is non-negative |
| Profile.CurrentXP | pages/Profile.tsx:16 | The experience points are `floor(spent / 10)` plus the loyalty points |
| Profile.OrderRaisesXP | pages/Profile.tsx:15-16 | Placing an order never lowers the experience points |
| Profile.ProgressPercent | pages/Profile.tsx:17-18 | The progress is at most 100, equal to xp / 100 below the tier and 100 from it on |
| Profile.ProgressMonotone | pages/Profile.tsx:18 | More experience never shows less progress |
| Profile.Purchases | pages/Profile.tsx:102 | The Purchases stat is the number of orders |
| Profile.PurchasesCountOrders | pages/Profile.tsx:102 | Placing an order raises the Purchases stat by one |
| Login.Decide | pages/Login.tsx:23-36 | Field-empty iff an input is empty; access-denied iff both are filled, the role is admin and the credentials are not exactly the master id and password; otherwise connecting with the chosen role |
| Login.AdminNeedsMasterCredentials | pages/Login.tsx:29-34 | An admin connects iff the id is `ZENKIRA` and the password is `1234` |
| Login.UserAcceptsAnyCredentials | pages/Login.tsx:28-36 | A user with any non-empty credentials connects |
| Login.Destination | pages/Login.tsx:45 | An admin lands on `/admin` and a user on `/profile` |
| Login.LoginLandsOnViewablePage | pages/Login.tsx:43-46 | After a successful login, the page navigated to passes its route guard |
| Login.LoginForm.constructor | pages/Login.tsx:13-17 | The form starts with the user role, no error, and not connecting |
| Login.LoginForm.SelectRole | pages/Login.tsx:14 | Only the role changes |
| Login.LoginForm.Submit | pages/Login.tsx:19-47 | The error is cleared, then set to the field-empty or access-denied message; only a success starts connecting with the role's scan message, and it returns the role |
| Seed.SeedIdsNumbered | constants.tsx:5-168 | There are 12 seed products, and the i-th has id `zk-0` followed by the number i + 1 in two digits |
| Seed.SeedIdsUnique | constants.tsx:5-168 | The seed ids are distinct |
| Seed.SeedDiscounts | constants.tsx:5-168 | Every seed product has an original price at least its price |
| Seed.SeedInStock | constants.tsx:5-168 | Every seed product is in stock |
| Seed.SeedFigureHidden | constants.tsx:6-19 | Seed `zk-001` is filed as `Figure`: no category button but `All` shows it |
| Seed.EggIdsDistinct | constants.tsx:221-233 | There are 11 easter eggs with distinct ids |
| Seed.Logo.constructor | constants.tsx:171 | The logo starts at zero clicks |
| Seed.Logo.Click | constants.tsx:174-180 | The fourth click fires the secret and resets the count to 0; every other click adds one |
| Seed.Logo.TimerFires | constants.tsx:181 | The two-second timer resets the count to 0 |
| Seed.FourQuickClicks | constants.tsx:174-180 | Four clicks in a row fire the secret exactly on the fourth |
| Text.TrimEmptyIffBlank | pages/ProductDetail.tsx:111 | `trim()` gives the empty string iff the comment consists of JavaScript white space only |
| Text.LastN | App.tsx:79 | `slice(-n)` keeps the last n characters, or the whole string when it is shorter |

## Left out

- Lower and upper casing map ASCII letters only. JavaScript's `toLowerCase` and `toUpperCase` are full Unicode mappings, and some of them change a string's length.
- The series sort compares code points, while JavaScript's default sort compares UTF-16 code units. The two orders differ only between characters above U+FFFF and those in U+E000 to U+FFFF.
- Categories.GetSeriesColor: the source's hash is a double. The model's integer hash equals it while the hash stays below 2^53, which `Categories.ExactInDoubles` proves for series shorter than 2^21 code units. Longer series are not covered.
- The seed products' descriptions are left out (empty strings), as are features, video URLs and specs details other than those listed. Ids, names, series, categories, prices, stock, images, featured flags and rarities are kept.
- Timers are not modelled: notifications, the glow's five-second timeout, the login progress messages and the three-second redirect, the one-second review delay and the checkout redirect. The Logo's two-second reset is an event, `Seed.Logo.TimerFires`, that may come at any time.
- The notification texts are not modelled, including the egg counter `(n/5)`, which does not match the 11 eggs.
- Audio, video playback and seeking, themes, animations and all JSX and CSS are not modelled.
- `Math.random`, `Date.now` and `toLocaleDateString` are parameters: order ids and tracking numbers, dates, review ids and admin ids. A tracking number is any string.
- geminiService.ts is not part of this model: it is a network call.
- The admin form's per-field input handlers and `Number()` parsing of price and stock are not modelled. The form is a `Product` value that the handlers replace.
- Login.LoginForm.Submit: the navigation after success is not modelled, because it runs in a timer. `Login.Destination` and `Login.LoginLandsOnViewablePage` state where it goes.
- ProductView.ProductPanel.Thumbnail: `images[activeImageIndex]` past the end of a shorter gallery is not modelled. The quantity and image index survive a change of product in the source; the panel is used per product.
- ProductView.AssociatedEgg: the modal computes the egg but does not render it.
- ProductView.AverageRating and Profile.ProgressPercent use reals instead of doubles, so rounding is not modelled.
- The product card's discount percentage and star rounding are display arithmetic on doubles and are not modelled.
- Route guards are a predicate over the session, `AppState.CanView`. Router navigation is not modelled.
- Home.FeaturedProducts: it is not proved which seed products the home page shows. The lemma is stated for every catalogue.
- The React re-render semantics, including the notification side effect inside the wishlist updater, are not modelled.
- About, Contact, Register and Orders pages are not modelled; they hold no logic beyond rendering and timers.
