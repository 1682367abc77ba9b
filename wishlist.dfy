/** The wishlist page (pages/Wishlist.tsx). */
module Wishlist {
  import opened Seqs
  import opened Types
  import opened Catalog
  import opened AppState
  import opened Layout

  function ListedIn(wishlist: seq<string>): Product -> bool {
    (p: Product) => p.id in wishlist
  }

  /**
   * `wishlistedItems`: the catalogue products whose id is on the wishlist,
   * in catalogue order; every card is drawn with a filled heart, which is
   * right because each shown id is on the list.
   */
  function WishlistedItems(ps: seq<Product>, wishlist: seq<string>): (r: seq<Product>)
    ensures IsSubseq(r, ps)
    ensures forall i :: 0 <= i < |r| ==> r[i] in ps && r[i].id in wishlist
    ensures forall i :: 0 <= i < |ps| && ps[i].id in wishlist ==> ps[i] in r
  {
    FilterIsSubseq(ps, ListedIn(wishlist));
    Filter(ps, ListedIn(wishlist))
  }

  /** The page follows the catalogue, not the order in which products were saved. */
  lemma CatalogueOrderWins(a: Product, b: Product)
    requires a.id != b.id
    ensures WishlistedItems([a, b], [b.id, a.id]) == [a, b]
  {
    FilterCons(a, [b], ListedIn([b.id, a.id]));
    FilterSingleton(b, ListedIn([b.id, a.id]));
  }

  /**
   * After a product is deleted its id stays on the wishlist: the page no
   * longer shows it, but the header badge still counts it.
   */
  lemma DeletedIdsDropped(ps: seq<Product>, wishlist: seq<string>, id: string, cart: seq<CartItem>)
    requires id in wishlist
    ensures forall i :: 0 <= i < |WishlistedItems(DeleteProduct(ps, id), wishlist)| ==>
      WishlistedItems(DeleteProduct(ps, id), wishlist)[i].id != id
    ensures BadgesFor(cart, wishlist).wishlistCount == |wishlist|
  {
    var r := WishlistedItems(DeleteProduct(ps, id), wishlist);
    forall i | 0 <= i < |r| ensures r[i].id != id {
      assert r[i] in DeleteProduct(ps, id);
    }
  }

  /** Every product on the page is one that `toggleWishlist` on its id would remove. */
  lemma HeartRemoves(ps: seq<Product>, wishlist: seq<string>, i: int)
    requires 0 <= i < |WishlistedItems(ps, wishlist)|
    ensures WishlistedItems(ps, wishlist)[i].id !in ToggleWishlist(wishlist, WishlistedItems(ps, wishlist)[i].id)
  {
  }
}
