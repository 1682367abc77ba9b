/** The home page's featured grid (pages/Home.tsx). */
module Home {
  import opened Wrappers
  import opened Seqs
  import opened Types

  /** `p.isFeatured` is truthy: present and `true`. */
  predicate IsFeatured(p: Product) { p.isFeatured == Some(true) }

  function IsFeaturedFn(): Product -> bool { (p: Product) => IsFeatured(p) }

  /** How many featured products the grid shows at most. */
  const ShowcaseSize: nat := 8

  /** Every featured product, in catalogue order. */
  function AllFeatured(ps: seq<Product>): (r: seq<Product>)
    ensures IsSubseq(r, ps)
    ensures forall i :: 0 <= i < |r| ==> IsFeatured(r[i])
    ensures forall i :: 0 <= i < |ps| && IsFeatured(ps[i]) ==> ps[i] in r
  {
    FilterIsSubseq(ps, IsFeaturedFn());
    Filter(ps, IsFeaturedFn())
  }

  /** `featuredProducts`: `filter(p => p.isFeatured).slice(0, 8)`. */
  function FeaturedProducts(ps: seq<Product>): (r: seq<Product>)
    ensures |r| <= ShowcaseSize
    ensures forall i :: 0 <= i < |r| ==> r[i] in ps && IsFeatured(r[i])
    ensures |r| <= |AllFeatured(ps)| && r == AllFeatured(ps)[..|r|]
    ensures |AllFeatured(ps)| <= ShowcaseSize ==> r == AllFeatured(ps)
    ensures |AllFeatured(ps)| > ShowcaseSize ==> |r| == ShowcaseSize
  {
    var f := AllFeatured(ps);
    if |f| <= ShowcaseSize then f
    else
      assert forall i :: 0 <= i < ShowcaseSize ==> f[..ShowcaseSize][i] == f[i];
      f[..ShowcaseSize]
  }

  /** The grid keeps the catalogue order. */
  lemma {:induction false} FeaturedInCatalogueOrder(ps: seq<Product>)
    ensures IsSubseq(FeaturedProducts(ps), ps)
  {
    var f := AllFeatured(ps);
    var r := FeaturedProducts(ps);
    PrefixIsSubseq(r, f);
    SubseqTransitive(r, f, ps);
  }
}
