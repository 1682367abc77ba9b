/**
 * The categories page (pages/Categories.tsx): the four category tiles with
 * their product counts, and one tile per series with its count and a
 * colour chosen by a string hash.
 */
module Categories {
  import opened Seqs
  import opened Types
  import opened Catalog
  import opened Shop

  // ---------------------------------------------------------------------------
  // Category tiles (Categories.tsx:10-16, 25-28, 54)

  /** `CATEGORY_METADATA`: one tile per filter category, `All` excepted. */
  const CategoryTiles: seq<Category> := [FiguresOnly, ApparelOnly, AccessoriesOnly, CollectiblesOnly]

  /** The tiles are the shop's category buttons without `All`. */
  lemma TilesAreShopButtons()
    ensures CategoryButtons == [AllCategories] + CategoryTiles
    ensures |CategoryTiles| == 4 && AllCategories !in CategoryTiles
  {
  }

  function CategoryIs(id: string): Product -> bool {
    (p: Product) => p.category.Name() == id
  }

  /** `getCategoryCount`: the number of products whose category is spelled exactly `id`. */
  function CategoryCount(ps: seq<Product>, id: string): (n: nat)
    ensures n <= |ps|
    ensures n == |Filter(ps, CategoryIs(id))|
  {
    |Filter(ps, CategoryIs(id))|
  }

  /** A spelling that no tile carries: `Figure` or `Collection`. */
  predicate Stray(p: Product) {
    p.category == Figure || p.category == Collection
  }

  function StrayFn(): Product -> bool {
    (p: Product) => Stray(p)
  }

  /**
   * The four tile counts and the products filed under a stray spelling
   * account for the catalogue exactly once: a `Figure` product is counted
   * under no tile.
   */
  lemma {:induction false} TileCountsPartition(ps: seq<Product>)
    ensures CategoryCount(ps, "Figures") + CategoryCount(ps, "Apparel") +
            CategoryCount(ps, "Accessories") + CategoryCount(ps, "Collectibles") +
            |Filter(ps, StrayFn())| == |ps|
  {
    if |ps| > 0 {
      TileCountsPartition(ps[1..]);
      CountStep(ps, CategoryIs("Figures"));
      CountStep(ps, CategoryIs("Apparel"));
      CountStep(ps, CategoryIs("Accessories"));
      CountStep(ps, CategoryIs("Collectibles"));
      CountStep(ps, StrayFn());
    }
  }

  /** One step of a count: the head counts once if it passes. */
  lemma CountStep(ps: seq<Product>, f: Product -> bool)
    requires |ps| > 0
    ensures |Filter(ps, f)| == (if f(ps[0]) then 1 else 0) + |Filter(ps[1..], f)|
  {
  }

  // ---------------------------------------------------------------------------
  // Series tiles (Categories.tsx:20-23, 85-102)

  /** `activeSeries`: every series once, in sorted order (the shop's list without `All`). */
  function ActiveSeries(ps: seq<Product>): (r: seq<string>)
    ensures r == AllSeries(ps)[1..]
    ensures NoDups(r)
    ensures forall s :: s in r <==> exists i :: 0 <= i < |ps| && ps[i].series == s
  {
    SortedSeriesNoDups(ps);
    SortedSeries(ps)
  }

  function SeriesIs(series: string): Product -> bool {
    (p: Product) => p.series == series
  }

  /** The products a series tile counts: those whose series is exactly that one. */
  function SeriesProducts(ps: seq<Product>, series: string): (r: seq<Product>)
    ensures IsSubseq(r, ps)
    ensures forall i :: 0 <= i < |r| ==> r[i].series == series
    ensures forall i :: 0 <= i < |ps| && ps[i].series == series ==> ps[i] in r
  {
    FilterIsSubseq(ps, SeriesIs(series));
    Filter(ps, SeriesIs(series))
  }

  /** Every listed series shows at least one product. */
  lemma ListedSeriesNonEmpty(ps: seq<Product>, series: string)
    requires series in ActiveSeries(ps)
    ensures |SeriesProducts(ps, series)| >= 1
  {
    var i :| 0 <= i < |ps| && ps[i].series == series;
    assert ps[i] in SeriesProducts(ps, series);
  }

  // ---------------------------------------------------------------------------
  // The series colour (Categories.tsx:30-42)

  const TwoTo31: int := 0x8000_0000
  const TwoTo32: int := 0x1_0000_0000

  /** ECMAScript's ToInt32 on an integer: the 32-bit two's-complement value congruent to `x`. */
  function ToInt32(x: int): (r: int)
    ensures -TwoTo31 <= r < TwoTo31
    ensures (r - x) % TwoTo32 == 0
  {
    var m := x % TwoTo32;
    assert x == (x / TwoTo32) * TwoTo32 + m;
    if m >= TwoTo31 then
      assert (m - TwoTo32 - x) == -(x / TwoTo32 + 1) * TwoTo32;
      m - TwoTo32
    else
      assert m - x == -(x / TwoTo32) * TwoTo32;
      m
  }

  /** Values already in the 32-bit range are left alone. */
  lemma ToInt32InRange(x: int)
    requires -TwoTo31 <= x < TwoTo31
    ensures ToInt32(x) == x
  {
    var r := ToInt32(x);
    var k := (r - x) / TwoTo32;
    assert r - x == k * TwoTo32;
  }

  /** `hash << 5`: the operand is taken to 32 bits, shifted, and the result wrapped to 32 bits again. */
  function ShiftLeft5(h: int): (r: int)
    ensures -TwoTo31 <= r < TwoTo31
    ensures (r - 32 * h) % TwoTo32 == 0
  {
    var a := ToInt32(h);
    var r := ToInt32(a * 32);
    var j, k := (a - h) / TwoTo32, (r - a * 32) / TwoTo32;
    MultipleOfTwoTo32(a - h);
    MultipleOfTwoTo32(r - a * 32);
    assert r - 32 * h == (k + 32 * j) * TwoTo32;
    MultipleHasNoRemainder(k + 32 * j);
    r
  }

  /** A number with no remainder modulo 2^32 is its quotient times 2^32. */
  lemma MultipleOfTwoTo32(d: int)
    requires d % TwoTo32 == 0
    ensures d == (d / TwoTo32) * TwoTo32
  {
  }

  lemma MultipleHasNoRemainder(m: int)
    ensures (m * TwoTo32) % TwoTo32 == 0
  {
  }

  /** The UTF-16 code units of a character: one unit, or a surrogate pair above U+FFFF. */
  function CodeUnits(c: char): (u: seq<int>)
    ensures 1 <= |u| <= 2
    ensures forall i :: 0 <= i < |u| ==> 0 <= u[i] < 0x1_0000
    ensures |u| == 1 <==> (c as int) < 0x1_0000
    ensures |u| == 1 ==> u[0] == c as int
  {
    var v := c as int;
    if v < 0x1_0000 then [v]
    else [0xD800 + (v - 0x1_0000) / 0x400, 0xDC00 + (v - 0x1_0000) % 0x400]
  }

  /** The string as JavaScript sees it: its UTF-16 code units, `charCodeAt(0)`, `charCodeAt(1)`, ... */
  function Utf16(s: string): (u: seq<int>)
    ensures |u| >= |s|
    ensures forall i :: 0 <= i < |u| ==> 0 <= u[i] < 0x1_0000
  {
    if |s| == 0 then []
    else Utf16(s[..|s| - 1]) + CodeUnits(s[|s| - 1])
  }

  /** One turn of the loop: `hash = code + ((hash << 5) - hash)`. */
  function HashStep(hash: int, code: int): int {
    code + (ShiftLeft5(hash) - hash)
  }

  /** The value of `hash` after the loop has consumed `units`. */
  function HashOf(units: seq<int>): int {
    if |units| == 0 then 0 else HashStep(HashOf(units[..|units| - 1]), units[|units| - 1])
  }

  function Abs(x: int): nat { if x < 0 then -x else x }

  /** The colour a series tile gets, as an index into the four gradients. */
  function SeriesColor(series: string): (idx: nat)
    ensures idx < 4
  {
    Abs(HashOf(Utf16(series))) % 4
  }

  /**
   * Each turn of the loop adds less than 2^31 + 2^16 to the size of the hash,
   * so for any series shorter than 2^21 code units the hash stays below
   * 2^53, where JavaScript's double arithmetic is exact integer arithmetic.
   */
  lemma {:induction false} HashBound(units: seq<int>)
    requires forall i :: 0 <= i < |units| ==> 0 <= units[i] < 0x1_0000
    ensures Abs(HashOf(units)) <= |units| * (TwoTo31 + 0x1_0000)
  {
    if |units| > 0 {
      var init := units[..|units| - 1];
      HashBound(init);
    }
  }

  lemma ExactInDoubles(series: string)
    requires |Utf16(series)| < 0x20_0000
    ensures Abs(HashOf(Utf16(series))) < 0x20_0000_0000_0000
  {
    var u := Utf16(series);
    HashBound(u);
    assert |u| * (TwoTo31 + 0x1_0000) <= 0x20_0000 * (TwoTo31 + 0x1_0000);
  }

  /** A one-letter series in the Basic Multilingual Plane hashes to its own code, as the loop runs once from 0. */
  lemma OneUnitHash(c: char)
    requires (c as int) < 0x1_0000
    ensures HashOf(Utf16([c])) == c as int
    ensures SeriesColor([c]) == (c as int) % 4
  {
    assert Utf16([c]) == Utf16([]) + CodeUnits(c);
    assert Utf16([c]) == [c as int];
    ToInt32InRange(0);
  }

  /** `getSeriesColor`: the loop over the code units, then `Math.abs(hash) % colors.length`. */
  method GetSeriesColor(series: string) returns (idx: nat)
    ensures idx == SeriesColor(series)
    ensures idx < 4
  {
    var units := Utf16(series);
    var hash := 0;
    var i := 0;
    while i < |units|
      invariant 0 <= i <= |units|
      invariant hash == HashOf(units[..i])
    {
      assert units[..i + 1][..i] == units[..i];
      hash := units[i] + (ShiftLeft5(hash) - hash);
      i := i + 1;
    }
    assert units[..|units|] == units;
    idx := (if hash < 0 then -hash else hash) % 4;
  }
}
