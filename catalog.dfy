/**
 * Queries over the product catalogue shared by several views: lookup by id,
 * the name/series search, the distinct sorted series list and the stable
 * price sort.
 */
module Catalog {
  import opened Wrappers
  import opened Seqs
  import opened Text
  import opened Types

  predicate HasProduct(ps: seq<Product>, id: string) {
    exists i :: 0 <= i < |ps| && ps[i].id == id
  }

  predicate UniqueProductIds(ps: seq<Product>) {
    forall i, j :: 0 <= i < j < |ps| ==> ps[i].id != ps[j].id
  }

  /** `products.find(p => p.id === id)`: the first product with that id. */
  function FindProduct(ps: seq<Product>, id: string): (r: Option<Product>)
    ensures r.None? <==> !HasProduct(ps, id)
    ensures r.Some? ==> r.value in ps && r.value.id == id
    ensures r.Some? ==> exists i :: 0 <= i < |ps| && ps[i] == r.value && forall j :: 0 <= j < i ==> ps[j].id != id
  {
    if |ps| == 0 then None
    else if ps[0].id == id then Some(ps[0])
    else
      var t := FindProduct(ps[1..], id);
      assert HasProduct(ps[1..], id) ==> HasProduct(ps, id) by {
        if HasProduct(ps[1..], id) {
          var k :| 0 <= k < |ps[1..]| && ps[1..][k].id == id;
          assert ps[k + 1].id == id;
        }
      }
      assert HasProduct(ps, id) ==> HasProduct(ps[1..], id) by {
        if HasProduct(ps, id) {
          var k :| 0 <= k < |ps| && ps[k].id == id;
          assert k > 0 && ps[1..][k - 1].id == id;
        }
      }
      if t.Some? then
        var k :| 0 <= k < |ps[1..]| && ps[1..][k] == t.value && forall j :: 0 <= j < k ==> ps[1..][j].id != id;
        assert ps[k + 1] == t.value;
        assert forall j :: 0 <= j < k + 1 ==> ps[j].id != id by {
          forall j | 0 <= j < k + 1 ensures ps[j].id != id {
            if j > 0 { assert ps[j] == ps[1..][j - 1]; }
          }
        }
        t
      else t
  }

  /** In a catalogue with unique ids, lookup returns exactly the product stored under that id. */
  lemma FindProductUnique(ps: seq<Product>, i: int)
    requires UniqueProductIds(ps) && 0 <= i < |ps|
    ensures FindProduct(ps, ps[i].id) == Some(ps[i])
  {
    var r := FindProduct(ps, ps[i].id);
    assert HasProduct(ps, ps[i].id);
    var k :| 0 <= k < |ps| && ps[k] == r.value && forall j :: 0 <= j < k ==> ps[j].id != ps[i].id;
    assert k == i;
  }

  // ---------------------------------------------------------------------------
  // Search (Shop.tsx:44-45, AdminDashboard.tsx:133-136)

  /** The lowercased query occurs in the lowercased name or the lowercased series. */
  predicate MatchesSearch(p: Product, query: string) {
    Contains(Lower(p.name), Lower(query)) || Contains(Lower(p.series), Lower(query))
  }

  function SearchFor(query: string): Product -> bool {
    (p: Product) => MatchesSearch(p, query)
  }

  /** The empty query is a substring of everything, so it matches every product. */
  lemma EmptyQueryMatchesAll(p: Product)
    ensures MatchesSearch(p, "")
  {
    assert Lower("") == "";
    assert StartsWith(Lower(p.name), "");
  }

  /** The search ignores ASCII letter case in the query. */
  lemma SearchIgnoresCase(p: Product, query: string)
    ensures MatchesSearch(p, Upper(query)) <==> MatchesSearch(p, query)
  {
    assert Lower(Upper(query)) == Lower(query);
  }

  // ---------------------------------------------------------------------------
  // The distinct series list (Shop.tsx:24-27, Categories.tsx:20-23)

  function SeriesOf(p: Product): string { p.series }

  /** `Array.from(new Set(products.map(p => p.series))).sort()`. */
  function SortedSeries(ps: seq<Product>): (r: seq<string>)
    ensures StrictlySorted(r)
    ensures forall s :: s in r <==> exists i :: 0 <= i < |ps| && ps[i].series == s
  {
    var all := Map(ps, SeriesOf);
    var d := Distinct(all);
    SortStringsStrict(d);
    var r := SortStrings(d);
    assert forall s :: s in r <==> s in all by {
      forall s ensures s in r <==> s in all {
        if s in all {
          var i :| 0 <= i < |all| && all[i] == s;
          assert all[i] in d;
        }
        if s in d {
          var i :| 0 <= i < |d| && d[i] == s;
          assert d[i] in all;
        }
      }
    }
    assert forall s :: s in all <==> exists i :: 0 <= i < |ps| && ps[i].series == s by {
      forall s ensures s in all <==> exists i :: 0 <= i < |ps| && ps[i].series == s {
        if s in all {
          var i :| 0 <= i < |all| && all[i] == s;
          assert ps[i].series == s;
        }
        if exists i :: 0 <= i < |ps| && ps[i].series == s {
          var i :| 0 <= i < |ps| && ps[i].series == s;
          assert all[i] == s;
        }
      }
    }
    r
  }

  /** A strictly sorted list repeats nothing, so every series is listed once. */
  lemma SortedSeriesNoDups(ps: seq<Product>)
    ensures NoDups(SortedSeries(ps))
  {
    var r := SortedSeries(ps);
    forall i, j | 0 <= i < j < |r| ensures r[i] != r[j] {
      if r[i] == r[j] {
        StrLessIrreflexive(r[i]);
      }
    }
  }

  // ---------------------------------------------------------------------------
  // The stable sort used for the price orders (Shop.tsx:47-51)

  /** Two arrangements of the same products hold the same members. */
  lemma SameMembers(a: seq<Product>, b: seq<Product>)
    requires multiset(a) == multiset(b)
    ensures forall i :: 0 <= i < |a| ==> a[i] in b
    ensures forall i :: 0 <= i < |b| ==> b[i] in a
  {
    forall i | 0 <= i < |a| ensures a[i] in b {
      assert a[i] in multiset(a);
    }
    forall i | 0 <= i < |b| ensures b[i] in a {
      assert b[i] in multiset(b);
    }
  }

  predicate SortedBy(s: seq<Product>, key: Product -> int) {
    forall i, j :: 0 <= i < j < |s| ==> key(s[i]) <= key(s[j])
  }

  function PriceKey(p: Product): int { p.price }

  /** `b.price - a.price` orders by the negated price. */
  function NegatedPriceKey(p: Product): int { -p.price }

  function KeyIs(key: Product -> int, k: int): Product -> bool {
    (p: Product) => key(p) == k
  }

  /** Inserts `x` after every entry whose key is not greater than its own. */
  function InsertByKey(t: seq<Product>, x: Product, key: Product -> int): (r: seq<Product>)
    ensures |r| == |t| + 1
    ensures multiset(r) == multiset(t) + multiset{x}
  {
    if |t| == 0 then [x]
    else if key(x) < key(t[0]) then [x] + t
    else
      assert t == [t[0]] + t[1..];
      [t[0]] + InsertByKey(t[1..], x, key)
  }

  /**
   * `Array.prototype.sort` with a numeric comparator: the sort is stable, so
   * the result is the unique key-ordered permutation that keeps equal keys in
   * input order. Insertion sort computes exactly that arrangement.
   */
  function SortByKey(s: seq<Product>, key: Product -> int): (r: seq<Product>)
    ensures |r| == |s|
    ensures multiset(r) == multiset(s)
  {
    if |s| == 0 then []
    else
      assert s == s[..|s| - 1] + [s[|s| - 1]];
      InsertByKey(SortByKey(s[..|s| - 1], key), s[|s| - 1], key)
  }

  lemma {:induction false} InsertByKeySorted(t: seq<Product>, x: Product, key: Product -> int)
    requires SortedBy(t, key)
    ensures SortedBy(InsertByKey(t, x, key), key)
  {
    if |t| > 0 && key(x) >= key(t[0]) {
      InsertByKeySorted(t[1..], x, key);
      var r := InsertByKey(t[1..], x, key);
      forall k | 0 <= k < |r| ensures key(t[0]) <= key(r[k]) {
        assert r[k] in multiset(r);
        assert r[k] in multiset(t[1..]) + multiset{x};
        if r[k] != x {
          var m :| 0 <= m < |t[1..]| && t[1..][m] == r[k];
          assert t[m + 1] == r[k];
        }
      }
    }
  }

  /** The price orders are orders: the result's keys never decrease. */
  lemma {:induction false} SortByKeySorted(s: seq<Product>, key: Product -> int)
    ensures SortedBy(SortByKey(s, key), key)
  {
    if |s| > 0 {
      SortByKeySorted(s[..|s| - 1], key);
      InsertByKeySorted(SortByKey(s[..|s| - 1], key), s[|s| - 1], key);
    }
  }

  lemma {:induction false} NoneWithKey(t: seq<Product>, key: Product -> int, k: int)
    requires forall i :: 0 <= i < |t| ==> key(t[i]) > k
    ensures Filter(t, KeyIs(key, k)) == []
  {
    if |t| > 0 {
      NoneWithKey(t[1..], key, k);
    }
  }

  lemma {:induction false} InsertBeforeAllStable(t: seq<Product>, x: Product, key: Product -> int, k: int)
    requires SortedBy(t, key) && |t| > 0 && key(x) < key(t[0])
    ensures Filter([x] + t, KeyIs(key, k)) == Filter(t, KeyIs(key, k)) + (if key(x) == k then [x] else [])
  {
    FilterCons(x, t, KeyIs(key, k));
    if key(x) == k {
      NoneWithKey(t, key, k);
    }
  }

  lemma {:induction false} InsertByKeyStable(t: seq<Product>, x: Product, key: Product -> int, k: int)
    requires SortedBy(t, key)
    ensures Filter(InsertByKey(t, x, key), KeyIs(key, k))
         == Filter(t, KeyIs(key, k)) + (if key(x) == k then [x] else [])
  {
    if |t| == 0 {
      FilterSingleton(x, KeyIs(key, k));
    } else if key(x) < key(t[0]) {
      InsertBeforeAllStable(t, x, key, k);
    } else {
      assert InsertByKey(t, x, key) == [t[0]] + InsertByKey(t[1..], x, key);
      InsertByKeyStable(t[1..], x, key, k);
      FilterConsAppend(t[0], InsertByKey(t[1..], x, key), t[1..], if key(x) == k then [x] else [], KeyIs(key, k));
      assert [t[0]] + t[1..] == t;
    }
  }

  /**
   * Stability: for every key value, the products carrying it appear in the
   * result in the same order as in the input.
   */
  lemma {:induction false} SortByKeyStable(s: seq<Product>, key: Product -> int, k: int)
    ensures Filter(SortByKey(s, key), KeyIs(key, k)) == Filter(s, KeyIs(key, k))
  {
    if |s| > 0 {
      var p, x := s[..|s| - 1], s[|s| - 1];
      assert SortByKey(s, key) == InsertByKey(SortByKey(p, key), x, key);
      SortByKeyStable(p, key, k);
      SortByKeySorted(p, key);
      InsertByKeyStable(SortByKey(p, key), x, key, k);
      FilterSnoc(s, KeyIs(key, k));
    }
  }
}
