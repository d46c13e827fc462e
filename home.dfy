/**
 * The home page's two product rows (src/pages/Home.tsx): the first four
 * best-sellers and the first four products on sale, in catalog order.
 */
module Home {
  import opened Common
  import opened ProductModel
  import Seed

  /** `products.filter(p => p.isBestSeller).slice(0, 4)`. */
  function Featured(ps: seq<Product>): seq<Product>
  {
    Take(Filter(ps, (p: Product) => IsBestSeller(p)), 4)
  }

  /** `products.filter(p => p.isOnSale).slice(0, 4)`. */
  function OnSale(ps: seq<Product>): seq<Product>
  {
    Take(Filter(ps, (p: Product) => IsOnSale(p)), 4)
  }

  /**
   * Each row holds at most four catalog products, each with its flag set (a
   * missing flag counts as unset), and is the first four such products in
   * catalog order, or all of them when there are fewer.
   */
  lemma RowsSpec(ps: seq<Product>)
    ensures |Featured(ps)| <= 4 && |OnSale(ps)| <= 4
    ensures forall p :: p in Featured(ps) ==> p in ps && p.isBestSeller == Some(true)
    ensures forall p :: p in OnSale(ps) ==> p in ps && p.isOnSale == Some(true)
    ensures var all := Filter(ps, (p: Product) => IsBestSeller(p));
            Featured(ps) == all[..Min(4, |all|)]
    ensures var all := Filter(ps, (p: Product) => IsOnSale(p));
            OnSale(ps) == all[..Min(4, |all|)]
  {
    forall p | p in Featured(ps) ensures p in ps && p.isBestSeller == Some(true) {
      assert p in Filter(ps, (q: Product) => IsBestSeller(q));
    }
    forall p | p in OnSale(ps) ensures p in ps && p.isOnSale == Some(true) {
      assert p in Filter(ps, (q: Product) => IsOnSale(q));
    }
  }

  function Ids(ps: seq<Product>): seq<int>
  {
    seq(|ps|, i requires 0 <= i < |ps| => ps[i].id)
  }

  /** Filtering a concatenation of four pieces filters each piece. */
  lemma FilterPieces(a: seq<Product>, b: seq<Product>, c: seq<Product>, d: seq<Product>, f: Product -> bool)
    ensures Filter(a + b + c + d, f) == Filter(a, f) + Filter(b, f) + Filter(c, f) + Filter(d, f)
  {
    FilterAppend(a, b, f);
    FilterAppend(a + b, c, f);
    FilterAppend(a + b + c, d, f);
  }

  /** A piece `ps[lo..hi]` whose first product is kept and no other is. */
  lemma FilterLeading(ps: seq<Product>, lo: int, hi: int, f: Product -> bool)
    requires 0 <= lo < hi <= |ps| && f(ps[lo])
    requires forall i :: lo < i < hi ==> !f(ps[i])
    ensures Filter(ps[lo..hi], f) == [ps[lo]]
  {
    var s := ps[lo..hi];
    forall i | 0 <= i < |s[1..]| ensures !f(s[1..][i]) {
      assert s[1..][i] == ps[lo + 1 + i];
    }
    FilterKeepsNone(s[1..], f);
  }

  lemma SliceFour<T>(s: seq<T>, i: int, j: int, k: int)
    requires 0 <= i <= j <= k <= |s|
    ensures s == s[0..i] + s[i..j] + s[j..k] + s[k..|s|]
  {
  }

  lemma FourSingletons<T>(a: T, b: T, c: T, d: T)
    ensures [a] + [b] + [c] + [d] == [a, b, c, d]
  {
  }

  /** The facts about the seed catalog that decide its two rows. */
  predicate SeedShaped(ps: seq<Product>)
  {
    |ps| == 19 &&
    forall i :: 0 <= i < |ps| ==>
      ps[i].id == i + 1 &&
      (IsBestSeller(ps[i]) <==> ps[i].id == 1 || ps[i].id == 7 || ps[i].id == 14 || ps[i].id == 17) &&
      (IsOnSale(ps[i]) <==> ps[i].id == 6)
  }

  /** A catalog of 19 products of which the test keeps the 1st, 7th, 14th and 17th. */
  lemma FilterKeepsFour(ps: seq<Product>, f: Product -> bool)
    requires |ps| == 19
    requires forall i :: 0 <= i < 19 ==> (f(ps[i]) <==> i == 0 || i == 6 || i == 13 || i == 16)
    ensures Filter(ps, f) == [ps[0], ps[6], ps[13], ps[16]]
  {
    FilterLeading(ps, 0, 6, f);
    FilterLeading(ps, 6, 13, f);
    FilterLeading(ps, 13, 16, f);
    FilterLeading(ps, 16, 19, f);
    FilterAssemble(ps, f);
  }

  lemma FilterAssemble(ps: seq<Product>, f: Product -> bool)
    requires |ps| == 19
    requires Filter(ps[0..6], f) == [ps[0]] && Filter(ps[6..13], f) == [ps[6]]
    requires Filter(ps[13..16], f) == [ps[13]] && Filter(ps[16..19], f) == [ps[16]]
    ensures Filter(ps, f) == [ps[0], ps[6], ps[13], ps[16]]
  {
    SliceFour(ps, 6, 13, 16);
    FilterPieces(ps[0..6], ps[6..13], ps[13..16], ps[16..19], f);
    FourSingletons(ps[0], ps[6], ps[13], ps[16]);
  }

  /** In a catalog shaped like the seed the best-sellers are the 1st, 7th, 14th and 17th products. */
  lemma ShapedBestSellers(ps: seq<Product>)
    requires SeedShaped(ps)
    ensures Filter(ps, (p: Product) => IsBestSeller(p)) == [ps[0], ps[6], ps[13], ps[16]]
  {
    var f := (p: Product) => IsBestSeller(p);
    assert forall i :: 0 <= i < 19 ==> (f(ps[i]) <==> i == 0 || i == 6 || i == 13 || i == 16);
    FilterKeepsFour(ps, f);
  }

  /** In a catalog shaped like the seed only the 6th product is on sale. */
  lemma ShapedSales(ps: seq<Product>)
    requires SeedShaped(ps)
    ensures Filter(ps, (p: Product) => IsOnSale(p)) == [ps[5]]
  {
    var f := (p: Product) => IsOnSale(p);
    assert ps == ps[..5] + ps[5..] + [] + [];
    FilterPieces(ps[..5], ps[5..], [], [], f);
    FilterKeepsNone(ps[..5], f);
    assert ps[5..] == ps[5..19];
    FilterLeading(ps, 5, 19, f);
  }

  /** The rows of a catalog shaped like the seed. */
  lemma ShapedRows(ps: seq<Product>)
    requires SeedShaped(ps)
    ensures Ids(Featured(ps)) == [1, 7, 14, 17]
    ensures Ids(OnSale(ps)) == [6]
  {
    ShapedBestSellers(ps);
    ShapedSales(ps);
    var featured := Featured(ps);
    assert featured == [ps[0], ps[6], ps[13], ps[16]];
    assert Ids(featured)[0] == 1 && Ids(featured)[1] == 7 && Ids(featured)[2] == 14 && Ids(featured)[3] == 17;
  }

  /** On the seed catalog the featured row is products 1, 7, 14 and 17, and the sale row is product 6 alone. */
  lemma SeedRows()
    ensures Ids(Featured(Seed.Products)) == [1, 7, 14, 17]
    ensures Ids(OnSale(Seed.Products)) == [6]
  {
    var ps := Seed.Products;
    assert SeedShaped(ps) by {
      Seed.SeedIds();
      Seed.SeedFlags();
    }
    ShapedRows(ps);
  }
}
