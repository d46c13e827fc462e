/**
 * The catalog store (src/context/ProductContext.tsx): an ordered list of
 * products that starts as the seed catalog, with add, update and delete
 * replacing the list, and lookups by id, collection and category.
 */
module Catalog {
  import opened Common
  import opened ProductModel
  import Seed

  predicate IdsUnique(ps: seq<Product>)
  {
    forall i, j :: 0 <= i < j < |ps| ==> ps[i].id != ps[j].id
  }

  /** `Math.max(...ps.map(p => p.id))` for a non-empty list. */
  function MaxId(ps: seq<Product>): (m: int)
    requires |ps| > 0
    ensures forall i :: 0 <= i < |ps| ==> ps[i].id <= m
    ensures exists i :: 0 <= i < |ps| && ps[i].id == m
  {
    if |ps| == 1 then ps[0].id
    else
      var rest := MaxId(ps[1..]);
      assert forall i :: 1 <= i < |ps| ==> ps[i] == ps[1..][i - 1];
      if ps[0].id >= rest then ps[0].id else rest
  }

  /** The id `addProduct` assigns: one past the largest live id, or 1 for an empty catalog. */
  function NextId(ps: seq<Product>): (id: int)
    ensures |ps| == 0 ==> id == 1
    ensures |ps| > 0 ==> exists i :: 0 <= i < |ps| && ps[i].id == id - 1
    ensures forall i :: 0 <= i < |ps| ==> ps[i].id < id
  {
    if |ps| > 0 then MaxId(ps) + 1 else 1
  }

  /** The list after `addProduct(draft)`. */
  function Added(ps: seq<Product>, draft: NewProduct): seq<Product>
  {
    ps + [WithDefaults(draft, NextId(ps))]
  }

  /** The list after `updateProduct(id, patch)`: every entry with that id merged with the patch. */
  function Updated(ps: seq<Product>, id: int, patch: ProductPatch): (r: seq<Product>)
    ensures |r| == |ps|
  {
    seq(|ps|, i requires 0 <= i < |ps| => if ps[i].id == id then Merge(ps[i], patch) else ps[i])
  }

  /** The list after `deleteProduct(id)`. */
  function Without(ps: seq<Product>, id: int): seq<Product>
  {
    Filter(ps, (p: Product) => p.id != id)
  }

  /** `getProductById`. */
  function ById(ps: seq<Product>, id: int): Option<Product>
  {
    Find(ps, (p: Product) => p.id == id)
  }

  /** `getProductsByCollection`. */
  function ByCollection(ps: seq<Product>, collection: string): seq<Product>
  {
    Filter(ps, (p: Product) => CollectionName(p.collection) == collection)
  }

  /** `getProductsByCategory`. */
  function ByCategory(ps: seq<Product>, category: string): seq<Product>
  {
    Filter(ps, (p: Product) => p.category == category)
  }

  // ---------------------------------------------------------------- add

  /**
   * Adding appends one product at the end carrying the fresh id, the default
   * rating and reviews and every other field of the draft; earlier entries
   * stay as they were, in order.
   */
  lemma AddedAppends(ps: seq<Product>, draft: NewProduct)
    ensures |Added(ps, draft)| == |ps| + 1
    ensures Added(ps, draft)[..|ps|] == ps
    ensures var p := Added(ps, draft)[|ps|];
            p.id == NextId(ps) && p.rating == DefaultRating && p.reviews == DefaultReviews &&
            DraftOf(p) == draft
  {
  }

  /** The fresh id exceeds every live id, so ids stay pairwise distinct. */
  lemma {:induction false} AddedKeepsIdsUnique(ps: seq<Product>, draft: NewProduct)
    requires IdsUnique(ps)
    ensures IdsUnique(Added(ps, draft))
  {
    var r := Added(ps, draft);
    forall i, j | 0 <= i < j < |r| ensures r[i].id != r[j].id {
      if j == |ps| {
        assert r[i] == ps[i];
        assert ps[i].id < NextId(ps);
      } else {
        assert r[i] == ps[i] && r[j] == ps[j];
      }
    }
  }

  /**
   * Ids come from the live entries only: deleting the product just added
   * restores the list, so the next add hands out the very same id again.
   */
  lemma {:induction false} DeleteAfterAddReusesId(ps: seq<Product>, d1: NewProduct, d2: NewProduct)
    ensures Without(Added(ps, d1), NextId(ps)) == ps
    ensures NextId(Without(Added(ps, d1), NextId(ps))) == NextId(ps)
    ensures Added(Without(Added(ps, d1), NextId(ps)), d2)[|ps|].id == NextId(ps)
  {
    var keep := (p: Product) => p.id != NextId(ps);
    FilterAppend(ps, [WithDefaults(d1, NextId(ps))], keep);
    FilterKeepsAll(ps, keep);
    assert Filter([WithDefaults(d1, NextId(ps))], keep) == [];
  }

  // ------------------------------------------------------------- update

  /** Update touches only the entries with the given id, each merged with the patch; all else stays in place. */
  lemma UpdatedOnlyMatching(ps: seq<Product>, id: int, patch: ProductPatch)
    ensures |Updated(ps, id, patch)| == |ps|
    ensures forall i :: 0 <= i < |ps| && ps[i].id != id ==> Updated(ps, id, patch)[i] == ps[i]
    ensures forall i :: 0 <= i < |ps| && ps[i].id == id ==> Updated(ps, id, patch)[i] == Merge(ps[i], patch)
  {
  }

  /** Updating an id that no entry has is a no-op. */
  lemma UpdateAbsentIsNoop(ps: seq<Product>, id: int, patch: ProductPatch)
    requires forall i :: 0 <= i < |ps| ==> ps[i].id != id
    ensures Updated(ps, id, patch) == ps
  {
  }

  /** Ids stay distinct under an update whose patch does not carry a different id. */
  lemma UpdatedKeepsIdsUnique(ps: seq<Product>, id: int, patch: ProductPatch)
    requires IdsUnique(ps)
    requires patch.id.None? || patch.id == Some(id)
    ensures IdsUnique(Updated(ps, id, patch))
  {
    var r := Updated(ps, id, patch);
    assert forall i :: 0 <= i < |ps| ==> r[i].id == ps[i].id;
  }

  // ------------------------------------------------------------- delete

  /** Delete drops exactly the entries with that id: every other entry keeps its multiplicity. */
  lemma DeleteRemovesExactly(ps: seq<Product>, id: int, p: Product)
    ensures multiset(Without(ps, id))[p] == if p.id != id then multiset(ps)[p] else 0
  {
    FilterCount(ps, (q: Product) => q.id != id, p);
  }

  /** No entry with the deleted id remains, and the survivors keep their relative order. */
  lemma DeleteKeepsOrder(ps: seq<Product>, qs: seq<Product>, id: int)
    ensures forall i :: 0 <= i < |Without(ps, id)| ==> Without(ps, id)[i].id != id
    ensures Without(ps + qs, id) == Without(ps, id) + Without(qs, id)
  {
    FilterAppend(ps, qs, (p: Product) => p.id != id);
    forall i | 0 <= i < |Without(ps, id)| ensures Without(ps, id)[i].id != id {
      assert Without(ps, id)[i] in Without(ps, id);
    }
  }

  /** Deleting an id that no entry has is a no-op. */
  lemma DeleteAbsentIsNoop(ps: seq<Product>, id: int)
    requires forall i :: 0 <= i < |ps| ==> ps[i].id != id
    ensures Without(ps, id) == ps
  {
    FilterKeepsAll(ps, (p: Product) => p.id != id);
  }

  /** Deleting keeps ids distinct. */
  lemma {:induction false} WithoutKeepsIdsUnique(ps: seq<Product>, id: int)
    requires IdsUnique(ps)
    ensures IdsUnique(Without(ps, id))
  {
    if ps != [] {
      assert IdsUnique(ps[1..]);
      WithoutKeepsIdsUnique(ps[1..], id);
      var tail := Without(ps[1..], id);
      forall q | q in tail ensures q.id != ps[0].id {
        var k :| 0 <= k < |ps[1..]| && ps[1..][k] == q;
        assert ps[k + 1] == q;
      }
    }
  }

  /** With distinct ids no product occurs twice. */
  lemma {:induction false} UniqueIdsOccurOnce(ps: seq<Product>, p: Product)
    requires IdsUnique(ps)
    requires p in ps
    ensures multiset(ps)[p] == 1
  {
    assert ps == [ps[0]] + ps[1..];
    assert IdsUnique(ps[1..]);
    if ps[0] == p {
      forall k | 0 <= k < |ps[1..]| ensures ps[1..][k] != p {
        assert ps[1..][k] == ps[k + 1];
      }
    } else {
      UniqueIdsOccurOnce(ps[1..], p);
    }
  }

  // ------------------------------------------------------------- queries

  /** With distinct ids, the lookup finds a product exactly when it is in the catalog with that id. */
  lemma ByIdUnique(ps: seq<Product>, id: int, p: Product)
    requires IdsUnique(ps)
    ensures ById(ps, id) == Some(p) <==> p in ps && p.id == id
  {
    if p in ps && p.id == id {
      var k :| 0 <= k < |ps| && ps[k] == p;
      assert Any(ps, (q: Product) => q.id == id) by {
        assert ps[k].id == id;
      }
    }
  }

  /** The collection query returns exactly the entries of that collection, each as often as in the catalog. */
  lemma ByCollectionExact(ps: seq<Product>, collection: string, p: Product)
    ensures forall q :: q in ByCollection(ps, collection) ==> CollectionName(q.collection) == collection
    ensures multiset(ByCollection(ps, collection))[p] ==
            if CollectionName(p.collection) == collection then multiset(ps)[p] else 0
  {
    FilterCount(ps, (q: Product) => CollectionName(q.collection) == collection, p);
  }

  /** The category query returns exactly the entries of that category, each as often as in the catalog. */
  lemma ByCategoryExact(ps: seq<Product>, category: string, p: Product)
    ensures forall q :: q in ByCategory(ps, category) ==> q.category == category
    ensures multiset(ByCategory(ps, category))[p] ==
            if p.category == category then multiset(ps)[p] else 0
  {
    FilterCount(ps, (q: Product) => q.category == category, p);
  }

  /** `[...new Set(products.map(p => p.category))]`: each category once, in order of first appearance. */
  function CategoriesOf(ps: seq<Product>): seq<string>
  {
    Distinct(seq(|ps|, i requires 0 <= i < |ps| => ps[i].category))
  }

  /** `[...new Set(products.map(p => p.style))]`. */
  function StylesOf(ps: seq<Product>): seq<string>
  {
    Distinct(seq(|ps|, i requires 0 <= i < |ps| => ps[i].style))
  }

  /**
   * The option lists name every category (style) of the catalog exactly once
   * and nothing else, in order of first appearance, starting with the first
   * product's.
   */
  lemma OptionListsExact(ps: seq<Product>)
    ensures NoDups(CategoriesOf(ps)) && NoDups(StylesOf(ps))
    ensures forall c :: c in CategoriesOf(ps) <==> exists i :: 0 <= i < |ps| && ps[i].category == c
    ensures forall s :: s in StylesOf(ps) <==> exists i :: 0 <= i < |ps| && ps[i].style == s
    ensures |ps| > 0 ==> CategoriesOf(ps)[0] == ps[0].category && StylesOf(ps)[0] == ps[0].style
    ensures forall i, j :: 0 <= i < j < |CategoriesOf(ps)| ==>
              FirstIndex(seq(|ps|, k requires 0 <= k < |ps| => ps[k].category), CategoriesOf(ps)[i]) <
              FirstIndex(seq(|ps|, k requires 0 <= k < |ps| => ps[k].category), CategoriesOf(ps)[j])
  {
    var cats := seq(|ps|, i requires 0 <= i < |ps| => ps[i].category);
    var styles := seq(|ps|, i requires 0 <= i < |ps| => ps[i].style);
    forall c ensures c in CategoriesOf(ps) <==> exists i :: 0 <= i < |ps| && ps[i].category == c {
      if c in CategoriesOf(ps) {
        var k :| 0 <= k < |CategoriesOf(ps)| && CategoriesOf(ps)[k] == c;
        assert c in cats;
        var i :| 0 <= i < |cats| && cats[i] == c;
        assert ps[i].category == c;
      }
      if exists i :: 0 <= i < |ps| && ps[i].category == c {
        var i :| 0 <= i < |ps| && ps[i].category == c;
        assert cats[i] == c;
      }
    }
    forall s ensures s in StylesOf(ps) <==> exists i :: 0 <= i < |ps| && ps[i].style == s {
      if s in StylesOf(ps) {
        var k :| 0 <= k < |StylesOf(ps)| && StylesOf(ps)[k] == s;
        assert s in styles;
        var i :| 0 <= i < |styles| && styles[i] == s;
        assert ps[i].style == s;
      }
      if exists i :: 0 <= i < |ps| && ps[i].style == s {
        var i :| 0 <= i < |ps| && ps[i].style == s;
        assert styles[i] == s;
      }
    }
    if |ps| > 0 {
      DistinctHead(cats);
      DistinctHead(styles);
    }
    DistinctFirstOccurrenceOrder(cats);
  }

  /** A catalog numbered 1..n has distinct ids, and the next id is n + 1. */
  lemma NumberedNextId(ps: seq<Product>)
    requires forall i :: 0 <= i < |ps| ==> ps[i].id == i + 1
    ensures IdsUnique(ps)
    ensures NextId(ps) == |ps| + 1
  {
    if |ps| > 0 {
      var m := MaxId(ps);
      assert ps[|ps| - 1].id == |ps|;
    }
  }

  /** The seed catalog has distinct ids 1..19, so the first product added gets id 20. */
  lemma SeedNextId()
    ensures IdsUnique(Seed.Products)
    ensures NextId(Seed.Products) == 20
  {
    var ps := Seed.Products;
    Seed.SeedIds();
    NumberedNextId(ps);
  }

  /** The store behind `useProducts()`. */
  class CatalogStore {
    var products: seq<Product>

    constructor()
      ensures products == Seed.Products
      ensures Valid()
    {
      products := Seed.Products;
      SeedNextId();
    }

    predicate Valid()
      reads this
    {
      IdsUnique(products)
    }

    method AddProduct(draft: NewProduct)
      modifies this
      ensures products == Added(old(products), draft)
      ensures old(Valid()) ==> Valid()
    {
      if IdsUnique(products) {
        AddedKeepsIdsUnique(products, draft);
      }
      var id := NextId(products);
      products := products + [WithDefaults(draft, id)];
    }

    method UpdateProduct(id: int, patch: ProductPatch)
      modifies this
      ensures products == Updated(old(products), id, patch)
      ensures old(Valid()) && (patch.id.None? || patch.id == Some(id)) ==> Valid()
    {
      if IdsUnique(products) && (patch.id.None? || patch.id == Some(id)) {
        UpdatedKeepsIdsUnique(products, id, patch);
      }
      products := Updated(products, id, patch);
    }

    method DeleteProduct(id: int)
      modifies this
      ensures products == Without(old(products), id)
      ensures old(Valid()) ==> Valid()
    {
      if IdsUnique(products) {
        WithoutKeepsIdsUnique(products, id);
      }
      products := Without(products, id);
    }

    /** The first product with the id, or none when no product has it. */
    function GetProductById(id: int): (r: Option<Product>)
      reads this
      ensures r.None? <==> forall i :: 0 <= i < |products| ==> products[i].id != id
      ensures r.Some? ==> r.value.id == id &&
                          exists i :: 0 <= i < |products| && products[i] == r.value &&
                                      forall j :: 0 <= j < i ==> products[j].id != id
    {
      ById(products, id)
    }

    function GetProductsByCollection(collection: string): (r: seq<Product>)
      reads this
      ensures forall q :: q in r ==> q in products && CollectionName(q.collection) == collection
      ensures forall i :: 0 <= i < |products| && CollectionName(products[i].collection) == collection ==>
                products[i] in r
    {
      FilterComplete(products, (p: Product) => CollectionName(p.collection) == collection);
      ByCollection(products, collection)
    }

    function GetProductsByCategory(category: string): (r: seq<Product>)
      reads this
      ensures forall q :: q in r ==> q in products && q.category == category
      ensures forall i :: 0 <= i < |products| && products[i].category == category ==> products[i] in r
    {
      FilterComplete(products, (p: Product) => p.category == category);
      ByCategory(products, category)
    }
  }
}
