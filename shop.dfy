/**
 * The shop page's query pipeline (src/pages/Shop.tsx): four filter criteria
 * combined with AND, then a stable sort on one of four keys, plus the
 * checkbox toggles, the URL initialisation and the page title.
 */
module Shop {
  import opened Common
  import opened Text
  import opened ProductModel
  import Catalog

  // ------------------------------------------------------------- filter

  datatype Criteria = Criteria(collection: string, categories: seq<string>, styles: seq<string>, priceRange: int)

  /** The four tests of the filter callback, all of which must hold. */
  predicate Matches(c: Criteria, p: Product)
  {
    && (c.collection == "all" || CollectionName(p.collection) == c.collection)
    && (|c.categories| == 0 || p.category in c.categories)
    && (|c.styles| == 0 || p.style in c.styles)
    && p.price <= c.priceRange
  }

  function Filtered(ps: seq<Product>, c: Criteria): seq<Product>
  {
    Filter(ps, (p: Product) => Matches(c, p))
  }

  /**
   * Soundness and completeness of the filter: everything returned satisfies
   * all four criteria, and every catalog product that satisfies them is
   * returned exactly as often as it occurs in the catalog.
   */
  lemma FilteredExact(ps: seq<Product>, c: Criteria, p: Product)
    ensures forall q :: q in Filtered(ps, c) ==> q in ps && Matches(c, q)
    ensures multiset(Filtered(ps, c))[p] == if Matches(c, p) then multiset(ps)[p] else 0
  {
    FilterCount(ps, (q: Product) => Matches(c, q), p);
  }

  // --------------------------------------------------------------- sort

  datatype SortKey = PriceLow | PriceHigh | TopRated | Featured

  /** The `switch (sortBy)`: three named keys, anything else sorts as 'featured'. */
  function SortKeyOf(sortBy: string): SortKey
  {
    if sortBy == "price-low" then PriceLow
    else if sortBy == "price-high" then PriceHigh
    else if sortBy == "rating" then TopRated
    else Featured
  }

  function Bit(b: bool): int
  {
    if b then 1 else 0
  }

  /** The comparator handed to `filtered.sort` for each key, as written in the page. */
  function Compare(key: SortKey, a: Product, b: Product): int
  {
    match key
    case PriceLow => a.price - b.price
    case PriceHigh => b.price - a.price
    case TopRated => b.rating - a.rating
    case Featured => Bit(IsBestSeller(b)) - Bit(IsBestSeller(a))
  }

  /** An integer sort key per product: ascending rank is the order every comparator asks for. */
  function Rank(key: SortKey, p: Product): int
  {
    match key
    case PriceLow => p.price
    case PriceHigh => -p.price
    case TopRated => -p.rating
    case Featured => if IsBestSeller(p) then 0 else 1
  }

  /** Each comparator is the difference of ranks, so it orders by rank and ties exactly on equal rank. */
  lemma CompareIsRankDifference(key: SortKey, a: Product, b: Product)
    ensures Compare(key, a, b) == Rank(key, a) - Rank(key, b)
  {
  }

  predicate SortedBy(key: SortKey, s: seq<Product>)
  {
    forall i, j :: 0 <= i < j < |s| ==> Rank(key, s[i]) <= Rank(key, s[j])
  }

  /** Insert x before the first element whose rank is not smaller. */
  function Insert(key: SortKey, x: Product, s: seq<Product>): (r: seq<Product>)
    ensures multiset(r) == multiset(s) + multiset{x}
  {
    if s == [] then [x]
    else if Rank(key, x) <= Rank(key, s[0]) then [x] + s
    else
      assert s == [s[0]] + s[1..];
      [s[0]] + Insert(key, x, s[1..])
  }

  /**
   * A stable sort by rank. The output of a stable sort is fixed by its input
   * and comparator, so this gives the same list as `Array.prototype.sort`,
   * which ECMA-262 requires to be stable.
   */
  function StableSort(key: SortKey, s: seq<Product>): (r: seq<Product>)
    ensures multiset(r) == multiset(s)
  {
    if s == [] then []
    else
      assert s == [s[0]] + s[1..];
      Insert(key, s[0], StableSort(key, s[1..]))
  }

  /** Every entry of Insert(key, x, s) is x or an entry of s. */
  lemma InsertElements(key: SortKey, x: Product, s: seq<Product>, y: Product)
    requires y in Insert(key, x, s)
    ensures y == x || y in s
  {
    assert y in multiset(Insert(key, x, s));
  }

  lemma {:induction false} InsertSorted(key: SortKey, x: Product, s: seq<Product>)
    requires SortedBy(key, s)
    ensures SortedBy(key, Insert(key, x, s))
  {
    if s != [] && Rank(key, x) > Rank(key, s[0]) {
      var t := Insert(key, x, s[1..]);
      assert SortedBy(key, s[1..]) by {
        forall i, j | 0 <= i < j < |s[1..]| ensures Rank(key, s[1..][i]) <= Rank(key, s[1..][j]) {
          assert s[1..][i] == s[i + 1] && s[1..][j] == s[j + 1];
        }
      }
      InsertSorted(key, x, s[1..]);
      forall m | 0 <= m < |t| ensures Rank(key, s[0]) <= Rank(key, t[m]) {
        InsertElements(key, x, s[1..], t[m]);
        if t[m] != x {
          var k :| 0 <= k < |s[1..]| && s[1..][k] == t[m];
          assert s[k + 1] == t[m];
        }
      }
      var r := [s[0]] + t;
      assert r == Insert(key, x, s);
      forall i, j | 0 <= i < j < |r| ensures Rank(key, r[i]) <= Rank(key, r[j]) {
        assert r[j] == t[j - 1];
        if i > 0 {
          assert r[i] == t[i - 1];
        }
      }
    }
  }

  /** The sort yields a list ordered by rank. */
  lemma {:induction false} StableSortSorted(key: SortKey, s: seq<Product>)
    ensures SortedBy(key, StableSort(key, s))
  {
    if s != [] {
      StableSortSorted(key, s[1..]);
      InsertSorted(key, s[0], StableSort(key, s[1..]));
    }
  }

  /** The entries of s whose rank is k, in the order of s. */
  function WithRank(key: SortKey, s: seq<Product>, k: int): seq<Product>
  {
    Filter(s, (p: Product) => Rank(key, p) == k)
  }

  lemma {:induction false} InsertWithRank(key: SortKey, x: Product, s: seq<Product>, k: int)
    ensures WithRank(key, Insert(key, x, s), k) ==
            if Rank(key, x) == k then [x] + WithRank(key, s, k) else WithRank(key, s, k)
  {
    var f := (p: Product) => Rank(key, p) == k;
    if s == [] {
      FilterCons(x, s, f);
    } else if Rank(key, x) <= Rank(key, s[0]) {
      FilterCons(x, s, f);
    } else {
      InsertWithRank(key, x, s[1..], k);
      FilterCons(s[0], Insert(key, x, s[1..]), f);
      FilterCons(s[0], s[1..], f);
      assert [s[0]] + s[1..] == s;
    }
  }

  /**
   * Stability: for every rank, the entries of that rank appear in the sorted
   * list exactly as, and in the same order as, in the input.
   */
  lemma {:induction false} StableSortStable(key: SortKey, s: seq<Product>, k: int)
    ensures WithRank(key, StableSort(key, s), k) == WithRank(key, s, k)
  {
    if s != [] {
      StableSortStable(key, s[1..], k);
      InsertWithRank(key, s[0], StableSort(key, s[1..]), k);
    }
  }

  // ------------------------------------------------------------ pipeline

  /** `filteredProducts`: filter, then sort by the selected key. */
  function Results(ps: seq<Product>, c: Criteria, sortBy: string): seq<Product>
  {
    StableSort(SortKeyOf(sortBy), Filtered(ps, c))
  }

  /**
   * The shown products are exactly the matching catalog products: each
   * satisfies all four criteria, and each matching catalog product appears as
   * often as in the catalog, which is once when ids are distinct.
   */
  lemma ResultsExact(ps: seq<Product>, c: Criteria, sortBy: string, p: Product)
    ensures forall q :: q in Results(ps, c, sortBy) ==> q in ps && Matches(c, q)
    ensures multiset(Results(ps, c, sortBy))[p] == if Matches(c, p) then multiset(ps)[p] else 0
    ensures Catalog.IdsUnique(ps) && p in ps && Matches(c, p) ==> multiset(Results(ps, c, sortBy))[p] == 1
  {
    var r := Results(ps, c, sortBy);
    FilteredExact(ps, c, p);
    forall q | q in r ensures q in ps && Matches(c, q) {
      assert q in multiset(r);
      FilteredExact(ps, c, q);
    }
    if Catalog.IdsUnique(ps) && p in ps {
      Catalog.UniqueIdsOccurOnce(ps, p);
    }
  }

  /** Under every key the shown list is ordered as the page's comparator asks: no pair is out of order. */
  lemma ResultsOrdered(ps: seq<Product>, c: Criteria, sortBy: string)
    ensures var r := Results(ps, c, sortBy);
            forall i, j :: 0 <= i < j < |r| ==> Compare(SortKeyOf(sortBy), r[i], r[j]) <= 0
  {
    StableSortSorted(SortKeyOf(sortBy), Filtered(ps, c));
  }

  /** 'price-low' is non-decreasing in price; 'price-high' is non-increasing. */
  lemma PriceOrders(ps: seq<Product>, c: Criteria)
    ensures var r := Results(ps, c, "price-low");
            forall i, j :: 0 <= i < j < |r| ==> r[i].price <= r[j].price
    ensures var r := Results(ps, c, "price-high");
            forall i, j :: 0 <= i < j < |r| ==> r[i].price >= r[j].price
  {
    StableSortSorted(PriceLow, Filtered(ps, c));
    StableSortSorted(PriceHigh, Filtered(ps, c));
  }

  /** 'rating' is non-increasing in rating. */
  lemma RatingOrder(ps: seq<Product>, c: Criteria)
    ensures var r := Results(ps, c, "rating");
            forall i, j :: 0 <= i < j < |r| ==> r[i].rating >= r[j].rating
  {
    StableSortSorted(TopRated, Filtered(ps, c));
  }

  /** Under any other key every best-seller comes before every other product (a missing flag is false). */
  lemma FeaturedOrder(ps: seq<Product>, c: Criteria, sortBy: string)
    requires sortBy !in {"price-low", "price-high", "rating"}
    ensures var r := Results(ps, c, sortBy);
            forall i, j :: 0 <= i < j < |r| && IsBestSeller(r[j]) ==> IsBestSeller(r[i])
  {
    StableSortSorted(Featured, Filtered(ps, c));
  }

  /**
   * Under every key, the shown products that tie on the key keep their
   * relative catalog order: they are the catalog's matching products of that
   * key value, in catalog order.
   */
  lemma ResultsStable(ps: seq<Product>, c: Criteria, sortBy: string, k: int)
    ensures WithRank(SortKeyOf(sortBy), Results(ps, c, sortBy), k) ==
            Filter(ps, (p: Product) => Matches(c, p) && Rank(SortKeyOf(sortBy), p) == k)
  {
    var key := SortKeyOf(sortBy);
    StableSortStable(key, Filtered(ps, c), k);
    FilterFilter(ps, (p: Product) => Matches(c, p), (p: Product) => Rank(key, p) == k,
                 (p: Product) => Matches(c, p) && Rank(key, p) == k);
  }

  /** ResultsStable for every key value at once. */
  lemma ResultsStableEverywhere(ps: seq<Product>, c: Criteria, sortBy: string)
    ensures forall k :: WithRank(SortKeyOf(sortBy), Results(ps, c, sortBy), k) ==
                        Filter(ps, (p: Product) => Matches(c, p) && Rank(SortKeyOf(sortBy), p) == k)
  {
    forall k {
      ResultsStable(ps, c, sortBy, k);
    }
  }

  // ---------------------------------------------------------- checkboxes

  /** `prev.includes(v) ? prev.filter(x => x !== v) : [...prev, v]`. */
  function Toggle(selected: seq<string>, v: string): seq<string>
  {
    if v in selected then Filter(selected, (x: string) => x != v) else selected + [v]
  }

  /** A toggle flips whether v is selected and leaves every other value's selection alone. */
  lemma ToggleMembership(selected: seq<string>, v: string, w: string)
    ensures v in Toggle(selected, v) <==> v !in selected
    ensures w != v ==> (w in Toggle(selected, v) <==> w in selected)
  {
    var keep := (x: string) => x != v;
    if v in selected && w != v && w in selected {
      FilterCount(selected, keep, w);
      assert w in multiset(selected);
    }
  }

  /** Toggling an unselected value twice restores the list exactly. */
  lemma {:induction false} ToggleTwiceRestores(selected: seq<string>, v: string)
    requires v !in selected
    ensures Toggle(Toggle(selected, v), v) == selected
  {
    var keep := (x: string) => x != v;
    FilterAppend(selected, [v], keep);
    FilterKeepsAll(selected, keep);
    assert Filter([v], keep) == [];
  }

  /**
   * Toggling a selected value twice keeps the same selection but moves the
   * value to the end of the list.
   */
  lemma ToggleTwiceMovesToEnd(selected: seq<string>, v: string)
    requires v in selected
    ensures Toggle(Toggle(selected, v), v) == Filter(selected, (x: string) => x != v) + [v]
  {
    var once := Filter(selected, (x: string) => x != v);
    assert v !in once;
  }

  lemma ToggleKeepsNoDups(selected: seq<string>, v: string)
    requires NoDups(selected)
    ensures NoDups(Toggle(selected, v))
  {
    if v in selected {
      FilterNoDups(selected, (x: string) => x != v);
    }
  }

  lemma {:induction false} FilterNoDups(s: seq<string>, keep: string -> bool)
    requires NoDups(s)
    ensures NoDups(Filter(s, keep))
  {
    if s != [] {
      FilterNoDups(s[1..], keep);
      forall q | q in Filter(s[1..], keep) ensures q != s[0] {
        var k :| 0 <= k < |s[1..]| && s[1..][k] == q;
        assert s[k + 1] == q;
      }
    }
  }

  // ------------------------------------------------------- URL and title

  /** The collection query parameter, 'all' when missing or empty. */
  function CollectionFromUrl(collectionParam: Option<string>): string
  {
    if Truthy(collectionParam) then collectionParam.value else "all"
  }

  /** The category query parameter as a one-element selection, none when missing or empty. */
  function CategoriesFromUrl(categoryParam: Option<string>): seq<string>
  {
    if Truthy(categoryParam) then [categoryParam.value] else []
  }

  /**
   * A missing or empty parameter selects nothing: the collection is 'all'
   * and no category is selected; a present one is taken verbatim, so a link
   * with only a category lands on that category's title.
   */
  lemma UrlSelections(collectionParam: Option<string>, categoryParam: Option<string>)
    ensures CollectionFromUrl(collectionParam) == "all" <==> !Truthy(collectionParam) || collectionParam.value == "all"
    ensures Truthy(collectionParam) ==> CollectionFromUrl(collectionParam) == collectionParam.value
    ensures |CategoriesFromUrl(categoryParam)| <= 1
    ensures CategoriesFromUrl(categoryParam) == [] <==> !Truthy(categoryParam)
    ensures Truthy(categoryParam) ==> categoryParam.value in CategoriesFromUrl(categoryParam)
    ensures !Truthy(collectionParam) && Truthy(categoryParam) ==>
              PageTitle(CollectionFromUrl(collectionParam), CategoriesFromUrl(categoryParam)) ==
              "Shop " + categoryParam.value + "s"
  {
  }

  /** `getPageTitle()`. */
  function PageTitle(collection: string, categories: seq<string>): string
  {
    if collection != "all" then Capitalize(collection) + "'s Collection"
    else if |categories| == 1 then "Shop " + categories[0] + "s"
    else "All Jewelry"
  }

  /** The collection's name as a heading word. */
  function Heading(c: Collection): string
  {
    match c
    case Men => "Men"
    case Women => "Women"
    case Kids => "Kids"
    case Unisex => "Unisex"
  }

  /**
   * The title names the selected collection when there is one (for instance
   * "Women's Collection"), else the single selected category (for instance
   * "Shop Rings"), else "All Jewelry".
   */
  lemma PageTitleCases(c: Collection, category: string, categories: seq<string>)
    ensures PageTitle(CollectionName(c), categories) == Heading(c) + "'s Collection"
    ensures PageTitle("all", [category]) == "Shop " + category + "s"
    ensures |categories| != 1 ==> PageTitle("all", categories) == "All Jewelry"
  {
    var name := CollectionName(c);
    assert Capitalize(name) == Heading(c) by {
      assert Capitalize(name) == [UpperChar(name[0])] + name[1..];
    }
  }

  /** The shop page's filter state. */
  class ShopPage {
    var collection: string
    var categories: seq<string>
    var styles: seq<string>
    var priceRange: int
    var sortBy: string

    /** Initial state: collection and category from the URL, no styles, a 50000 cap, 'featured'. */
    constructor(collectionParam: Option<string>, categoryParam: Option<string>)
      ensures collection == CollectionFromUrl(collectionParam)
      ensures categories == CategoriesFromUrl(categoryParam)
      ensures styles == [] && priceRange == 50000 && sortBy == "featured"
    {
      collection := CollectionFromUrl(collectionParam);
      categories := CategoriesFromUrl(categoryParam);
      styles := [];
      priceRange := 50000;
      sortBy := "featured";
    }

    function CurrentCriteria(): Criteria
      reads this
    {
      Criteria(collection, categories, styles, priceRange)
    }

    /** The effect run when the query string changes: it resets collection and categories only. */
    method SyncWithUrl(collectionParam: Option<string>, categoryParam: Option<string>)
      modifies this
      ensures collection == CollectionFromUrl(collectionParam)
      ensures categories == CategoriesFromUrl(categoryParam)
      ensures styles == old(styles) && priceRange == old(priceRange) && sortBy == old(sortBy)
    {
      categories := CategoriesFromUrl(categoryParam);
      collection := CollectionFromUrl(collectionParam);
    }

    method HandleCategoryChange(category: string)
      modifies this
      ensures categories == Toggle(old(categories), category)
      ensures collection == old(collection) && styles == old(styles)
      ensures priceRange == old(priceRange) && sortBy == old(sortBy)
    {
      categories := Toggle(categories, category);
    }

    method HandleStyleChange(style: string)
      modifies this
      ensures styles == Toggle(old(styles), style)
      ensures collection == old(collection) && categories == old(categories)
      ensures priceRange == old(priceRange) && sortBy == old(sortBy)
    {
      styles := Toggle(styles, style);
    }

    /** The collection radio: `setSelectedCollection`. */
    method SelectCollection(c: string)
      modifies this
      ensures collection == c
      ensures categories == old(categories) && styles == old(styles)
      ensures priceRange == old(priceRange) && sortBy == old(sortBy)
    {
      collection := c;
    }

    /** The price slider: `setPriceRange(parseInt(value))`, a cap on the price. */
    method SetPriceRange(n: int)
      modifies this
      ensures priceRange == n
      ensures collection == old(collection) && categories == old(categories)
      ensures styles == old(styles) && sortBy == old(sortBy)
    {
      priceRange := n;
    }

    /** The sort select: `setSortBy`. */
    method SetSortBy(key: string)
      modifies this
      ensures sortBy == key
      ensures collection == old(collection) && categories == old(categories)
      ensures styles == old(styles) && priceRange == old(priceRange)
    {
      sortBy := key;
    }

    /**
     * The products shown for the current filter state: the matching
     * products, ordered by the selected key, ties in catalog order.
     */
    function FilteredProducts(ps: seq<Product>): (r: seq<Product>)
      reads this
      ensures multiset(r) == multiset(Filtered(ps, CurrentCriteria()))
      ensures SortedBy(SortKeyOf(sortBy), r)
      ensures var c, key := CurrentCriteria(), SortKeyOf(sortBy);
              forall k :: WithRank(key, r, k) == Filter(ps, (p: Product) => Matches(c, p) && Rank(key, p) == k)
    {
      StableSortSorted(SortKeyOf(sortBy), Filtered(ps, CurrentCriteria()));
      ResultsStableEverywhere(ps, CurrentCriteria(), sortBy);
      Results(ps, CurrentCriteria(), sortBy)
    }
  }
}
