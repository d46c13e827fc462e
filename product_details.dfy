/**
 * The product page (src/pages/ProductDetails.tsx): the product named by the
 * route id, its related products, the stock label, the image, size and
 * quantity selectors, and the add-to-cart and wishlist handlers.
 */
module ProductDetails {
  import opened Common
  import opened ProductModel
  import Catalog
  import Seed
  import Wishlist
  import ProductCard

  // --------------------------------------------------------------- lookup

  /** What the page renders: the not-found view, or the product with its related products. */
  datatype View = NotFound | Details(product: Product, related: seq<Product>)

  /** `products.filter(p => p.category === product?.category && p.id !== product?.id).slice(0, 4)`. */
  function Related(ps: seq<Product>, product: Option<Product>): seq<Product>
  {
    Take(Filter(ps, (q: Product) => product.Some? && q.category == product.value.category &&
                                    q.id != product.value.id), 4)
  }

  function PageView(ps: seq<Product>, routeId: int): View
  {
    match Catalog.ById(ps, routeId)
    case None => NotFound
    case Some(p) => Details(p, Related(ps, Some(p)))
  }

  /**
   * The page shows the first catalog product whose id is the route id, and
   * the not-found view exactly when no product has that id.
   */
  lemma PageViewLookup(ps: seq<Product>, routeId: int)
    ensures PageView(ps, routeId) == NotFound <==> forall i :: 0 <= i < |ps| ==> ps[i].id != routeId
    ensures PageView(ps, routeId).Details? ==>
              exists i :: 0 <= i < |ps| && ps[i] == PageView(ps, routeId).product && ps[i].id == routeId &&
                          forall j :: 0 <= j < i ==> ps[j].id != routeId
  {
  }

  /**
   * Related products share the product's category, never include its id,
   * number at most four, and are the first four such products in catalog
   * order (all of them when there are fewer).
   */
  lemma RelatedSpec(ps: seq<Product>, p: Product)
    ensures |Related(ps, Some(p))| <= 4
    ensures forall q :: q in Related(ps, Some(p)) ==> q in ps && q.category == p.category && q.id != p.id
    ensures var all := Filter(ps, (q: Product) => q.category == p.category && q.id != p.id);
            Related(ps, Some(p)) == all[..Min(4, |all|)]
    ensures Related(ps, None) == []
  {
    var f := (q: Product) => Some(p).Some? && q.category == Some(p).value.category && q.id != Some(p).value.id;
    var g := (q: Product) => q.category == p.category && q.id != p.id;
    FilterSameTest(ps, f, g);
    forall q | q in Related(ps, Some(p)) ensures q in ps && q.category == p.category && q.id != p.id {
      var k :| 0 <= k < |Related(ps, Some(p))| && Related(ps, Some(p))[k] == q;
      assert q in Filter(ps, f);
    }
    FilterKeepsNone(ps, (q: Product) => Option<Product>.None.Some? && q.category == Option<Product>.None.value.category &&
                                   q.id != Option<Product>.None.value.id);
  }

  // ----------------------------------------------------------- the stock

  datatype StockLabel = InStock | OnlyLeft(count: int) | OutOfStock

  /** The availability label. */
  function StockLabelOf(p: Product): StockLabel
  {
    if p.inStock && p.stockCount > 0 then
      if p.stockCount > 5 then InStock else OnlyLeft(p.stockCount)
    else OutOfStock
  }

  /**
   * "In Stock" iff in stock with more than five, "Only n left" iff in stock
   * with one to five (n being the count), "Out of Stock" otherwise.
   */
  lemma StockLabelCases(p: Product)
    ensures StockLabelOf(p) == InStock <==> p.inStock && p.stockCount > 5
    ensures StockLabelOf(p).OnlyLeft? <==> p.inStock && 1 <= p.stockCount <= 5
    ensures StockLabelOf(p).OnlyLeft? ==> StockLabelOf(p).count == p.stockCount
    ensures StockLabelOf(p) == OutOfStock <==> !p.inStock || p.stockCount <= 0
  {
  }

  /** Every seed product is shown with a stock label other than "Out of Stock". */
  lemma SeedNeverOutOfStock(i: int)
    requires 0 <= i < |Seed.Products|
    ensures StockLabelOf(Seed.Products[i]) != OutOfStock
  {
    Seed.SeedStock();
  }

  // --------------------------------------------------------------- images

  /** `product.images[selectedImage] || product.image`. */
  function MainImage(p: Product, selectedImage: int): string
  {
    if 0 <= selectedImage < |p.images| && p.images[selectedImage] != "" then p.images[selectedImage]
    else p.image
  }

  /**
   * The main image is the selected gallery entry when it exists and is not
   * empty, and the primary image otherwise; for the seed products, which
   * have no gallery, it is always the primary image.
   */
  lemma MainImageFallback(p: Product, selectedImage: int)
    ensures MainImage(p, selectedImage) == p.image || MainImage(p, selectedImage) in p.images
    ensures MainImage(p, selectedImage) != "" <==>
              (0 <= selectedImage < |p.images| && p.images[selectedImage] != "") || p.image != ""
    ensures p in Seed.Products ==> MainImage(p, selectedImage) == p.image
  {
    if p in Seed.Products {
      Seed.SeedStock();
    }
  }

  // ---------------------------------------------------------------- sizes

  const SizeOptions: seq<string> := ["5", "6", "7", "8", "9"]

  /** The page's test for showing ring sizes, as written: the category 'rings'. */
  predicate SizeSelectorAsWritten(p: Product)
  {
    p.category == "rings"
  }

  /**
   * The seed rings are filed under the category 'Ring', so on the seed
   * catalog the test as written never shows the size selector, not even
   * for the five rings.
   */
  lemma SizeSelectorNeverShown(i: int)
    requires 0 <= i < |Seed.Products|
    ensures !SizeSelectorAsWritten(Seed.Products[i])
    ensures Seed.Products[i].id in {1, 2, 3, 4, 18} ==> Seed.Products[i].category == "Ring"
  {
    Seed.SeedRings();
  }

  /** The evidently intended test: the selector shows for ring products. */
  predicate SizeSelectorShown(p: Product)
  {
    p.category == "Ring"
  }

  /** With the intended test the selector shows for exactly the five seed rings. */
  lemma SizeSelectorForRings(i: int)
    requires 0 <= i < |Seed.Products|
    ensures SizeSelectorShown(Seed.Products[i]) <==> Seed.Products[i].id in {1, 2, 3, 4, 18}
  {
    Seed.SeedRings();
  }

  // ------------------------------------------------------------- quantity

  /** The largest quantity the + button allows: the stock count, or 1 when it is 0. */
  function QuantityCap(stockCount: int): int
  {
    if stockCount == 0 then 1 else stockCount
  }

  /** The − button: `Math.max(1, quantity - 1)`. */
  function Decremented(quantity: int): int
  {
    Max(1, quantity - 1)
  }

  /** The + button: `Math.min(product.stockCount || 1, quantity + 1)`. */
  function Incremented(quantity: int, stockCount: int): int
  {
    Min(QuantityCap(stockCount), quantity + 1)
  }

  /**
   * The − button never goes below 1 and the + button never above the cap;
   * each moves by one when it can, and a quantity within [1, cap] stays
   * there.
   */
  lemma QuantityClamps(quantity: int, stockCount: int)
    ensures Decremented(quantity) >= 1
    ensures quantity > 1 ==> Decremented(quantity) == quantity - 1
    ensures Incremented(quantity, stockCount) <= QuantityCap(stockCount)
    ensures quantity < QuantityCap(stockCount) ==> Incremented(quantity, stockCount) == quantity + 1
    ensures stockCount >= 0 && 1 <= quantity <= QuantityCap(stockCount) ==>
              1 <= Incremented(quantity, stockCount) <= QuantityCap(stockCount) &&
              1 <= Decremented(quantity) <= QuantityCap(stockCount)
  {
  }

  // -------------------------------------------------------------- handlers

  /** The call `handleAddToCart` makes, if any. */
  function DetailsCartCall(p: Product, selectedSize: string): Option<ProductCard.CartPayload>
  {
    if !p.inStock then None
    else Some(ProductCard.CartPayload(p.id, p.name, p.price, p.image, Some(selectedSize)))
  }

  /**
   * The page adds to the cart exactly when the card would, sending the same
   * record plus the selected size ('' when none was picked); the quantity
   * is not sent.
   */
  lemma DetailsCartCallMatchesCard(p: Product, selectedSize: string)
    ensures DetailsCartCall(p, selectedSize).None? <==> ProductCard.CardCartCall(ProductCard.CardOf(p)).None?
    ensures DetailsCartCall(p, selectedSize).Some? ==>
              DetailsCartCall(p, selectedSize).value ==
              ProductCard.CardCartCall(ProductCard.CardOf(p)).value.(size := Some(selectedSize))
  {
  }

  /** The page's selection state. */
  class ProductPage {
    var selectedImage: int
    var selectedSize: string
    var quantity: int

    predicate Valid()
      reads this
    {
      quantity >= 1
    }

    constructor()
      ensures selectedImage == 0 && selectedSize == "" && quantity == 1
      ensures Valid()
    {
      selectedImage := 0;
      selectedSize := "";
      quantity := 1;
    }

    /** A gallery thumbnail. */
    method SelectImage(p: Product, index: int)
      requires 0 <= index < |p.images|
      modifies this
      ensures selectedImage == index && MainImage(p, selectedImage) == if p.images[index] != "" then p.images[index] else p.image
      ensures selectedSize == old(selectedSize) && quantity == old(quantity)
    {
      selectedImage := index;
    }

    /** A size button, offered only while the selector is shown. */
    method SelectSize(p: Product, size: string)
      requires SizeSelectorShown(p) && size in SizeOptions
      modifies this
      ensures selectedSize == size
      ensures selectedImage == old(selectedImage) && quantity == old(quantity)
    {
      selectedSize := size;
    }

    method DecrementQuantity()
      modifies this
      ensures quantity == Decremented(old(quantity))
      ensures Valid()
      ensures selectedImage == old(selectedImage) && selectedSize == old(selectedSize)
    {
      quantity := Max(1, quantity - 1);
    }

    method IncrementQuantity(p: Product)
      modifies this
      ensures quantity == Incremented(old(quantity), p.stockCount)
      ensures old(Valid()) && p.stockCount >= 0 ==> Valid()
      ensures selectedImage == old(selectedImage) && selectedSize == old(selectedSize)
    {
      quantity := Min(if p.stockCount == 0 then 1 else p.stockCount, quantity + 1);
    }

    /** `handleAddToCart`: nothing for a product out of stock, else the record with the selected size. */
    method HandleAddToCart(p: Product) returns (call: Option<ProductCard.CartPayload>)
      ensures call.None? <==> !p.inStock
      ensures call.Some? ==> call.value == ProductCard.CartPayload(p.id, p.name, p.price, p.image, Some(selectedSize))
    {
      if !p.inStock {
        return None;
      }
      call := Some(ProductCard.CartPayload(p.id, p.name, p.price, p.image, Some(selectedSize)));
    }

    /** `handleWishlistToggle`: remove when listed, otherwise add the summary; membership flips. */
    method HandleWishlistToggle(p: Product, store: Wishlist.WishlistStore)
      requires store.Valid()
      modifies store
      ensures store.Valid()
      ensures store.items == Wishlist.Toggled(old(store.items), ProductCard.Summary(p.id, p.name, p.price, p.image))
      ensures store.IsInWishlist(p.id) == !old(store.IsInWishlist(p.id))
    {
      var item := ProductCard.Summary(p.id, p.name, p.price, p.image);
      Wishlist.ToggledFlips(store.items, item);
      if store.IsInWishlist(p.id) {
        store.RemoveFromWishlist(p.id);
      } else {
        store.AddToWishlist(item);
      }
    }
  }
}
