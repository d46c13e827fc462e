/**
 * The Product record of the catalog (src/context/ProductContext.tsx), the
 * draft the admin form submits (`Omit<Product, 'id' | 'rating' | 'reviews'>`)
 * and the partial record `updateProduct` merges in (`Partial<Product>`).
 *
 * Prices, stock counts and review counts are whole numbers; ratings are kept
 * in tenths of a star (4.5 is 45), since the storefront only compares them
 * and takes their floor.
 */
module ProductModel {
  import opened Common

  datatype Collection = Men | Women | Kids | Unisex

  /** The string the source stores for a collection. */
  function CollectionName(c: Collection): string
  {
    match c
    case Men => "men"
    case Women => "women"
    case Kids => "kids"
    case Unisex => "unisex"
  }

  /** The collection a string names, if any. */
  function ParseCollection(name: string): (c: Option<Collection>)
    ensures c.Some? ==> CollectionName(c.value) == name
  {
    if name == "men" then Some(Men)
    else if name == "women" then Some(Women)
    else if name == "kids" then Some(Kids)
    else if name == "unisex" then Some(Unisex)
    else None
  }

  /** Every collection is named by a distinct string: parsing its name gives it back. */
  lemma ParseCollectionName(c: Collection)
    ensures ParseCollection(CollectionName(c)) == Some(c)
  {
  }

  datatype Product = Product(
    id: int,
    name: string,
    price: int,
    originalPrice: Option<int>,
    image: string,
    rating: int,              // tenths of a star
    reviews: int,
    category: string,
    style: string,
    collection: Collection,
    description: string,
    isOnSale: Option<bool>,
    isBestSeller: Option<bool>,
    images: seq<string>,
    inStock: bool,
    stockCount: int)

  /** An optional flag is set only when present and true (a missing flag reads as false). */
  predicate IsBestSeller(p: Product)
  {
    p.isBestSeller == Some(true)
  }

  predicate IsOnSale(p: Product)
  {
    p.isOnSale == Some(true)
  }

  /** A product as submitted for creation: everything but id, rating and reviews. */
  datatype NewProduct = NewProduct(
    name: string,
    price: int,
    originalPrice: Option<int>,
    image: string,
    category: string,
    style: string,
    collection: Collection,
    description: string,
    isOnSale: Option<bool>,
    isBestSeller: Option<bool>,
    images: seq<string>,
    inStock: bool,
    stockCount: int)

  /** 4.5 stars, in tenths. */
  const DefaultRating: int := 45
  const DefaultReviews: int := 0

  /** The fields of a product that a draft carries. */
  function DraftOf(p: Product): NewProduct
  {
    NewProduct(p.name, p.price, p.originalPrice, p.image, p.category, p.style, p.collection,
               p.description, p.isOnSale, p.isBestSeller, p.images, p.inStock, p.stockCount)
  }

  /** `{ ...newProduct, id, rating: 4.5, reviews: 0 }`. */
  function WithDefaults(draft: NewProduct, id: int): (p: Product)
    ensures p.id == id && p.rating == DefaultRating && p.reviews == DefaultReviews
    ensures DraftOf(p) == draft
  {
    Product(id, draft.name, draft.price, draft.originalPrice, draft.image, DefaultRating,
            DefaultReviews, draft.category, draft.style, draft.collection, draft.description,
            draft.isOnSale, draft.isBestSeller, draft.images, draft.inStock, draft.stockCount)
  }

  /** A product with the default rating and review count is its own draft completed with its id. */
  lemma WithDefaultsOfDraft(p: Product)
    requires p.rating == DefaultRating && p.reviews == DefaultReviews
    ensures WithDefaults(DraftOf(p), p.id) == p
  {
  }

  /** `Partial<Product>`: each field either supplied or absent. */
  datatype ProductPatch = ProductPatch(
    id: Option<int>,
    name: Option<string>,
    price: Option<int>,
    originalPrice: Option<int>,
    image: Option<string>,
    rating: Option<int>,
    reviews: Option<int>,
    category: Option<string>,
    style: Option<string>,
    collection: Option<Collection>,
    description: Option<string>,
    isOnSale: Option<bool>,
    isBestSeller: Option<bool>,
    images: Option<seq<string>>,
    inStock: Option<bool>,
    stockCount: Option<int>)

  const NoChanges: ProductPatch :=
    ProductPatch(None, None, None, None, None, None, None, None, None, None, None, None, None, None, None, None)

  /** A supplied value replaces the current one. */
  function Pick<T>(supplied: Option<T>, current: T): T
  {
    if supplied.Some? then supplied.value else current
  }

  /** For a field that is itself optional, a supplied value becomes present. */
  function PickOptional<T>(supplied: Option<T>, current: Option<T>): Option<T>
  {
    if supplied.Some? then supplied else current
  }

  /** `{ ...product, ...patch }`: a shallow merge in which the supplied fields win. */
  function Merge(p: Product, patch: ProductPatch): Product
  {
    Product(
      Pick(patch.id, p.id),
      Pick(patch.name, p.name),
      Pick(patch.price, p.price),
      PickOptional(patch.originalPrice, p.originalPrice),
      Pick(patch.image, p.image),
      Pick(patch.rating, p.rating),
      Pick(patch.reviews, p.reviews),
      Pick(patch.category, p.category),
      Pick(patch.style, p.style),
      Pick(patch.collection, p.collection),
      Pick(patch.description, p.description),
      PickOptional(patch.isOnSale, p.isOnSale),
      PickOptional(patch.isBestSeller, p.isBestSeller),
      Pick(patch.images, p.images),
      Pick(patch.inStock, p.inStock),
      Pick(patch.stockCount, p.stockCount))
  }

  /** Merging a patch that supplies nothing leaves the product as it was. */
  lemma MergeNoChanges(p: Product)
    ensures Merge(p, NoChanges) == p
  {
  }

  /** Merging the same patch twice is merging it once. */
  lemma MergeIdempotent(p: Product, patch: ProductPatch)
    ensures Merge(Merge(p, patch), patch) == Merge(p, patch)
  {
  }

  /** A draft passed as a partial record: every field the draft carries is supplied. */
  function PatchOf(d: NewProduct): ProductPatch
  {
    ProductPatch(None, Some(d.name), Some(d.price), d.originalPrice, Some(d.image), None, None,
                 Some(d.category), Some(d.style), Some(d.collection), Some(d.description),
                 d.isOnSale, d.isBestSeller, Some(d.images), Some(d.inStock), Some(d.stockCount))
  }

  /**
   * Merging a complete draft into a product replaces every draft field and
   * keeps the product's id, rating and review count.
   */
  lemma MergeDraft(p: Product, d: NewProduct)
    requires d.originalPrice.Some? && d.isOnSale.Some? && d.isBestSeller.Some?
    ensures DraftOf(Merge(p, PatchOf(d))) == d
    ensures Merge(p, PatchOf(d)).id == p.id
    ensures Merge(p, PatchOf(d)).rating == p.rating && Merge(p, PatchOf(d)).reviews == p.reviews
  {
  }
}
