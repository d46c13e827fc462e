/**
 * The product card (src/components/ProductCard.tsx): its own, looser view of
 * a product, the add-to-cart and wishlist handlers, and the star row.
 */
module ProductCard {
  import opened Common
  import opened ProductModel
  import Wishlist

  /** The card's product interface: stock fields and flags may be absent. */
  datatype CardProduct = CardProduct(
    id: int,
    name: string,
    price: int,
    originalPrice: Option<int>,
    image: string,
    rating: int,              // tenths of a star
    reviews: int,
    inStock: Option<bool>,
    stockCount: Option<int>,
    isOnSale: Option<bool>,
    isBestSeller: Option<bool>)

  /** A catalog product as handed to the card. */
  function CardOf(p: Product): CardProduct
  {
    CardProduct(p.id, p.name, p.price, p.originalPrice, p.image, p.rating, p.reviews,
                Some(p.inStock), Some(p.stockCount), p.isOnSale, p.isBestSeller)
  }

  /** The record passed to the cart's `addToCart`; the card sends no size. */
  datatype CartPayload = CartPayload(id: int, name: string, price: int, image: string, size: Option<string>)

  /** The call `handleAddToCart` makes, if any: none unless the product is marked in stock. */
  function CardCartCall(p: CardProduct): Option<CartPayload>
  {
    if p.inStock != Some(true) then None
    else Some(CartPayload(p.id, p.name, p.price, p.image, None))
  }

  /**
   * The card adds to the cart exactly when inStock is present and true, and
   * then sends the product's id, name, price and image without a size; for a
   * catalog product that is exactly when it is in stock.
   */
  lemma CardCartCallCases(p: CardProduct, q: Product)
    ensures CardCartCall(p).None? <==> p.inStock == None || p.inStock == Some(false)
    ensures CardCartCall(p).Some? ==>
              CardCartCall(p).value.id == p.id && CardCartCall(p).value.name == p.name &&
              CardCartCall(p).value.price == p.price && CardCartCall(p).value.image == p.image &&
              CardCartCall(p).value.size.None?
    ensures CardCartCall(CardOf(q)).Some? <==> q.inStock
  {
    if p.inStock.Some? && !p.inStock.value {
      assert p.inStock == Some(false);
    }
  }

  /** The summary the wishlist stores for a product. */
  function Summary(id: int, name: string, price: int, image: string): Wishlist.WishlistItem
  {
    Wishlist.WishlistItem(id, name, price, image)
  }

  /** The card's `handleWishlistToggle`: remove when listed, otherwise add the summary; membership flips. */
  method CardWishlistToggle(p: CardProduct, store: Wishlist.WishlistStore)
    requires store.Valid()
    modifies store
    ensures store.Valid()
    ensures store.items == Wishlist.Toggled(old(store.items), Summary(p.id, p.name, p.price, p.image))
    ensures store.IsInWishlist(p.id) == !old(store.IsInWishlist(p.id))
  {
    Wishlist.ToggledFlips(store.items, Summary(p.id, p.name, p.price, p.image));
    if store.IsInWishlist(p.id) {
      store.RemoveFromWishlist(p.id);
    } else {
      store.AddToWishlist(Summary(p.id, p.name, p.price, p.image));
    }
  }

  // ---------------------------------------------------------------- stars

  /** `Math.floor(rating)` for a rating in tenths (Euclidean division by 10 is the floor). */
  function FloorStars(ratingTenths: int): int
  {
    ratingTenths / 10
  }

  /** The five stars, each filled when its index is below the floored rating. */
  function StarRow(ratingTenths: int): seq<bool>
  {
    seq(5, i requires 0 <= i < 5 => i < FloorStars(ratingTenths))
  }

  function CountFilled(stars: seq<bool>): nat
  {
    if stars == [] then 0
    else CountFilled(stars[..|stars| - 1]) + (if stars[|stars| - 1] then 1 else 0)
  }

  lemma {:induction false} CountFilledPrefix(n: nat, f: int)
    ensures CountFilled(seq(n, i requires 0 <= i < n => i < f)) == Min(n, Max(0, f))
  {
    if n > 0 {
      var s := seq(n, i requires 0 <= i < n => i < f);
      assert s[..n - 1] == seq(n - 1, i requires 0 <= i < n - 1 => i < f);
      CountFilledPrefix(n - 1, f);
    }
  }

  /**
   * The row shows min(5, floor(rating)) filled stars, none for a negative
   * rating, and the filled stars come first.
   */
  lemma FilledStars(ratingTenths: int)
    ensures CountFilled(StarRow(ratingTenths)) == Min(5, Max(0, ratingTenths / 10))
    ensures forall i, j :: 0 <= i < j < 5 && StarRow(ratingTenths)[j] ==> StarRow(ratingTenths)[i]
  {
    CountFilledPrefix(5, FloorStars(ratingTenths));
  }
}
