/**
 * The catalog the storefront starts from (src/data/products.ts): nineteen
 * products, sixteen in the women's collection and three in the men's.
 */
module Seed {
  import opened Common
  import opened ProductModel

  const Products: seq<Product> := [
    Product(1, "Ethereal Rose Gold Ring", 4599, None,
      "https://images.pexels.com/photos/12833539/pexels-photo-12833539.jpeg?auto=compress&cs=tinysrgb&w=400",
      48, 150, "Ring", "Rose Gold", Women,
      "A delicate ring crafted from pure rose gold, perfect for everyday elegance.",
      None, Some(true), [], true, 12),
    Product(2, "Vintage Heirloom Ring", 7899, None,
      "https://images.pexels.com/photos/1721932/pexels-photo-1721932.jpeg?auto=compress&cs=tinysrgb&w=400",
      49, 95, "Ring", "Antique", Women,
      "An antique-style ring that tells a story of timeless beauty.",
      None, None, [], true, 7),
    Product(3, "Onyx Statement Ring", 3200, None,
      "https://images.pexels.com/photos/9984333/pexels-photo-9984333.jpeg?auto=compress&cs=tinysrgb&w=400",
      47, 110, "Ring", "Black Metal", Women,
      "A bold statement ring made from polished black metal.",
      None, None, [], true, 15),
    Product(4, "Classic Silver Band", 2500, None,
      "https://images.pexels.com/photos/265906/pexels-photo-265906.jpeg?auto=compress&cs=tinysrgb&w=400",
      46, 200, "Ring", "Silver", Women,
      "A timeless sterling silver band, perfect for stacking.",
      None, None, [], true, 30),
    Product(5, "Delicate Rose Gold Bracelet", 5500, None,
      "https://images.pexels.com/photos/2735970/pexels-photo-2735970.jpeg?auto=compress&cs=tinysrgb&w=400",
      48, 120, "Bracelet", "Rose Gold", Women,
      "A fine chain bracelet in stunning rose gold.",
      None, None, [], true, 18),
    Product(6, "Golden Replica Charm Bracelet", 3800, None,
      "https://images.pexels.com/photos/248064/pexels-photo-248064.jpeg?auto=compress&cs=tinysrgb&w=400",
      45, 90, "Bracelet", "Golden Replica", Women,
      "A charming bracelet with golden replica coins and tokens.",
      Some(true), None, [], true, 22),
    Product(7, "Antique Temple Choker", 9500, None,
      "https://images.pexels.com/photos/10371306/pexels-photo-10371306.jpeg?auto=compress&cs=tinysrgb&w=400",
      49, 80, "Choker", "Antique", Women,
      "An exquisite choker featuring antique temple motifs.",
      None, Some(true), [], true, 9),
    Product(8, "Silver Filigree Choker", 6800, None,
      "https://images.pexels.com/photos/2849743/pexels-photo-2849743.jpeg?auto=compress&cs=tinysrgb&w=400",
      48, 65, "Choker", "Silver", Women,
      "A beautifully detailed filigree choker in pure silver.",
      None, None, [], true, 14),
    Product(9, "Grand Golden Replica Haram", 18500, None,
      "https://images.pexels.com/photos/9849171/pexels-photo-9849171.jpeg?auto=compress&cs=tinysrgb&w=400",
      50, 50, "Haram", "Golden Replica", Women,
      "A magnificent long necklace in a golden replica design.",
      None, None, [], true, 4),
    Product(10, "Black Metal Peacock Haram", 12500, None,
      "https://images.pexels.com/photos/977935/pexels-photo-977935.jpeg?auto=compress&cs=tinysrgb&w=400",
      49, 70, "Haram", "Black Metal", Women,
      "A unique haram featuring peacock motifs in black metal.",
      None, None, [], true, 8),
    Product(11, "Antique Kada Bangles (Set of 2)", 6200, None,
      "https://images.pexels.com/photos/9439163/pexels-photo-9439163.jpeg?auto=compress&cs=tinysrgb&w=400",
      47, 130, "Bangle", "Antique", Women,
      "A set of two intricately designed antique Kada bangles.",
      None, None, [], true, 11),
    Product(12, "Rose Gold Sleek Bangles", 8900, None,
      "https://images.pexels.com/photos/326119/pexels-photo-326119.jpeg?auto=compress&cs=tinysrgb&w=400",
      48, 115, "Bangle", "Rose Gold", Women,
      "A pair of modern and sleek bangles in rose gold.",
      None, None, [], true, 20),
    Product(13, "Golden Replica Oddiyanam", 7500, None,
      "https://images.pexels.com/photos/10311910/pexels-photo-10311910.jpeg?auto=compress&cs=tinysrgb&w=400",
      49, 40, "Hip Chain", "Golden Replica", Women,
      "A traditional golden replica hip chain (Oddiyanam).",
      None, None, [], true, 6),
    Product(14, "Anti-Tarnish Daily Chain", 1800, None,
      "https://images.pexels.com/photos/225383/pexels-photo-225383.jpeg?auto=compress&cs=tinysrgb&w=400",
      49, 300, "Chain", "Anti Tarnish", Women,
      "A durable, anti-tarnish chain perfect for daily wear.",
      None, Some(true), [], true, 50),
    Product(15, "Antique Silver Anklets", 2800, None,
      "https://images.pexels.com/photos/1191531/pexels-photo-1191531.jpeg?auto=compress&cs=tinysrgb&w=400",
      47, 180, "Anklet", "Antique", Women,
      "A pair of beautiful silver anklets with an antique finish.",
      None, None, [], true, 25),
    Product(16, "Rose Gold Stud Earrings", 2999, None,
      "https://images.pexels.com/photos/2777898/pexels-photo-2777898.jpeg?auto=compress&cs=tinysrgb&w=400",
      48, 212, "Earring", "Rose Gold", Women,
      "Elegant and simple rose gold stud earrings.",
      None, None, [], true, 35),
    Product(17, "Men's Silver Figaro Chain", 4800, None,
      "https://images.pexels.com/photos/12829878/pexels-photo-12829878.jpeg?auto=compress&cs=tinysrgb&w=400",
      48, 140, "Chain", "Silver", Men,
      "A classic sterling silver Figaro chain for a sharp look.",
      None, Some(true), [], true, 25),
    Product(18, "Bold Silver Signet Ring", 3200, None,
      "https://images.pexels.com/photos/1464230/pexels-photo-1464230.jpeg?auto=compress&cs=tinysrgb&w=400",
      47, 105, "Ring", "Silver", Men,
      "A substantial sterling silver signet ring for the modern man.",
      None, None, [], true, 15),
    Product(19, "Men's Beaded Bracelet", 1500, None,
      "https://images.pexels.com/photos/2849743/pexels-photo-2849743.jpeg?auto=compress&cs=tinysrgb&w=400",
      49, 250, "Bracelet", "Beads", Men,
      "A stylish bracelet made with natural stone beads.",
      None, None, [], true, 40)
  ]

  /** The seed ids are 1, 2, ..., 19 in order, hence strictly increasing and pairwise distinct. */
  lemma SeedIds()
    ensures |Products| == 19
    ensures forall i :: 0 <= i < |Products| ==> Products[i].id == i + 1
    ensures forall i, j :: 0 <= i < j < |Products| ==> Products[i].id < Products[j].id
  {
  }

  /** Every seed product is in stock with a positive stock count and price, and has no extra images. */
  lemma SeedStock()
    ensures forall i :: 0 <= i < |Products| ==>
              Products[i].inStock && Products[i].stockCount > 0 && Products[i].price > 0 &&
              Products[i].images == []
  {
  }

  /** The seed uses only the women's and men's collections, and no product has an original price. */
  lemma SeedCollections()
    ensures forall i :: 0 <= i < |Products| ==>
              Products[i].collection in {Women, Men} && Products[i].originalPrice.None?
  {
  }

  /** The rings of the seed are the products 1, 2, 3, 4 and 18, filed under 'Ring'; no category is 'rings'. */
  lemma SeedRings()
    ensures forall i :: 0 <= i < |Products| ==>
              Products[i].category != "rings" &&
              (Products[i].category == "Ring" <==> Products[i].id in {1, 2, 3, 4, 18})
  {
  }

  /** The best-sellers of the seed are the products 1, 7, 14 and 17; the only product on sale is product 6. */
  lemma SeedFlags()
    ensures forall i :: 0 <= i < |Products| ==>
              (IsBestSeller(Products[i]) <==> Products[i].id == 1 || Products[i].id == 7 || Products[i].id == 14 || Products[i].id == 17) &&
              (IsOnSale(Products[i]) <==> Products[i].id == 6)
  {
  }
}
