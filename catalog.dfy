/** The seed catalog the store starts from when nothing is saved
    (lib/constants.ts). */
module Catalog {
  import opened Types
  import opened Seqs
  import opened Shop

  const SeedProducts: seq<Product> := [
    Product(
      "1",
      "The Latte Canvas Tote",
      85,
      "A spacious everyday tote made from durable beige canvas with rich espresso leather handles. " +
      "Perfect for the market or the weekend getaway.",
      "https://images.unsplash.com/photo-1591561954557-26941169b49e" +
      "?ixlib=rb-1.2.1&auto=format&fit=crop&w=800&q=80",
      "Unisex",
      true,
      false),
    Product(
      "2",
      "Chestnut Crossbody",
      65,
      "Compact yet roomy enough for essentials. " +
      "Crafted from soft vegan leather in a warm chestnut shade with brass hardware.",
      "https://images.unsplash.com/photo-1548036328-c9fa89d128fa" +
      "?ixlib=rb-1.2.1&auto=format&fit=crop&w=800&q=80",
      "Women",
      false,
      false),
    Product(
      "3",
      "Espresso Evening Clutch",
      120,
      "A bold statement piece. " +
      "Deep dark brown velvet finish with a gold geometric clasp. " +
      "Elegant and timeless.",
      "https://images.unsplash.com/photo-1566150905458-1bf1fc113f0d" +
      "?ixlib=rb-1.2.1&auto=format&fit=crop&w=800&q=80",
      "Women",
      false,
      false),
    Product(
      "4",
      "Sandstone Backpack",
      95,
      "Hands-free convenience meets rustic style. " +
      "Durable canvas in a soft sand color with adjustable leather straps.",
      "https://images.unsplash.com/photo-1553062407-98eeb64c6a62" +
      "?ixlib=rb-1.2.1&auto=format&fit=crop&w=800&q=80",
      "Men",
      true,
      false),
    Product(
      "5",
      "Signature Caramel Mini",
      55,
      "Our best-seller. " +
      "A tiny bag for big personalities. " +
      "Comes in our signature rich caramel hue.",
      "https://images.unsplash.com/photo-1594223274512-ad4803739b7c" +
      "?ixlib=rb-1.2.1&auto=format&fit=crop&w=800&q=80",
      "Women",
      false,
      false),
    Product(
      "6",
      "Rustic Sienna Bucket",
      78,
      "Slouchy, comfortable, and chic. " +
      "Made from reclaimed leather with a natural sienna dye finish.",
      "https://images.unsplash.com/photo-1590874103328-eac38a683ce7" +
      "?ixlib=rb-1.2.1&auto=format&fit=crop&w=800&q=80",
      "Unisex",
      false,
      true)
  ]

  /** The seed catalog has six products with distinct ids, each filed under
      one of the default categories. */
  lemma SeedCatalogWellFormed()
    ensures |SeedProducts| == 6
    ensures DistinctBy(SeedProducts, ProductIdOf)
    ensures forall i :: 0 <= i < |SeedProducts| ==> SeedProducts[i].category in DefaultCategories
  {
  }

  /** Only the sienna bucket bag is sold out. */
  lemma SeedSoldOut()
    ensures forall i :: 0 <= i < |SeedProducts| ==> (SeedProducts[i].soldOut <==> i == 5)
    ensures SeedProducts[5].name == "Rustic Sienna Bucket"
  {
  }
}
