/** The product record that the catalog query returns and that the cart receives. */
module Catalog {
  import opened Wrappers

  /** One catalog product. Prices are whole currency units (the page prints them as `$<price>.00`).
      `quantity` is absent on records fresh from the catalog and present on the records that
      add-to-cart hands to the cart store. */
  datatype Product = Product(
    id: int,
    title: string,
    image: string,
    hoverImage: string,
    price: int,
    discountPrice: Option<int>,
    offerPercentage: Option<int>,
    desc: string,
    quantity: Option<int>)
}
