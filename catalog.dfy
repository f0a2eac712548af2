/** The shared record shapes of the storefront (the product and the cart line). */
module Catalog {

  /** A catalogue product. Prices are non-negative integers in minor units;
      category and brand are the tag strings the pages compare. */
  datatype Product = Product(
    id: string,
    name: string,
    description: string,
    price: nat,
    category: string,
    brand: string,
    stock: int,
    imageIds: seq<string>,
    isFeatured: bool,
    newArrival: bool,
    rating: int)

  /** One line of the cart: a product and how many of it. */
  datatype CartItem = CartItem(product: Product, quantity: int)
}
