/** The records shared by the cart, the catalog and checkout. */
module Types {
  datatype Category = Men | Women | Unisex

  /** A catalog product. `featured` is false when the optional flag is absent. */
  datatype Product = Product(
    id: string,
    name: string,
    price: int,
    description: string,
    category: Category,
    images: seq<string>,
    sizes: seq<string>,
    inStock: bool,
    featured: bool)

  /** One cart line (`CartItem`): a snapshot of the product taken when it was
      first added, the chosen size and a quantity. */
  datatype CartLine = CartLine(product: Product, quantity: int, size: string)
}
