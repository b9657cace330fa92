/**
 The product records the storefront fetches from its catalogue endpoint, as
 the screens and the cart see them.
 */
module Catalog {

  /** A value that may be missing: a product still being fetched, a response
      that is not an array. */
  datatype Option<T> = None | Some(value: T)

  type ProductId = int

  /** One catalogue entry. `price` is in cents, so that totals are exact.
      The catalogue carries further display fields (images, category)
      that no modelled operation reads; `description` stands for all of them. */
  datatype Product = Product(
    id: ProductId,
    title: string,
    brand: string,
    description: string,
    price: int
  )
}
