/** The product record served by the remote catalog, and the small helpers every module shares. */
module Catalog {

  /** A value that may be absent (`null` / `undefined` in the storefront). */
  datatype Option<T> = None | Some(value: T)

  /**
   * A catalog product, never changed locally. The price is in whole cents and the
   * average rating in tenths of a star, so that both compare and add exactly.
   */
  datatype Product = Product(
    id: int,
    title: string,
    description: string,
    price: nat,
    category: string,
    rating: int)

  function Min(a: int, b: int): int { if a <= b then a else b }

  function Max(a: int, b: int): int { if a >= b then a else b }
}
