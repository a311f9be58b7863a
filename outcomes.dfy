/** Failure kinds shared by the product, store and promotion modules, and the
    Result/Option wrappers that carry them in place of raised exceptions. */
module Outcomes {

  /** One constructor per distinct raise in the store domain. */
  datatype Error =
    // Product construction and set_quantity
    | EmptyName
    | NegativePrice
    | NegativeQuantity
    // Product.buy, in the order its checks run
    | InactiveProduct
    | NonPositiveQuantity
    | InsufficientStock
    // Store.add_product and Store.remove_product
    | NotAProduct
    | NotInStore
    // PercentDiscount construction
    | PercentOutOfRange

  datatype Result<+T> = Ok(value: T) | Err(error: Error)

  datatype Option<+T> = None | Some(value: T)
}
