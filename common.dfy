/** Shared vocabulary of the grocery services: optional values, the failures the
    services raise, and a result type that carries either a value or one failure. */
module Common {

  /** A value that may be absent (a Java `null` or an empty `Optional`). */
  datatype Option<+T> = None | Some(value: T) {
    function GetOr(default: T): T {
      match this
      case Some(v) => v
      case None => default
    }
  }

  /** The `RuntimeException`s the services throw, one constructor per message. */
  datatype Error =
    | ProductUnavailable      // "Product not found or inactive" (cart side)
    | InsufficientStock       // "Insufficient stock"
    | CartNotFound            // "Cart not found"
    | ItemNotFound            // "Item not found in cart"
    | CartEmpty               // "Cart is empty"
    | OrderNotFound           // "Order not found"
    | ProductNotFound         // "Product not found" (catalog side)
    | ProductInactive         // "Product is not active"
    | UidAlreadyRegistered    // "User with this Firebase UID already exists"
    | EmailAlreadyRegistered  // "User with this email already exists"
    | UserNotFound            // "User not found"
    | InvalidOrderLine        // the order line entity's validation rejecting a save

  /** Either the value an operation returns or the failure it throws. */
  datatype Result<+T> = Ok(value: T) | Err(error: Error)

  type UserId = string
  type ProductId = int

  /** Money is exact decimal in the services; here it is an integer number of cents. */
  type Money = int
}
