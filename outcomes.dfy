/** Optional values and typed failures shared by the comanda and product services.
    Each exception the services throw becomes one constructor of `Error`. */
module Outcomes {

  datatype Option<+T> = None | Some(value: T) {
    function GetOr(default: T): T {
      match this
      case Some(v) => v
      case None => default
    }
  }

  /** The exceptions of the services, with the values their messages carry. */
  datatype Error =
    | ComandaNotFound(comandaId: nat)        // ComandaNotFoundException
    | ComandaClosed(comandaId: nat)          // ComandaClosedException
    | ProductNotFound(productId: nat)        // ProductNotFoundException
    | CustomerNotFound(customerId: nat)      // CustomerNotFoundException
    | ItemNotFound(itemId: nat)              // IllegalArgumentException of removeItem
    | InsufficientStock(productId: nat, available: int, requested: int)
    | InvalidPriceRange                      // IllegalArgumentException of findAll

  datatype Result<+T> = Ok(value: T) | Err(error: Error)
}
