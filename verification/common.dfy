/** Shared definitions of the storefront model: optional values and line amounts. */
module Common {

  /** A value that may be absent (`undefined`/`null` in the screens). */
  datatype Option<T> = None | Some(value: T)

  /** What a line of `quantity` items at `price` each costs: `price * quantity`. */
  function LineAmount(price: int, quantity: int): int {
    price * quantity
  }
}
