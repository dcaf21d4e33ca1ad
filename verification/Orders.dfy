/** Vocabulary shared by the order-management modules. */
module Orders {
  datatype Option<+T> = None | Some(value: T)

  /** Side of the entry order; the exit legs trade the other way. */
  datatype Side = Buy | Sell
}
