/** The `null`-or-value slots of the component (selected creature, nearby creature, chosen moves, result). */
module Options {
  datatype Option<+T> = None | Some(value: T)
}
