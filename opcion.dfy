/** The optional value used wherever the source has `None`, a missing
    dictionary key (`dict.get` with or without a default) or an exception
    that ends the computation. */
module Opcion {
  datatype Option<+T> = None | Some(value: T) {
    function GetOr(default: T): T {
      match this
      case Some(v) => v
      case None => default
    }
  }
}
