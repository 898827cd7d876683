/** Option and Result values shared by the decoder and metric models. */
module Wrappers {

  /** An optional value, as `std::optional` in the decoders. */
  datatype Option<+T> = None | Some(value: T) {

    /** The held value, or `default` when there is none (`value_or`). */
    function GetOr(default: T): (r: T)
      ensures Some? ==> r == value
      ensures None? ==> r == default
    {
      match this
      case Some(v) => v
      case None => default
    }
  }

  /** Either a value or the error that was thrown instead. */
  datatype Result<+R, +E> = Success(value: R) | Failure(error: E)
}
