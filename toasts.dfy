/** The transient notifications the pages raise. */
module Toasts {
  datatype Toast = Success(message: string) | Failure(message: string)
}
