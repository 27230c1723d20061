/** The notifications the pages and hooks show through `react-toastify`. */
module Toasts {
  /** `toast.success(text)` or `toast.error(text)`. */
  datatype Toast = Success(text: string) | Failure(text: string)
}
