/** Transient notifications (`toast.success` / `toast.error`). */
module Ui {
  datatype Toast = Success(text: string) | Error(text: string)
}
