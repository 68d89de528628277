/** The notifications the pages show, as values. */
module Toasts {
  /** A toast: title, description, and whether it is shown as an error. */
  datatype Toast = Toast(title: string, description: string, destructive: bool)
}
