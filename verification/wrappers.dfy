/** The optional-value datatype the page's nullable fields are modelled with. */
module Wrappers {

  /** `None` stands for JavaScript's `null` (or a missing value). */
  datatype Option<+T> = None | Some(value: T)
}
