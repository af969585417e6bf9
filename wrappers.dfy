/** The one optional-value datatype the model needs: JavaScript's `null` / `undefined` become None. */
module Wrappers {

  datatype Option<+T> = None | Some(value: T)
}
