/** An optional value: the model's stand-in for JavaScript's `null` / missing results. */
module Wrappers {

  datatype Option<+T> = None | Some(value: T)

}
