/** The optional value the component's computed properties return: a style
    string when one applies, nothing (JavaScript `undefined`) otherwise. */
module Wrappers {

  datatype Option<+T> = None | Some(value: T)
}
