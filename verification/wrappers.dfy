/** The optional value used throughout the model: `None` stands for a JavaScript
    `undefined` result (a missing migration, a deserializer that threw). */
module Wrappers {

  datatype Option<+T> = None | Some(value: T)
}
