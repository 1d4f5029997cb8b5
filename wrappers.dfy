/** The optional value used wherever the bot's Python code may see `None`. */
module Wrappers {

  datatype Option<+T> = None | Some(value: T)
}
