/** The optional value used for the bot's optional configuration keys and for
    the keys of a user's dialogue data, which may be present or absent. */
module Wrappers {
  datatype Option<+T> = None | Some(value: T)
}
