/** Option type shared by the bot's modules: `None` stands for Python's `None`
    or for a lookup that raised. */
module Wrappers {

  datatype Option<+T> = None | Some(value: T)
}
