/** An optional value: the bot's `None` or a present value. */
module Options {

  datatype Option<+T> = None | Some(value: T)
}
