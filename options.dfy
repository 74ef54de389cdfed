/** The JavaScript `null`-or-value results of the game, as a datatype. */
module Options {

  datatype Option<+T> = None | Some(value: T)
}
