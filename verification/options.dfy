/** An optional value: the absence of a cue, a chat line or a parse. */
module Options {

  datatype Option<+T> = None | Some(value: T)
}
