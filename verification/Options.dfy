/** An optional value, standing for the source's nullable pointers and sentinels. */
module Options {
  datatype Option<+T> = None | Some(value: T)
}
