/** An optional value: `null`/`undefined` in the application become `None`. */
module Optional {
  datatype Option<+T> = None | Some(value: T)
}
