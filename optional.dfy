/** An optional value: stands for a JavaScript value that may be absent,
    `null`, or not an integer at all. */
module Optional {
  datatype Option<+T> = None | Some(value: T)
}
