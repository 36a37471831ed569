/** The "value or nothing" type the renderer uses for Python's `None`. */
module Optional {

  datatype Option<+T> = None | Some(value: T)

}
