/** The optional value the engine uses where the Python code uses `None`
    (no opponent move yet) or the `'null'` placeholder (no prediction yet). */
module Options {
  datatype Option<+T> = None | Some(value: T)
}
