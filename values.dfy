/** Values shared by the whole model: optional and failing results, the cells
    the harness writes into its results table, and how a Python call ends. */
module Values {

  datatype Option<+T> = None | Some(value: T)

  /** A computation that either yields a value or raises the Python exception
      whose type name is `error`. */
  datatype Result<+T> = Ok(value: T) | Err(error: string)

  /** A cell of a csv row as the program builds it: a Python int, a str, a
      float already rounded to two decimals (held as its exact number of
      hundredths), or a nested list. */
  datatype Value =
    | Int(i: int)
    | Text(s: string)
    | Centi(hundredths: int)
    | List(items: seq<Value>)

  type Row = seq<Value>

  /** How a call that returns nothing ends: normally, or by raising the
      exception whose type name is given. */
  datatype Status = Done | Raised(exception: string)
}
