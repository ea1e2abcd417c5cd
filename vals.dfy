/** Values shared by the add-ons: optional values, the values a record
    dictionary holds, and the mutable dictionary itself. */
module Vals {

  datatype Option<T> = None | Some(value: T)

  /** The outcome of an operation that can raise. */
  datatype Result<T, E> = Ok(value: T) | Err(error: E)

  /** One value of a Python dictionary of field values. A selection field that
      is not set holds `Bool(false)`, as the framework writes `False`. */
  datatype Value = Str(s: string) | Num(r: real) | Int(i: int) | Bool(b: bool)

  /** A Python dictionary of field values. It is an object: the list that
      holds it and the code that updates it share one dictionary. */
  class Dict {
    var items: map<string, Value>

    constructor (items: map<string, Value>)
      ensures this.items == items
    {
      this.items := items;
    }
  }
}
