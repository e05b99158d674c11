/**
 The scalar values a cell of the one-row input DataFrame can hold, and the two
 coercions the feature-alignment step applies to cells: `astype(str)` for the
 categorical columns and `pd.to_numeric(..., errors="coerce").fillna(0)` for
 the numeric ones. What pandas prints for a non-string value and how it parses
 a non-numeric one are library internals, so both are parameters here.
 */
module Values {

  datatype Option<T> = None | Some(value: T)

  datatype Result<T, E> = Success(value: T) | Failure(error: E)

  /** A cell of the raw record. */
  datatype Value =
    | Str(text: string)      // a Python `str`
    | Num(number: real)      // a Python `int` or `float`
    | Other(repr: string)    // any other object (None, True, ...), by its printed form

  /** `astype(str)` on one cell: a string is kept as it is, anything else is
      rendered by the printer `show`. */
  function AsText(v: Value, show: Value -> string): (r: string)
    ensures v.Str? ==> r == v.text
    ensures !v.Str? ==> r == show(v)
  {
    match v
    case Str(s) => s
    case _ => show(v)
  }

  /** `pd.to_numeric(..., errors="coerce").fillna(0)` on one cell: a number is
      kept, anything else goes through `parse`, and a failed parse (NaN in
      pandas) becomes 0. */
  function AsNumber(v: Value, parse: Value -> Option<real>): (r: real)
    ensures v.Num? ==> r == v.number
    ensures !v.Num? && parse(v).Some? ==> r == parse(v).value
    ensures !v.Num? && parse(v).None? ==> r == 0.0
  {
    match v
    case Num(x) => x
    case _ =>
      match parse(v)
      case Some(x) => x
      case None => 0.0
  }
}
