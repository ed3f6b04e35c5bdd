/** Java references that may be `null`, and how `StringBuilder.append` renders them. */
module Nullables {

  /** A Java reference: either `null` or a value. */
  datatype Nullable<T> = Null | NonNull(value: T)

  /** `StringBuilder.append(String)`: a null string is written as "null". */
  function StringText(s: Nullable<string>): (t: string)
  {
    match s
    case Null => "null"
    case NonNull(v) => v
  }

  /** `StringBuilder.append(Object)`: a null reference is written as "null",
      any other object as its own `toString`, given here as `show`. */
  function ObjectText<T>(x: Nullable<T>, show: T -> string): (s: string)
  {
    match x
    case Null => "null"
    case NonNull(v) => show(v)
  }

  /** `StringBuilder.append(boolean)`. */
  function BoolText(b: bool): (s: string)
  {
    if b then "true" else "false"
  }
}
