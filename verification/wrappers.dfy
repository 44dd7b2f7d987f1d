/** Small optional-value datatypes shared by every other module. */
module Wrappers {

  /** A value that may be missing (`null` or `undefined` where the distinction does not matter). */
  datatype Option<+T> = None | Some(value: T) {

    /** Returns the wrapped value, or `default` when there is none. */
    function GetOr(default: T): T {
      match this
      case Some(v) => v
      case None => default
    }
  }

  /** A JSON object field: the key may be missing, hold `null`, or hold a value.
      Keeping `Absent` apart from `Null` matters where one form deletes a key
      and another sets it to `null`. */
  datatype Field<+T> = Absent | Null | Present(value: T) {

    /** The field's value as an option: both `Absent` and `Null` read as nothing. */
    function ToOption(): Option<T> {
      match this
      case Present(v) => Some(v)
      case _ => None
    }
  }

  /** JavaScript truthiness of an optional string: missing, `null` and `""` are falsy. */
  predicate TruthyText(f: Field<string>) {
    f.Present? && f.value != ""
  }

  /** Truthiness of an optional string seen through `Option`. */
  predicate TruthyOpt(o: Option<string>) {
    o.Some? && o.value != ""
  }
}
