/** JavaScript values, as far as the modelled client code inspects them. */
module Js {

  /** An optional value: `None` stands for `undefined` (or a missing key). */
  datatype Option<T> = None | Some(value: T)

  /**
   * A JavaScript value that a selector may hand back. Numbers are modelled as
   * unbounded integers: the client code only compares them and multiplies by 1000.
   */
  datatype JsValue = Null | Number(n: int) | Str(s: string) | Bool(b: bool)

  /** A string is truthy in JavaScript exactly when it is not empty. */
  predicate TruthyString(s: string)
  {
    s != ""
  }

  /** `o && o.length` style truthiness of an optional string. */
  predicate TruthyOption(o: Option<string>)
  {
    o.Some? && TruthyString(o.value)
  }
}
