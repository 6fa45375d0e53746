/** JavaScript values that may be `undefined` or `null`, and the JavaScript
    notion of truthiness the server relies on when it writes `a || b`. */
module Options {

  datatype Option<+T> = None | Some(value: T) {

    /** The value, or `default` when absent: the `x || default` idiom for
        values that are always truthy when present (objects, arrays, dates). */
    function GetOr(default: T): T {
      match this
      case Some(v) => v
      case None => default
    }
  }

  /** A number is truthy unless it is missing or zero (`NaN` is not an `int`). */
  predicate NumberTruthy(x: Option<int>) {
    x.Some? && x.value != 0
  }

  /** A string is truthy unless it is missing or empty. */
  predicate TextTruthy(x: Option<string>) {
    x.Some? && x.value != ""
  }

  /** `x || default` for a number. */
  function NumberOr(x: Option<int>, default: int): (r: int)
    ensures NumberTruthy(x) ==> r == x.value
    ensures !NumberTruthy(x) ==> r == default
  {
    if NumberTruthy(x) then x.value else default
  }

  /** `x || null` for a string. */
  function TextOrNull(x: Option<string>): (r: Option<string>)
    ensures r.Some? <==> TextTruthy(x)
    ensures r.Some? ==> r == x
  {
    if TextTruthy(x) then x else None
  }
}
