/** Runtime values of the interpreter and the coercions the evaluators rely on.

    The implementation of the value type (its conversions and comparisons) is not
    part of this model: the evaluators receive the conversions as a `ValueOps`
    record of total functions, each of which may fail with a message, so every
    property proved about the evaluators holds whatever those conversions do. */
module Values {

  datatype Option<+T> = None | Some(value: T)

  /** The outcome of a step that may fail with a human-readable message. */
  datatype Result<+T> = Ok(value: T) | Err(msg: string)

  /** The closed set of runtime values. Lists are modelled as immutable
      sequences: the sharing of a list's backing storage is not captured. */
  datatype Value =
    | Number(num: real)
    | Str(text: string)
    | Bool(truth: bool)
    | List(items: seq<Value>)
    | Colour(code: string)
    | Nil

  /** The value model's conversions (`AsBoolean`, `AsNumber`, `AsString`,
      `AsList`) and comparisons (`Equals`, `IsLessThan`). A failing conversion
      stands for the value model calling the interpreter's `Fail`. */
  datatype ValueOps = ValueOps(
    asBoolean: Value -> Result<bool>,
    asNumber: Value -> Result<real>,
    asString: Value -> Result<string>,
    asList: Value -> Result<seq<Value>>,
    equals: (Value, Value) -> Result<bool>,
    isLessThan: (Value, Value) -> Result<bool>)

  /** Go's `int(x)` conversion of a float: truncation toward zero. */
  function Trunc(x: real): (n: int)
    ensures 0.0 <= x ==> 0 <= n && n as real <= x < n as real + 1.0
    ensures x < 0.0 ==> n <= 0 && n as real - 1.0 < x <= n as real
  {
    if x >= 0.0 then x.Floor else -((-x).Floor)
  }
}
