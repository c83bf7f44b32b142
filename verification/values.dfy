/**
 * The loosely typed parameter values that travel between the LLM, the
 * planners and the tools: JSON numbers and strings, and the `int()` /
 * `float()` conversions the code applies to them.
 */
module Values {
  import opened Wrappers
  import Text

  datatype Value = IntV(i: int) | RealV(r: real) | TextV(s: string)

  /** A tool's keyword arguments. */
  type Params = map<string, Value>

  /** `int(x)` on a float: truncation toward zero. */
  function Trunc(x: real): (r: int)
    ensures x >= 0.0 ==> r as real <= x < r as real + 1.0
    ensures x < 0.0 ==> r as real - 1.0 < x <= r as real
  {
    if x >= 0.0 then x.Floor else -((-x).Floor)
  }

  /** `int(v)`; `None` is the `ValueError` case. */
  function AsInt(v: Value): (r: Option<int>)
    ensures v.IntV? ==> r == Some(v.i)
  {
    match v
    case IntV(i) => Some(i)
    case RealV(x) => Some(Trunc(x))
    case TextV(s) => Text.ParseInt(s)
  }

  /** `float(v)`; `None` is the `ValueError` case. */
  function AsReal(v: Value): (r: Option<real>)
    ensures v.RealV? ==> r == Some(v.r)
    ensures AsInt(v).Some? && !v.RealV? ==> r == Some(AsInt(v).value as real)
  {
    match v
    case IntV(i) => Some(i as real)
    case RealV(x) => Some(x)
    case TextV(s) => Text.ParseDecimal(s)
  }
}
