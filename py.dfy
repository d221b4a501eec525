/** Python runtime notions shared by every script of the report generator:
    `None`, raised exceptions, and the values the scripts put into report cells. */
module Py {

  datatype Option<+T> = None | Some(value: T)

  /** The exceptions the scripts can raise (none of them is caught unless a
      script says so), and `exit(code)` / `quit()` after a failed API call. */
  datatype PyError =
    | KeyError
    | ValueError
    | TypeError
    | ZeroDivisionError
    | IndexError
    | Exit(code: int)

  /** A computation that either returns or raises. */
  datatype Result<+T> = Ok(value: T) | Err(error: PyError)

  /** A value written to a CSV row or a spreadsheet cell: Python `str`, `int`
      or `float` (floats are modelled as exact reals). */
  datatype Value = VStr(s: string) | VInt(i: int) | VReal(r: real)

  /** Python's true division `a / b`: raises ZeroDivisionError on a zero divisor. */
  function Div(a: real, b: real): (r: Result<real>)
    ensures r.Err? <==> b == 0.0
    ensures r.Ok? ==> r.value * b == a
  {
    if b == 0.0 then Err(ZeroDivisionError) else Ok(a / b)
  }

  /** A list of strings as a row of string cells. */
  function Strs(xs: seq<string>): (vs: seq<Value>)
    ensures |vs| == |xs|
    ensures forall i :: 0 <= i < |xs| ==> vs[i] == VStr(xs[i])
  {
    seq(|xs|, i requires 0 <= i < |xs| => VStr(xs[i]))
  }
}
