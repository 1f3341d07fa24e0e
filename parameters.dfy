/** The parameter source a component offers a mechanism. How a name is
    resolved for a part identifier and a mechanism is not modelled: for one
    call the source is a partial map from parameter names to numbers. */
module Parameters {
  import opened Wrappers

  type Params = map<string, real>

  /** `component.get_parameter(name, ...)`: the value, or a failure naming the
      missing parameter. */
  function GetParameter(params: Params, name: string): (r: Result<real>)
    ensures r.Success? <==> name in params
    ensures r.Failure? ==> r.error == MissingParameter(name)
  {
    if name in params then Success(params[name]) else Failure(MissingParameter(name))
  }

  /** Python's `int()` applied to a number: truncation toward zero. */
  function Truncate(x: real): (r: int)
    ensures 0.0 <= x ==> 0 <= r && r as real <= x < r as real + 1.0
    ensures x < 0.0 ==> r <= 0 && r as real - 1.0 < x <= r as real
  {
    if 0.0 <= x then x.Floor else -((-x).Floor)
  }
}
