/**
 * Request parameters and the validation every handler runs before it calls
 * any external service.
 */
module Params {
  import opened Wrappers
  import opened Replies

  /**
   * A field of the request object: a missing field reads as `undefined`, an
   * explicit `null` is `Null`, anything else is a string.
   */
  datatype Param = Undefined | Null | Str(s: string)

  /**
   * `paramIsEmpty`: only `null` and the empty string are empty; a field that
   * is missing altogether passes.
   */
  predicate ParamIsEmpty(p: Param)
    ensures p.Undefined? ==> !ParamIsEmpty(p)
    ensures p.Str? ==> (ParamIsEmpty(p) <==> |p.s| == 0)
  {
    p == Null || p == Str("")
  }

  /** A parameter together with the name its 400 envelope reports. */
  datatype Check = Check(name: string, value: Param)

  /**
   * The position of the first empty parameter, in the order the handler
   * tests them, or `None` when every parameter passes.
   */
  function FirstEmpty(checks: seq<Check>): (r: Option<nat>)
    ensures r.Some? ==> r.value < |checks| && ParamIsEmpty(checks[r.value].value)
    ensures r.Some? ==> forall j :: 0 <= j < r.value ==> !ParamIsEmpty(checks[j].value)
    ensures r.None? <==> forall j :: 0 <= j < |checks| ==> !ParamIsEmpty(checks[j].value)
  {
    if checks == [] then None
    else if ParamIsEmpty(checks[0].value) then Some(0)
    else match FirstEmpty(checks[1..])
      case None => None
      case Some(i) => Some(i + 1)
  }

  /**
   * The envelope a handler returns from its parameter checks: the 400
   * envelope naming the first empty parameter, or `None` when the handler
   * goes on.
   */
  function Validate(checks: seq<Check>): Option<Envelope> {
    match FirstEmpty(checks)
    case None => None
    case Some(i) => Some(ParamFail(checks[i].name))
  }

  /**
   * Validation fails exactly when some parameter is empty, and then it
   * reports the first one: every parameter before it passed.
   */
  lemma ValidateReportsFirstEmpty(checks: seq<Check>)
    ensures Validate(checks).None? <==> forall j :: 0 <= j < |checks| ==> !ParamIsEmpty(checks[j].value)
    ensures Validate(checks).Some? ==>
      exists i :: 0 <= i < |checks| && ParamIsEmpty(checks[i].value)
        && Validate(checks) == Some(ParamFail(checks[i].name))
        && forall j :: 0 <= j < i ==> !ParamIsEmpty(checks[j].value)
  {
  }

  /**
   * Checks run front to back: the first check decides when it fails, and
   * otherwise the rest decide.
   */
  lemma ValidateCons(c: Check, rest: seq<Check>)
    ensures Validate([c] + rest) ==
      if ParamIsEmpty(c.value) then Some(ParamFail(c.name)) else Validate(rest)
  {
  }

  /** `undefined` passes validation; `null` and `''` fail it; so does no other string. */
  lemma EmptyMeansNullOrBlank(s: string)
    ensures !ParamIsEmpty(Undefined) && ParamIsEmpty(Null) && ParamIsEmpty(Str(""))
    ensures ParamIsEmpty(Str(s)) <==> s == ""
  {
  }
}
