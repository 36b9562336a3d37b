/** The runtime type assertion every other operation uses (src/checkType.js). */
module TypeCheck {
  import opened Wrappers
  import opened Js

  /**
   * Throws exactly when `typeof received` differs from `expectedType`; the
   * message names the context and the expected type. Whether it throws
   * never depends on `context`.
   */
  function CheckType(received: JsValue, expectedType: string, context: string): (r: Outcome<Error>)
    ensures r.Pass? <==> TypeOf(received) == expectedType
    ensures r.Fail? ==> r.error.TypeMismatch?
    ensures r.Fail? ==> "Expected " + context + " to be a " + expectedType <= r.error.message
  {
    if TypeOf(received) != expectedType then
      Fail(TypeMismatch("Expected " + context + " to be a " + expectedType +
                        ". Instead received: '" + Render(received) + "'."))
    else
      Pass
  }
}
