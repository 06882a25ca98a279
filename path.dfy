/**
 * Where a Complete dispatch goes once its handler has run (path.go): the
 * deferred `recovery` looks at the value `recover()` yields and at which
 * handlers can be signalled.
 */
module Path {
  import opened Runtime

  datatype Route =
    | ResignalError(value: Value)  // call SignalError with the panic value
    | InvokeFinally                // call signalFinally
    | Swallow                      // a panic was recovered and is dropped
    | Done                         // nothing more happens

  /**
   * Routing of `recovery`. A recovered panic goes to the Error handler when one
   * can be signalled and is otherwise dropped: there is no fall-back to Finally.
   * Without a panic, Finally is invoked exactly when it can be signalled, so
   * this path never reaches signalFinally's own misuse branch.
   */
  function Recovery(recovered: Value, canError: bool, canFinally: bool): (r: Route)
    ensures r.ResignalError? <==> recovered != Nil && canError
    ensures r.ResignalError? ==> r.value == recovered
    ensures r.InvokeFinally? <==> recovered == Nil && canFinally
    ensures r.Swallow? <==> recovered != Nil && !canError
  {
    if recovered != Nil then
      if canError then ResignalError(recovered) else Swallow
    else
      if canFinally then InvokeFinally else Done
  }
}
