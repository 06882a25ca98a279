/**
 * The few Go runtime notions the model needs: dynamic `interface{}` values,
 * func values identified by an opaque id, and what a call to a handler does.
 */
module Runtime {

  /** A Go `interface{}` value: nil, a string, or some other dynamic value. */
  datatype Value = Nil | Str(s: string) | Opaque(id: nat)

  /** Identity of a registered callback; its body is not modelled. */
  type HandlerId = nat

  /** What one invocation of a handler does: it returns, or panics with a value. */
  datatype HandlerRun = Returns | Panics(value: Value)

  /**
   * The value `recover()` yields in a deferred call once the handler has run:
   * nil when it returned, its panic value when it panicked (which is nil again
   * for `panic(nil)` under the Go releases that predate 1.21).
   */
  function Recovered(run: HandlerRun): (r: Value)
    ensures run.Returns? ==> r == Nil
    ensures run.Panics? ==> r == run.value
    ensures r != Nil ==> run.Panics?
  {
    match run
    case Returns => Nil
    case Panics(v) => v
  }
}
