/**
 * The simplified future of spacetime/horizon.go: Complete events only, no
 * mode, and a recorder that makes one non-blocking receive per Signal call.
 *
 * The goroutines blocked sending on the unbuffered `completeChan` are the
 * multiset `waiting`; a receive takes one of them, chosen by the scheduler.
 */
module Spacetime {
  import opened Wrappers
  import opened Runtime

  const CompleteLabel: string := "complete"
  const NoHandlerMsg: string := "no function registered for future event [SignalComplete]"

  /**
   * How SignalComplete ends: a panic in the caller, an unrecovered panic of
   * the handler in its goroutine (which ends the program), or a dispatch.
   */
  datatype Outcome = Panicked(msg: string) | Crashed(value: Value) | Dispatched

  class Future {
    var hasCompleteChan: bool
    var onCom: Option<HandlerId>
    var completeEvent: seq<Value>
    var signalCount: nat
    var waiting: multiset<Value>

    /** Every receive appends one value and counts it. */
    ghost predicate Valid()
      reads this
    {
      signalCount == |completeEvent|
    }

    /** NewFuture: a channel, no handler, no events, count 0. */
    constructor New()
      ensures Valid()
      ensures hasCompleteChan && onCom.None?
      ensures completeEvent == [] && signalCount == 0 && waiting == multiset{}
    {
      hasCompleteChan := true;
      onCom := None;
      completeEvent, signalCount := [], 0;
      waiting := multiset{};
    }

    /**
     * GetCompleteEventFromFuture: the value received as the `signalId`-th
     * signal, or nil once `signalId` reaches the count. A negative id passes
     * the guard in Go and panics on the index, hence the precondition.
     */
    function GetCompleteEventFromFuture(signalId: int): (r: Value)
      reads this
      requires Valid() && signalId >= 0
      ensures signalId >= signalCount ==> r == Nil
      ensures signalId < signalCount ==> r == completeEvent[signalId]
    {
      if signalId < signalCount then completeEvent[signalId] else Nil
    }

    /** GetCompleteEventsFromFuture: the whole list, one entry per counted signal. */
    function GetCompleteEventsFromFuture(): (r: seq<Value>)
      reads this
      requires Valid()
      ensures |r| == signalCount
      ensures forall i | 0 <= i < |r| :: r[i] == GetCompleteEventFromFuture(i)
    {
      completeEvent
    }

    /** SigalCount (sic): the number of values received so far. */
    function SigalCount(): (r: int)
      reads this
      requires Valid()
      ensures r == |GetCompleteEventsFromFuture()|
    {
      signalCount
    }

    /** RegisterComplete: the last write wins. */
    method RegisterComplete(h: Option<HandlerId>)
      modifies this`onCom
      ensures onCom == h
    {
      onCom := h;
    }

    /**
     * Set: only the "complete" tag sends, and the sender then blocks until
     * a receive takes the value; any other tag does nothing.
     */
    method Set(value: Value, tag: string)
      modifies this`waiting
      ensures waiting == old(waiting) + if tag == CompleteLabel then multiset{value} else multiset{}
    {
      if tag == CompleteLabel {
        waiting := waiting + multiset{value};
      }
    }

    /**
     * The receive of Signal's goroutine: at most one waiting sender is
     * received from (`pick`, chosen by the scheduler; None when no sender
     * was ready and the `default` case ran).
     */
    method Signal(pick: Option<Value>) returns (received: bool)
      requires Valid()
      requires pick.Some? ==> pick.value in waiting
      modifies this`completeEvent, this`signalCount, this`waiting
      ensures Valid()
      ensures received <==> pick.Some? && hasCompleteChan
      ensures received ==> completeEvent == old(completeEvent) + [pick.value]
      ensures received ==> waiting == old(waiting) - multiset{pick.value}
      ensures received ==> GetCompleteEventFromFuture(old(signalCount)) == pick.value
      ensures !received ==> completeEvent == old(completeEvent) && waiting == old(waiting)
      ensures !received ==> signalCount == old(signalCount)
    {
      received := pick.Some? && hasCompleteChan;
      if received {
        completeEvent := completeEvent + [pick.value];
        signalCount := signalCount + 1;
        waiting := waiting - multiset{pick.value};
      }
    }

    /**
     * SignalComplete: with no handler it always panics (there is no mode).
     * Otherwise the handler runs in a goroutine (`run` says how it ends). A
     * panic there is not recovered: the program dies before the value is
     * sent. After a normal return the goroutine sends the value, and Signal
     * makes one receive, which may or may not take that value.
     */
    method SignalComplete(value: Value, run: HandlerRun, pick: Option<Value>) returns (o: Outcome, received: bool)
      requires Valid()
      requires pick.Some? ==> pick.value in waiting + multiset{value}
      modifies this`completeEvent, this`signalCount, this`waiting
      ensures Valid()
      ensures o.Panicked? <==> old(onCom).None?
      ensures o.Panicked? ==> o.msg == NoHandlerMsg && !received
      ensures o.Crashed? <==> old(onCom).Some? && run.Panics?
      ensures o.Crashed? ==> o.value == run.value && !received
      ensures !o.Dispatched? ==> completeEvent == old(completeEvent) && waiting == old(waiting)
      ensures o.Dispatched? <==> old(onCom).Some? && run.Returns?
      ensures o.Dispatched? ==> (received <==> pick.Some? && hasCompleteChan)
      ensures o.Dispatched? && received ==> completeEvent == old(completeEvent) + [pick.value]
      ensures o.Dispatched? && received ==> waiting == old(waiting) + multiset{value} - multiset{pick.value}
      ensures o.Dispatched? && !received ==> completeEvent == old(completeEvent) && waiting == old(waiting) + multiset{value}
      ensures signalCount == |completeEvent| && signalCount <= old(signalCount) + 1
    {
      if onCom.None? {
        o, received := Panicked(NoHandlerMsg), false;
        return;
      }
      if run.Panics? {
        o, received := Crashed(run.value), false;
        return;
      }
      o := Dispatched;
      Set(value, CompleteLabel);
      received := Signal(pick);
    }
  }
}
