/**
 * The sequential state machine of `horizon.Future` (horizon/future.go).
 *
 * Goroutines are run to completion one at a time: a Signal* call, together
 * with the goroutines it spawns, yields a trace of Steps, and the recorder
 * goroutine's `select` loop is driven one delivery at a time by `Set`.
 */
module Horizon {
  import opened Wrappers
  import opened Runtime
  import opened Modes
  import opened Events
  import Path

  const DestroyedMsg: string := "future is destroyed"
  const NoCompleteMsg: string := "no function registered for future event [SignalComplete]"
  const NoErrorMsg: string := "no function registered for future event [SignalError]"
  const NoFinallyMsg: string := "no function registered for future event [SignalFinally]"

  /** What a Signal* call does before returning to its caller. */
  datatype Outcome =
    | Aborted(msg: string)  // the call panics (Hawking)
    | Logged(msg: string)   // a log line, then the call returns (Einstein)
    | Dispatched            // a goroutine was spawned for the handler

  /**
   * The misuse policy: panic under Hawking, log and return under every other
   * mode, since the source only ever tests `Mode == Hawking`.
   */
  function Misuse(m: Mode, msg: string): (o: Outcome)
    ensures o.Aborted? <==> m == Hawking
    ensures o.Logged? <==> m != Hawking
    ensures !o.Dispatched? && o.msg == msg
  {
    if m == Hawking then Aborted(msg) else Logged(msg)
  }

  /** What each registered handler does when it is invoked (their bodies are opaque). */
  datatype Behaviour = Behaviour(onComplete: HandlerRun, onError: HandlerRun, onFinally: HandlerRun)

  /** One observable step of a dispatch goroutine. */
  datatype Step =
    | Ran(kind: EventType, handler: HandlerId, arg: Value)  // a handler was invoked
    | Delivered(event: Event)                               // `Set` handed the event to the recorder
    | Stuck(event: Event)                                   // `Set` on a nil channel: blocked forever
    | Log(msg: string)                                      // a misuse was logged
    | Crash(value: Value)                                   // an unrecovered panic ends the process

  /** What a dispatch goroutine reads from its future. */
  datatype Config = Config(
    onCom: Option<HandlerId>,
    onErr: Option<HandlerId>,
    onFin: Option<HandlerId>,
    mode: Mode,
    live: bool)  // the event channel exists, so the recorder receives

  /** A misuse met inside a goroutine: a panic there is not recovered by anyone. */
  function InGoroutine(o: Outcome): (s: Step)
    requires !o.Dispatched?
    ensures s.Crash? <==> o.Aborted?
  {
    if o.Aborted? then Crash(Str(o.msg)) else Log(o.msg)
  }

  /** A panic of an Error or Finally handler is not recovered. */
  function CrashIf(run: HandlerRun): seq<Step>
  {
    if run.Panics? then [Crash(run.value)] else []
  }

  /** The events that a trace handed to the recorder, in order. */
  function Deliveries(t: seq<Step>): (r: seq<Event>)
    ensures |r| <= |t|
  {
    if t == [] then [] else Delivery(t[0]) + Deliveries(t[1..])
  }

  /** The event one step hands to the recorder, if any. */
  function Delivery(s: Step): seq<Event>
  {
    if s.Delivered? then [s.event] else []
  }

  /** The events the recorder appends when it receives `inbox` in order. */
  function Recorded(inbox: seq<Event>): (r: seq<Event>)
    ensures |r| <= |inbox|
  {
    if inbox == [] then []
    else Kept(inbox[0]) + Recorded(inbox[1..])
  }

  /** The events the recorder keeps of one delivery. */
  function Kept(e: Event): seq<Event>
  {
    if IsRecorded(e.kind) then [e] else []
  }

  lemma {:induction false} RecordedSnoc(inbox: seq<Event>, e: Event)
    ensures Recorded(inbox + [e]) == Recorded(inbox) + Kept(e)
  {
    var s := inbox + [e];
    if inbox == [] {
      assert s == [e] && s[1..] == [];
    } else {
      assert s[0] == inbox[0] && s[1..] == inbox[1..] + [e];
      RecordedSnoc(inbox[1..], e);
      calc {
        Recorded(s);
        Kept(inbox[0]) + Recorded(inbox[1..] + [e]);
        Kept(inbox[0]) + (Recorded(inbox[1..]) + Kept(e));
        (Kept(inbox[0]) + Recorded(inbox[1..])) + Kept(e);
      }
    }
  }

  /** What the recorder keeps of the events from the `i`-th on: that event's part, then the rest. */
  lemma RecordedSuffix(inbox: seq<Event>, i: nat)
    requires i < |inbox|
    ensures Recorded(inbox[i..]) == Kept(inbox[i]) + Recorded(inbox[i + 1..])
  {
    assert inbox[i..][0] == inbox[i] && inbox[i..][1..] == inbox[i + 1..];
  }

  /** Whatever the recorder keeps is a Complete or an Error event. */
  lemma {:induction false} RecordedOnlyRecorded(inbox: seq<Event>)
    ensures forall e | e in Recorded(inbox) :: IsRecorded(e.kind)
  {
    if inbox != [] {
      RecordedOnlyRecorded(inbox[1..]);
    }
  }

  /**
   * The recorder counts every delivery but keeps only Complete and Error
   * events: the timeline grows as fast as the count exactly when no other
   * tag was delivered, and then it keeps every delivery.
   */
  lemma {:induction false} RecordedKeepsAllIff(inbox: seq<Event>)
    ensures |Recorded(inbox)| == |inbox| <==> forall i | 0 <= i < |inbox| :: IsRecorded(inbox[i].kind)
    ensures (forall i | 0 <= i < |inbox| :: IsRecorded(inbox[i].kind)) ==> Recorded(inbox) == inbox
  {
    if forall i | 0 <= i < |inbox| :: IsRecorded(inbox[i].kind) {
      RecordedKeepsAll(inbox);
    } else {
      RecordedDropsSome(inbox);
    }
  }

  /** When every delivered tag is Complete or Error, the recorder keeps every delivery. */
  lemma {:induction false} RecordedKeepsAll(inbox: seq<Event>)
    requires forall i | 0 <= i < |inbox| :: IsRecorded(inbox[i].kind)
    ensures Recorded(inbox) == inbox
  {
    if inbox != [] {
      var t := inbox[1..];
      assert forall j | 0 <= j < |t| :: t[j] == inbox[j + 1];
      RecordedKeepsAll(t);
      assert inbox == [inbox[0]] + t;
    }
  }

  /** A delivered tag other than Complete and Error leaves the timeline shorter than the deliveries. */
  lemma {:induction false} RecordedDropsSome(inbox: seq<Event>)
    requires exists i | 0 <= i < |inbox| :: !IsRecorded(inbox[i].kind)
    ensures |Recorded(inbox)| < |inbox|
  {
    var t := inbox[1..];
    if IsRecorded(inbox[0].kind) {
      var i :| 0 <= i < |inbox| && !IsRecorded(inbox[i].kind);
      assert t[i - 1] == inbox[i];
      RecordedDropsSome(t);
    }
  }

  /** signalFinally reached by a goroutine of a future that is not inert. */
  function FinallyTrace(c: Config, run: HandlerRun): seq<Step>
  {
    match c.onFin
    case Some(h) => [Ran(Finally, h, Nil)] + CrashIf(run)
    case None => [InGoroutine(Misuse(c.mode, NoFinallyMsg))]
  }

  /** The goroutine of SignalError: handler, record, then signalFinally. */
  function ErrorTrace(c: Config, p: Value, b: Behaviour): seq<Step>
    requires c.onErr.Some?
  {
    [Ran(Error, c.onErr.value, p)] +
    if b.onError.Panics? then [Crash(b.onError.value)]
    else if !c.live then [Stuck(Event(Error, p))]
    else [Delivered(Event(Error, p))] + FinallyTrace(c, b.onFinally)
  }

  /** The deferred `recovery` of a Complete dispatch, given what `recover()` yields. */
  function RecoveryTrace(c: Config, recovered: Value, b: Behaviour): seq<Step>
  {
    match Path.Recovery(recovered, c.onErr.Some?, c.onFin.Some?)
    case ResignalError(p) => ErrorTrace(c, p, b)
    case InvokeFinally => FinallyTrace(c, b.onFinally)
    case Swallow => []
    case Done => []
  }

  /**
   * The goroutine of SignalComplete: the handler runs, then its event is
   * handed to the recorder; the deferred recovery runs last, unless `Set`
   * blocked forever.
   */
  function CompleteTrace(c: Config, x: Value, b: Behaviour): seq<Step>
    requires c.onCom.Some?
  {
    [Ran(Complete, c.onCom.value, x)] +
    if b.onComplete.Returns? && !c.live then [Stuck(Event(Complete, x))]
    else
      (if b.onComplete.Returns? then [Delivered(Event(Complete, x))] else []) +
      RecoveryTrace(c, Recovered(b.onComplete), b)
  }

  /** A returning handler with a dead recorder: `Set` blocks forever and nothing follows. */
  lemma ReturnedStuckTrace(c: Config, x: Value, b: Behaviour)
    requires c.onCom.Some? && b.onComplete.Returns? && !c.live
    ensures CompleteTrace(c, x, b) == [Ran(Complete, c.onCom.value, x), Stuck(Event(Complete, x))]
    ensures Deliveries(CompleteTrace(c, x, b)) == []
  {
    DeliveriesCons(Ran(Complete, c.onCom.value, x), [Stuck(Event(Complete, x))]);
    DeliveriesCons(Stuck(Event(Complete, x)), []);
  }

  /**
   * A returning handler with a live recorder: its Complete event is delivered
   * and the recovery finds nothing to recover.
   */
  lemma ReturnedDeliveredTrace(c: Config, x: Value, b: Behaviour)
    requires c.onCom.Some? && b.onComplete.Returns? && c.live
    ensures CompleteTrace(c, x, b) ==
      [Ran(Complete, c.onCom.value, x), Delivered(Event(Complete, x))] + RecoveryTrace(c, Nil, b)
    ensures Deliveries(RecoveryTrace(c, Nil, b)) == []
    ensures Deliveries(CompleteTrace(c, x, b)) == [Event(Complete, x)]
  {
    RecoveryDeliveries(c, Nil, b);
    var r := Ran(Complete, c.onCom.value, x);
    var e := Event(Complete, x);
    var rest := RecoveryTrace(c, Nil, b);
    assert CompleteTrace(c, x, b) == [r] + ([Delivered(e)] + rest);
    DeliveriesCons(r, [Delivered(e)] + rest);
    DeliveriesCons(Delivered(e), rest);
  }

  /** After a panic the Complete goroutine is its handler followed by the recovery of the panic value. */
  lemma PanickedCompleteTrace(c: Config, x: Value, b: Behaviour)
    requires c.onCom.Some? && b.onComplete.Panics?
    ensures CompleteTrace(c, x, b) == [Ran(Complete, c.onCom.value, x)] + RecoveryTrace(c, b.onComplete.value, b)
    ensures Deliveries(CompleteTrace(c, x, b)) == Deliveries(RecoveryTrace(c, b.onComplete.value, b))
  {
    DeliveriesCons(Ran(Complete, c.onCom.value, x), RecoveryTrace(c, b.onComplete.value, b));
  }

  lemma DeliveriesCons(s: Step, t: seq<Step>)
    ensures Deliveries([s] + t) == Delivery(s) + Deliveries(t)
  {
    assert ([s] + t)[0] == s && ([s] + t)[1..] == t;
  }

  /** signalFinally never hands anything to the recorder. */
  lemma FinallyDeliversNothing(c: Config, run: HandlerRun)
    ensures Deliveries(FinallyTrace(c, run)) == []
  {
    assert Deliveries(CrashIf(run)) == [] by {
      if run.Panics? { DeliveriesCons(Crash(run.value), []); }
    }
    match c.onFin
    case Some(h) => DeliveriesCons(Ran(Finally, h, Nil), CrashIf(run));
    case None => DeliveriesCons(InGoroutine(Misuse(c.mode, NoFinallyMsg)), []);
  }

  /**
   * The Error goroutine records exactly its Error event when its handler
   * returns and the recorder is live, and nothing otherwise.
   */
  lemma ErrorTraceDeliveries(c: Config, p: Value, b: Behaviour)
    requires c.onErr.Some?
    ensures Deliveries(ErrorTrace(c, p, b)) == if !b.onError.Panics? && c.live then [Event(Error, p)] else []
  {
    var tail := if b.onError.Panics? then [Crash(b.onError.value)]
                else if !c.live then [Stuck(Event(Error, p))]
                else [Delivered(Event(Error, p))] + FinallyTrace(c, b.onFinally);
    DeliveriesCons(Ran(Error, c.onErr.value, p), tail);
    if b.onError.Panics? {
      DeliveriesCons(Crash(b.onError.value), []);
    } else if !c.live {
      DeliveriesCons(Stuck(Event(Error, p)), []);
    } else {
      DeliveriesCons(Delivered(Event(Error, p)), FinallyTrace(c, b.onFinally));
      FinallyDeliversNothing(c, b.onFinally);
    }
  }

  /** An Error handler that returns to a live recorder: its event is delivered, then signalFinally. */
  lemma DeliveredErrorTrace(c: Config, p: Value, b: Behaviour)
    requires c.onErr.Some? && b.onError.Returns? && c.live
    ensures ErrorTrace(c, p, b) == [Ran(Error, c.onErr.value, p), Delivered(Event(Error, p))] + FinallyTrace(c, b.onFinally)
  {
  }

  /** The deferred recovery records the Error event of a recovered panic, and nothing else. */
  lemma RecoveryDeliveries(c: Config, recovered: Value, b: Behaviour)
    ensures Deliveries(RecoveryTrace(c, recovered, b)) ==
      if recovered != Nil && c.onErr.Some? && !b.onError.Panics? && c.live then [Event(Error, recovered)] else []
  {
    match Path.Recovery(recovered, c.onErr.Some?, c.onFin.Some?)
    case ResignalError(p) => ErrorTraceDeliveries(c, p, b);
    case InvokeFinally => FinallyDeliversNothing(c, b.onFinally);
    case Swallow =>
    case Done =>
  }

  /**
   * What a Complete dispatch records: its own Complete event when the
   * handler returns and the recorder is live; after a panic never the
   * Complete event, only the Error event that the recovery re-signals.
   */
  lemma CompleteDispatchRecords(c: Config, x: Value, b: Behaviour)
    requires c.onCom.Some?
    ensures Deliveries(CompleteTrace(c, x, b)) ==
      if b.onComplete.Returns? then (if c.live then [Event(Complete, x)] else [])
      else if b.onComplete.value != Nil && c.onErr.Some? && !b.onError.Panics? && c.live
      then [Event(Error, b.onComplete.value)]
      else []
    ensures |Deliveries(CompleteTrace(c, x, b))| <= 1
  {
    var r := Recovered(b.onComplete);
    var rest := RecoveryTrace(c, r, b);
    RecoveryDeliveries(c, r, b);
    if b.onComplete.Returns? && !c.live {
      DeliveriesCons(Ran(Complete, c.onCom.value, x), [Stuck(Event(Complete, x))]);
      DeliveriesCons(Stuck(Event(Complete, x)), []);
    } else if b.onComplete.Returns? {
      DeliveriesCons(Ran(Complete, c.onCom.value, x), [Delivered(Event(Complete, x))] + rest);
      DeliveriesCons(Delivered(Event(Complete, x)), rest);
    } else {
      assert CompleteTrace(c, x, b) == [Ran(Complete, c.onCom.value, x)] + rest;
      DeliveriesCons(Ran(Complete, c.onCom.value, x), rest);
    }
  }

  /**
   * A handler that returns normally: its Complete event is delivered before
   * Finally runs, Finally runs exactly when it is registered, and no misuse
   * is logged or raised on this path.
   */
  lemma ReturnRecordsThenFinally(c: Config, x: Value, b: Behaviour)
    requires c.onCom.Some? && c.live && b.onComplete.Returns?
    ensures CompleteTrace(c, x, b) ==
      [Ran(Complete, c.onCom.value, x), Delivered(Event(Complete, x))] +
      (if c.onFin.Some? then [Ran(Finally, c.onFin.value, Nil)] + CrashIf(b.onFinally) else [])
  {
  }

  /** A panic with no Error handler is swallowed: Finally is not invoked, nothing is recorded. */
  lemma PanicWithoutErrorHandlerIsSwallowed(c: Config, x: Value, b: Behaviour)
    requires c.onCom.Some? && c.onErr.None?
    requires b.onComplete.Panics? && b.onComplete.value != Nil
    ensures CompleteTrace(c, x, b) == [Ran(Complete, c.onCom.value, x)]
  {
  }

  /**
   * With Error and Finally registered, a panicking Complete handler yields
   * exactly one Error record, carrying the panic value, and one Finally call.
   */
  lemma PanicGivesOneErrorOneFinally(c: Config, x: Value, b: Behaviour)
    requires c.onCom.Some? && c.onErr.Some? && c.onFin.Some? && c.live
    requires b.onComplete.Panics? && b.onComplete.value != Nil && b.onError.Returns?
    ensures CompleteTrace(c, x, b) ==
      [Ran(Complete, c.onCom.value, x), Ran(Error, c.onErr.value, b.onComplete.value),
       Delivered(Event(Error, b.onComplete.value)), Ran(Finally, c.onFin.value, Nil)] + CrashIf(b.onFinally)
    ensures Deliveries(CompleteTrace(c, x, b)) == [Event(Error, b.onComplete.value)]
  {
    var v := b.onComplete.value;
    PanickedCompleteTrace(c, x, b);
    RecoveryDeliveries(c, v, b);
    ResignalThenFinally(c, v, b);
  }

  /** A recovered panic with Error and Finally registered: the Error handler, its record, then Finally. */
  lemma ResignalThenFinally(c: Config, v: Value, b: Behaviour)
    requires c.onErr.Some? && c.onFin.Some? && c.live && v != Nil && b.onError.Returns?
    ensures RecoveryTrace(c, v, b) ==
      [Ran(Error, c.onErr.value, v), Delivered(Event(Error, v)), Ran(Finally, c.onFin.value, Nil)] + CrashIf(b.onFinally)
  {
    assert RecoveryTrace(c, v, b) == ErrorTrace(c, v, b);
  }

  /** An Error dispatch without a Finally handler ends in signalFinally's misuse. */
  lemma ErrorWithoutFinallyMisuses(c: Config, p: Value, b: Behaviour)
    requires c.onErr.Some? && c.onFin.None? && c.live && b.onError.Returns?
    ensures ErrorTrace(c, p, b) ==
      [Ran(Error, c.onErr.value, p), Delivered(Event(Error, p)),
       if c.mode == Hawking then Crash(Str(NoFinallyMsg)) else Log(NoFinallyMsg)]
  {
  }

  /**
   * A future. The recorder goroutine is alive exactly while the event channel
   * exists (from NewFuture until BlackHole); `eventsNil` tells a nil slice
   * (zero value, after Alter, after BlackHole) from an empty one.
   */
  class Future {
    var hasEventChan: bool
    var hasQuitChan: bool
    var onCom: Option<HandlerId>
    var events: seq<Event>
    var eventsNil: bool
    var onErr: Option<HandlerId>
    var onFin: Option<HandlerId>
    var signalCount: nat
    var mode: Mode

    /**
     * The two channels are created and dropped together, a nil slice is
     * empty, the recorder would keep the whole timeline (it holds only
     * Complete and Error events, see RecordedOnlyRecorded), and every
     * recorded event was counted.
     */
    ghost predicate Valid()
      reads this
    {
      && hasEventChan == hasQuitChan
      && (eventsNil ==> events == [])
      && Recorded(events) == events
      && |events| <= signalCount
    }

    function CurrentConfig(): Config
      reads this
    {
      Config(onCom, onErr, onFin, mode, hasEventChan)
    }

    /** NewFuture: Einstein when no mode is given, otherwise the first one. */
    constructor New(modes: seq<Mode>)
      ensures Valid()
      ensures mode == if |modes| == 0 then Einstein else modes[0]
      ensures hasEventChan && hasQuitChan
      ensures events == [] && !eventsNil && signalCount == 0
      ensures onCom.None? && onErr.None? && onFin.None?
      ensures !IsNil()
    {
      hasEventChan, hasQuitChan := true, true;
      onCom, onErr, onFin := None, None, None;
      events, eventsNil := [], false;
      signalCount := 0;
      mode := if |modes| == 0 then Einstein else modes[0];
    }

    /** The zero value `Future{}`: no channels, nil timeline, Einstein. */
    constructor Zero()
      ensures Valid() && IsNil()
      ensures mode == Einstein && signalCount == 0
      ensures onErr.None? && onFin.None?
    {
      hasEventChan, hasQuitChan := false, false;
      onCom, onErr, onFin := None, None, None;
      events, eventsNil := [], true;
      signalCount := 0;
      mode := Einstein;
    }

    /** isNil: only the event channel, the timeline, the Complete slot and the quit channel matter. */
    function IsNil(): (r: bool)
      reads this
      ensures r ==> onCom.None? && !hasEventChan && !hasQuitChan && eventsNil
      ensures !r ==> onCom.Some? || hasEventChan || hasQuitChan || !eventsNil
    {
      !hasEventChan && eventsNil && onCom.None? && !hasQuitChan
    }

    /** canSignal: false on an inert future, otherwise whether the slot of `t` is set. */
    function CanSignal(t: EventType): (b: bool)
      reads this
      ensures b ==> !IsNil()
      ensures t == Complete ==> (b <==> onCom.Some?)
      ensures t == Error ==> (b <==> !IsNil() && onErr.Some?)
      ensures t == Finally ==> (b <==> !IsNil() && onFin.Some?)
      ensures !IsRecorded(t) && t != Finally ==> !b
    {
      if IsNil() then false
      else if t == Complete then onCom.Some?
      else if t == Error then onErr.Some?
      else if t == Finally then onFin.Some?
      else false
    }

    /**
     * The gating shared by SignalComplete, SignalError and signalFinally:
     * inertness is checked first, then the handler; a goroutine is spawned
     * exactly when both pass, and a failure follows the misuse policy.
     */
    function Gate(kind: EventType, noHandler: string): (o: Outcome)
      reads this
      ensures o.Dispatched? <==> CanSignal(kind)
      ensures !o.Dispatched? ==> (o.Aborted? <==> mode == Hawking)
      ensures !o.Dispatched? ==> o.msg == if IsNil() then DestroyedMsg else noHandler
    {
      if IsNil() then Misuse(mode, DestroyedMsg)
      else if CanSignal(kind) then Dispatched
      else Misuse(mode, noHandler)
    }

    /** Events: the timeline, which only ever holds Complete and Error events, and whether it is a nil slice. */
    function Events(): (r: (seq<Event>, bool))
      reads this
      requires Valid()
      ensures r.1 <==> eventsNil
      ensures r.1 ==> r.0 == []
      ensures |r.0| <= signalCount
      ensures forall e | e in r.0 :: IsRecorded(e.kind)
    {
      RecordedOnlyRecorded(events);
      (events, eventsNil)
    }

    /** SigalCount (sic): deliveries since the last Alter; never fewer than the recorded events. */
    function SigalCount(): (r: int)
      reads this
      requires Valid()
      ensures r >= |Events().0|
    {
      signalCount
    }

    method RegisterComplete(h: Option<HandlerId>)
      requires Valid()
      modifies this`onCom
      ensures Valid()
      ensures onCom == h
      ensures h.Some? ==> !IsNil()
    {
      onCom := h;
    }

    method RegisterError(h: Option<HandlerId>)
      requires Valid()
      modifies this`onErr
      ensures Valid()
      ensures onErr == h
      ensures IsNil() == old(IsNil())
    {
      onErr := h;
    }

    method RegisterFinally(h: Option<HandlerId>)
      requires Valid()
      modifies this`onFin
      ensures Valid()
      ensures onFin == h
      ensures IsNil() == old(IsNil())
    {
      onFin := h;
    }

    /**
     * One iteration of the recorder's `select` loop on a received event:
     * Complete and Error events are appended, and every event is counted.
     */
    method RecorderStep(e: Event)
      requires Valid() && hasEventChan
      modifies this`events, this`eventsNil, this`signalCount
      ensures Valid()
      ensures events == old(events) + Kept(e)
      ensures eventsNil == (old(eventsNil) && !IsRecorded(e.kind))
      ensures signalCount == old(signalCount) + 1
    {
      RecordedSnoc(events, e);
      if e.kind == Complete {
        events, eventsNil := events + [e], false;
      } else if e.kind == Error {
        events, eventsNil := events + [e], false;
      }
      signalCount := signalCount + 1;
    }

    /** The recorder loop receiving `inbox` in order before the quit channel closes. */
    method RunRecorder(inbox: seq<Event>)
      requires Valid() && hasEventChan
      modifies this`events, this`eventsNil, this`signalCount
      ensures Valid()
      ensures events == old(events) + Recorded(inbox)
      ensures eventsNil == (old(eventsNil) && Recorded(inbox) == [])
      ensures signalCount == old(signalCount) + |inbox|
      ensures old(signalCount == |events|) ==>
        (signalCount == |events| <==> forall i | 0 <= i < |inbox| :: IsRecorded(inbox[i].kind))
    {
      var i := 0;
      while i < |inbox|
        invariant 0 <= i <= |inbox|
        invariant Valid()
        invariant old(events) + Recorded(inbox) == events + Recorded(inbox[i..])
        invariant eventsNil == (old(eventsNil) && |events| == |old(events)|)
        invariant signalCount == old(signalCount) + i
      {
        RecordedSuffix(inbox, i);
        RecorderStep(inbox[i]);
        i := i + 1;
      }
      RecordedKeepsAllIff(inbox);
    }

    /**
     * Set: hand an event to the recorder. With no event channel (zero value,
     * or after BlackHole) the send blocks forever and nothing changes.
     */
    method Set(e: Event) returns (delivered: bool)
      requires Valid()
      modifies this`events, this`eventsNil, this`signalCount
      ensures Valid()
      ensures CurrentConfig() == old(CurrentConfig())
      ensures delivered == hasEventChan
      ensures delivered ==> events == old(events) + Kept(e) && signalCount == old(signalCount) + 1
      ensures delivered ==> eventsNil == (old(eventsNil) && !IsRecorded(e.kind))
      ensures !delivered ==> events == old(events) && eventsNil == old(eventsNil) && signalCount == old(signalCount)
    {
      delivered := hasEventChan;
      if delivered {
        RecorderStep(e);
      }
    }

    /** The Finally goroutine: the handler runs; a panic in it is not recovered. */
    method RunFinallyDispatch(run: HandlerRun) returns (trace: seq<Step>)
      requires onFin.Some?
      ensures trace == [Ran(Finally, onFin.value, Nil)] + CrashIf(run)
      ensures Deliveries(trace) == []
    {
      trace := [Ran(Finally, onFin.value, Nil)];
      if run.Panics? {
        trace := trace + [Crash(run.value)];
      }
    }

    /** signalFinally: gating, then the Finally goroutine. */
    method SignalFinally(run: HandlerRun) returns (o: Outcome, trace: seq<Step>)
      ensures o == Gate(Finally, NoFinallyMsg)
      ensures o.Dispatched? ==> trace == FinallyTrace(CurrentConfig(), run)
      ensures !o.Dispatched? ==> trace == []
      ensures Deliveries(trace) == []
    {
      o := Gate(Finally, NoFinallyMsg);
      if o.Dispatched? {
        trace := RunFinallyDispatch(run);
      } else {
        trace := [];
      }
    }

    /** The SignalError goroutine: handler, record the Error event, then signalFinally. */
    method RunErrorDispatch(p: Value, b: Behaviour) returns (trace: seq<Step>)
      requires Valid() && onErr.Some?
      modifies this`events, this`eventsNil, this`signalCount
      ensures Valid()
      ensures CurrentConfig() == old(CurrentConfig())
      ensures trace == ErrorTrace(old(CurrentConfig()), p, b)
      ensures events == old(events) + Deliveries(trace)
      ensures eventsNil == (old(eventsNil) && |Deliveries(trace)| == 0)
      ensures signalCount == old(signalCount) + |Deliveries(trace)|
    {
      ghost var c := CurrentConfig();
      ErrorTraceDeliveries(c, p, b);
      if b.onError.Panics? {
        trace := [Ran(Error, onErr.value, p), Crash(b.onError.value)];
        return;
      }
      var e := Event(Error, p);
      var delivered := Set(e);
      if !delivered {
        trace := [Ran(Error, onErr.value, p), Stuck(e)];
        return;
      }
      var o, fin := SignalFinally(b.onFinally);
      if !o.Dispatched? {
        fin := [InGoroutine(o)];
      }
      assert fin == FinallyTrace(c, b.onFinally);
      trace := [Ran(Error, onErr.value, p), Delivered(e)] + fin;
      DeliveredErrorTrace(c, p, b);
    }

    /** SignalError: gating, then the Error goroutine. */
    method SignalError(p: Value, b: Behaviour) returns (o: Outcome, trace: seq<Step>)
      requires Valid()
      modifies this`events, this`eventsNil, this`signalCount
      ensures Valid()
      ensures CurrentConfig() == old(CurrentConfig())
      ensures o == old(Gate(Error, NoErrorMsg))
      ensures o.Dispatched? ==> trace == ErrorTrace(old(CurrentConfig()), p, b)
      ensures !o.Dispatched? ==> trace == []
      ensures events == old(events) + Deliveries(trace)
      ensures eventsNil == (old(eventsNil) && |Deliveries(trace)| == 0)
      ensures signalCount == old(signalCount) + |Deliveries(trace)|
    {
      o := Gate(Error, NoErrorMsg);
      if o.Dispatched? {
        trace := RunErrorDispatch(p, b);
      } else {
        trace := [];
      }
    }

    /** path.go `recovery`, deferred in the Complete goroutine of a future that is not inert. */
    method RunRecovery(recovered: Value, b: Behaviour) returns (trace: seq<Step>)
      requires Valid() && !IsNil()
      modifies this`events, this`eventsNil, this`signalCount
      ensures Valid()
      ensures CurrentConfig() == old(CurrentConfig())
      ensures trace == RecoveryTrace(old(CurrentConfig()), recovered, b)
      ensures events == old(events) + Deliveries(trace)
      ensures eventsNil == (old(eventsNil) && |Deliveries(trace)| == 0)
      ensures signalCount == old(signalCount) + |Deliveries(trace)|
    {
      match Path.Recovery(recovered, CanSignal(Error), CanSignal(Finally))
      case ResignalError(p) =>
        var o;
        o, trace := SignalError(p, b);
      case InvokeFinally =>
        var o;
        o, trace := SignalFinally(b.onFinally);
      case Swallow =>
        trace := [];
      case Done =>
        trace := [];
    }

    /**
     * The SignalComplete goroutine: the handler runs, then `Set` hands its
     * event to the recorder, and the deferred recovery routes what followed.
     */
    method RunCompleteDispatch(x: Value, b: Behaviour) returns (trace: seq<Step>)
      requires Valid() && onCom.Some?
      modifies this`events, this`eventsNil, this`signalCount
      ensures Valid()
      ensures CurrentConfig() == old(CurrentConfig())
      ensures trace == CompleteTrace(old(CurrentConfig()), x, b)
      ensures events == old(events) + Deliveries(trace)
      ensures eventsNil == (old(eventsNil) && |Deliveries(trace)| == 0)
      ensures signalCount == old(signalCount) + |Deliveries(trace)|
    {
      if b.onComplete.Returns? {
        trace := RunCompleteReturned(x, b);
      } else {
        trace := RunCompletePanicked(x, b);
      }
    }

    /** The Complete goroutine when the handler returns normally. */
    method RunCompleteReturned(x: Value, b: Behaviour) returns (trace: seq<Step>)
      requires Valid() && onCom.Some? && b.onComplete.Returns?
      modifies this`events, this`eventsNil, this`signalCount
      ensures Valid()
      ensures CurrentConfig() == old(CurrentConfig())
      ensures trace == CompleteTrace(old(CurrentConfig()), x, b)
      ensures events == old(events) + Deliveries(trace)
      ensures eventsNil == (old(eventsNil) && |Deliveries(trace)| == 0)
      ensures signalCount == old(signalCount) + |Deliveries(trace)|
    {
      ghost var c := CurrentConfig();
      var h := onCom.value;
      var e := Event(Complete, x);
      var delivered := Set(e);
      if !delivered {
        // blocked forever: the deferred recovery never runs
        trace := [Ran(Complete, h, x), Stuck(e)];
        ReturnedStuckTrace(c, x, b);
        return;
      }
      ReturnedDeliveredTrace(c, x, b);
      var rest := RunRecovery(Nil, b);
      trace := [Ran(Complete, h, x), Delivered(e)] + rest;
    }

    /** The Complete goroutine when the handler panics: the deferred recovery sees the panic value. */
    method RunCompletePanicked(x: Value, b: Behaviour) returns (trace: seq<Step>)
      requires Valid() && onCom.Some? && b.onComplete.Panics?
      modifies this`events, this`eventsNil, this`signalCount
      ensures Valid()
      ensures CurrentConfig() == old(CurrentConfig())
      ensures trace == CompleteTrace(old(CurrentConfig()), x, b)
      ensures events == old(events) + Deliveries(trace)
      ensures eventsNil == (old(eventsNil) && |Deliveries(trace)| == 0)
      ensures signalCount == old(signalCount) + |Deliveries(trace)|
    {
      PanickedCompleteTrace(CurrentConfig(), x, b);
      var rest := RunRecovery(b.onComplete.value, b);
      trace := [Ran(Complete, onCom.value, x)] + rest;
    }

    /** SignalComplete: gating, then the Complete goroutine. */
    method SignalComplete(x: Value, b: Behaviour) returns (o: Outcome, trace: seq<Step>)
      requires Valid()
      modifies this`events, this`eventsNil, this`signalCount
      ensures Valid()
      ensures CurrentConfig() == old(CurrentConfig())
      ensures o == old(Gate(Complete, NoCompleteMsg))
      ensures o.Dispatched? ==> trace == CompleteTrace(old(CurrentConfig()), x, b)
      ensures !o.Dispatched? ==> trace == []
      ensures events == old(events) + Deliveries(trace)
      ensures eventsNil == (old(eventsNil) && |Deliveries(trace)| == 0)
      ensures signalCount == old(signalCount) + |Deliveries(trace)|
    {
      o := Gate(Complete, NoCompleteMsg);
      if o.Dispatched? {
        trace := RunCompleteDispatch(x, b);
      } else {
        trace := [];
      }
    }

    /** Alter: a new timeline; handlers, mode and the live recorder are kept. */
    method Alter()
      requires Valid()
      modifies this`events, this`eventsNil, this`signalCount
      ensures Valid()
      ensures events == [] && eventsNil && signalCount == 0
      ensures old(hasEventChan) ==> !IsNil()
      ensures old(hasEventChan) ==> forall t :: CanSignal(t) == old(CanSignal(t))
    {
      events, eventsNil := [], true;
      signalCount := 0;
    }

    /**
     * BlackHole: close the quit channel, stopping the recorder, and reset
     * everything but the mode. Closing the nil quit channel of a future that
     * is already destroyed (or was never created) panics instead.
     */
    method BlackHole() returns (panicked: bool)
      requires Valid()
      modifies this
      ensures Valid()
      ensures panicked == !old(hasQuitChan)
      ensures panicked ==> unchanged(this)
      ensures !panicked ==> IsNil() && mode == old(mode)
      ensures !panicked ==> onCom.None? && onErr.None? && onFin.None?
      ensures !panicked ==> events == [] && signalCount == 0 && !hasEventChan && !hasQuitChan
      ensures !panicked ==> forall t :: !CanSignal(t)
    {
      panicked := !hasQuitChan;
      if !panicked {
        hasEventChan, hasQuitChan := false, false;
        onCom, onErr, onFin := None, None, None;
        events, eventsNil := [], true;
        signalCount := 0;
      }
    }
  }
}
