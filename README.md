# horizon futures, modelled in Dafny

This project models the future/promise library `horizon` (Go). It also models
the simplified `spacetime` variant that sits beside it in the repository.

A `horizon.Future` holds three handler slots (Complete, Error, Finally), a
timeline of recorded events with a `signalCount`, a failure `Mode`
(Einstein logs misuse, Hawking panics) and two channels. The channels feed a
recorder goroutine that appends Complete and Error events to the timeline.
`SignalComplete`, `SignalError` and the internal `signalFinally` gate on
inertness and on the handler slot, then spawn a goroutine that runs the
handler. The Complete goroutine defers `recovery` (path.go), which routes a
recovered panic to the Error handler and a normal return to Finally.
`Alter` starts a new timeline. `BlackHole` destroys the future.

How the model is built:

- Goroutines are run to completion, one at a time. A Signal* method returns
  the synchronous `Outcome` (`Aborted`, `Logged` or `Dispatched`). It also
  returns the `Step` trace of the goroutines it spawned: handlers that ran,
  events delivered to the recorder, a send that blocks forever (`Stuck`),
  log lines, and unrecovered panics (`Crash`).
- Handler bodies are opaque. A handler is a `HandlerId`. A `Behaviour`
  parameter says whether each handler returns or panics, and with which value.
- The dispatch methods of `Horizon.Future` are proved against pure trace
  functions (`CompleteTrace`, `ErrorTrace`, `FinallyTrace`, `RecoveryTrace`)
  of a `Config` snapshot. Each method's timeline grows by exactly the events
  its trace delivered (`Deliveries`). The lemmas on those functions carry
  the routing properties of path.go.
- The recorder loop is `RunRecorder`, one `RecorderStep` per received event.
  `Recorded` gives the part of a delivery sequence that it keeps.
- The Complete goroutine is split by how its handler ends:
  `RunCompleteReturned` and `RunCompletePanicked`, chosen by
  `RunCompleteDispatch`.
- Go `interface{}` payloads are `Runtime.Value`, with an explicit `Nil`.
  A nil handler slot is `None`. A nil `events` slice is the `eventsNil` flag.

Where the prose description and the code differ, the model follows the code:

- A Complete handler may panic with a non-nil value while no Error handler
  is registered. Then the panic is swallowed and Finally is not called
  (path.go:5-9). There is no fall-back to Finally.
- `EventType` is an open string type, and `Set` is public. A delivered event
  with another tag, such as `Finally`, is counted but not recorded. So
  `signalCount == |events|` is kept only by Complete and Error deliveries;
  in general the invariant is `|events| <= signalCount`, together with
  `Recorded(events) == events`: the timeline is what the recorder keeps.
- Any `Mode` other than `Hawking` behaves like Einstein, because the code only
  tests `Mode == Hawking`.
- In Hawking mode, the `SignalError` goroutine panics, unrecovered, when no
  Finally handler is registered, its Error handler returns and the event
  channel exists: its `signalFinally` call reaches the misuse branch
  (`ErrorWithoutFinallyMisuses`).

## Model

| member | source | states |
|---|---|---|
| `Runtime.Recovered` | path.go:5 | `recover()` yields nil after a normal return and the panic value after a panic; a non-nil result means the handler panicked |
| `Modes.Int` | mode.go:15-17 | the integer of a mode converts back to the same mode; Einstein is 0 and Hawking is 1 |
| `Modes.ZeroModeIsEinstein` | mode.go:3-9 | the zero `Mode` is Einstein, and Einstein and Hawking differ |
| `Events.TagsDistinct` | horizon/event.go:13-22 | "complete", "error" and "finally" are distinct tags; only Complete and Error are recorded |
| `Path.Recovery` | path.go:4-15 | a panic goes to SignalError exactly when an Error handler can be signalled, carrying the panic value, and is otherwise swallowed; Finally is invoked exactly when nothing panicked and Finally can be signalled |
| `Horizon.Misuse` | horizon/future.go:90-95 | misuse panics exactly under Hawking and logs and returns under every other mode, with the given message |
| `Horizon.Recorded` | horizon/future.go:72-79 | the recorder keeps at most as many events as it receives |
| `Horizon.RecordedSnoc` | horizon/future.go:70-79 | one more received event extends what was recorded by exactly what that event keeps, so the recorder appends in arrival order |
| `Horizon.RecordedOnlyRecorded` | horizon/future.go:73-78 | whatever the recorder keeps is a Complete or an Error event |
| `Horizon.RecordedKeepsAllIff` | horizon/future.go:72-79 | the kept events are as many as the deliveries exactly when every delivered tag is Complete or Error, and then all of them are kept |
| `Horizon.RecordedKeepsAll` | horizon/future.go:72-79 | when every delivered tag is Complete or Error, the recorder keeps every delivery, in order |
| `Horizon.RecordedDropsSome` | horizon/future.go:72-79 | a delivered tag other than Complete and Error leaves the timeline strictly shorter than the deliveries |
| `Horizon.ReturnedDeliveredTrace` | horizon/future.go:100-106 | a returning Complete handler on a live recorder delivers exactly its Complete event, and the recovery that follows finds no panic and delivers nothing |
| `Horizon.ResignalThenFinally` | path.go:5-8 | a recovered non-nil panic with Error and Finally registered, when the Error handler returns and the event channel exists, re-signals Error with the panic value, records it, then runs Finally |
| `Horizon.ReturnRecordsThenFinally` | path.go:10-14 | when the Complete handler returns on a live future, its event is delivered first; then Finally runs exactly when registered; no misuse is logged or raised, though a panicking Finally handler still crashes |
| `Horizon.PanicWithoutErrorHandlerIsSwallowed` | path.go:5-9 | when the Complete handler panics with a non-nil value and no Error handler is registered, nothing follows: no Finally, no record |
| `Horizon.PanicGivesOneErrorOneFinally` | path.go:6-8 | with Error and Finally registered, a Complete handler that panics with a non-nil value yields one Error record with the panic value and one Finally call, when the Error handler returns and the event channel exists |
| `Horizon.ErrorWithoutFinallyMisuses` | horizon/future.go:133-138 | an Error dispatch without a Finally handler, when the Error handler returns and the event channel exists, ends in signalFinally's misuse: a log line, or an unrecovered panic under Hawking |
| `Horizon.FinallyDeliversNothing` | horizon/future.go:151-175 | signalFinally never hands an event to the recorder, so Finally is never recorded |
| `Horizon.ErrorTraceDeliveries` | horizon/future.go:128-139 | the Error goroutine records exactly its Error event when the handler returns and the recorder is live, and nothing otherwise |
| `Horizon.RecoveryDeliveries` | path.go:4-15 | the deferred recovery records the Error event of a recovered non-nil panic when an Error handler is registered, its handler returns and the recorder is live, and nothing otherwise |
| `Horizon.CompleteDispatchRecords` | horizon/future.go:100-106 | a Complete dispatch records its Complete event exactly when the handler returns and the recorder is live; after a panic it never records the Complete event, only the re-signalled Error event; so at most one event |
| `Horizon.Future.New` | horizon/future.go:30-38 | Einstein without a mode argument, otherwise the first argument; empty non-nil timeline, count 0, live channels, no handlers, not inert |
| `Horizon.Future.Zero` | horizon/future.go:11-27 | the zero `Future{}` is inert and in Einstein mode |
| `Horizon.Future.IsNil` | horizon/future.go:208-212 | inert only without event channel, quit channel, timeline and Complete handler; any one of them makes the future live |
| `Horizon.Future.CanSignal` | horizon/future.go:217-232 | false on an inert future; for Complete it is whether the slot is set; for Error and Finally, a live future with the slot set; false for every other tag |
| `Horizon.Future.Gate` | horizon/future.go:89-114 | a goroutine is spawned exactly when the kind can be signalled; otherwise it is "future is destroyed" on an inert future, else the no-handler message, and it panics exactly under Hawking |
| `Horizon.Future.Events` | horizon/future.go:41-43 | the timeline together with whether Go would return a nil slice (zero value, after Alter or BlackHole, as their ensures give); a nil timeline is empty, it is never longer than the count, and it holds only Complete and Error events, because it is what the recorder kept of its deliveries |
| `Horizon.Future.SigalCount` | horizon/future.go:181-183 | the count is never below the number of recorded events |
| `Horizon.Future.RegisterComplete` | horizon/future.go:52-54 | the slot is overwritten (last write wins); a non-nil handler makes the future non-inert |
| `Horizon.Future.RegisterError` | horizon/future.go:57-59 | the slot is overwritten; inertness does not change |
| `Horizon.Future.RegisterFinally` | horizon/future.go:62-64 | the slot is overwritten; inertness does not change |
| `Horizon.Future.RecorderStep` | horizon/future.go:72-79 | a Complete or Error event is appended and any other is dropped; every event raises the count by one; the invariant is kept |
| `Horizon.Future.RunRecorder` | horizon/future.go:67-85 | receiving a sequence appends its Complete and Error events in order and counts all of them; consistency survives exactly when every tag is Complete or Error |
| `Horizon.Future.Set` | horizon/future.go:47-49 | the event reaches the recorder when the event channel exists; otherwise the send blocks forever and nothing changes |
| `Horizon.Future.RunFinallyDispatch` | horizon/future.go:161-167 | the Finally goroutine runs the handler once; its panic is unrecovered; nothing is delivered |
| `Horizon.Future.SignalFinally` | horizon/future.go:151-175 | gating, then the Finally goroutine, as `FinallyTrace` describes; nothing is recorded |
| `Horizon.Future.RunErrorDispatch` | horizon/future.go:128-139 | the Error goroutine follows `ErrorTrace`: handler, then its Error event, then signalFinally; the timeline grows by exactly the delivered events |
| `Horizon.Future.SignalError` | horizon/future.go:118-147 | the outcome is the gate's; a dispatch follows `ErrorTrace`; the timeline grows by exactly the delivered events |
| `Horizon.Future.RunRecovery` | path.go:4-15 | the deferred recovery follows `RecoveryTrace`: SignalError with the panic value, signalFinally, or nothing |
| `Horizon.Future.RunCompleteDispatch` | horizon/future.go:100-106 | the Complete goroutine follows `CompleteTrace`: handler, its event delivered, then the recovery; a blocked send stops it |
| `Horizon.Future.RunCompleteReturned` | horizon/future.go:100-106 | the Complete goroutine after a normal return: `Set`, then the recovery, as `CompleteTrace` describes; the timeline grows by exactly the delivered events |
| `Horizon.Future.RunCompletePanicked` | horizon/future.go:100-106 | the Complete goroutine after a panic: only the recovery runs, as `CompleteTrace` describes; the timeline grows by exactly the delivered events |
| `Horizon.Future.SignalComplete` | horizon/future.go:89-114 | the outcome is the gate's; a dispatch follows `CompleteTrace`; the timeline grows by exactly the delivered events |
| `Horizon.Future.Alter` | horizon/future.go:189-192 | nil timeline and count 0; handlers, mode and channels are kept, so a live future stays non-inert and signals the same kinds |
| `Horizon.Future.BlackHole` | horizon/future.go:197-203 | the future becomes inert with every slot cleared and its mode kept, so nothing can be signalled; a second call panics on the nil quit channel and changes nothing |
| `Spacetime.Future.New` | spacetime/horizon.go:10-12 | a channel, no handler, no events, count 0 |
| `Spacetime.Future.GetCompleteEventFromFuture` | spacetime/horizon.go:14-19 | nil for every id at or beyond the count, otherwise the value received at that position |
| `Spacetime.Future.GetCompleteEventsFromFuture` | spacetime/horizon.go:21-23 | the whole list, one entry per counted signal, agreeing with the per-id lookup |
| `Spacetime.Future.SigalCount` | spacetime/horizon.go:67-69 | the count equals the length of the list |
| `Spacetime.Future.RegisterComplete` | spacetime/horizon.go:33-35 | the slot is overwritten (last write wins) |
| `Spacetime.Future.Set` | spacetime/horizon.go:25-31 | only the "complete" tag sends the value; any other tag is a no-op |
| `Spacetime.Future.Signal` | spacetime/horizon.go:37-52 | one receive takes at most one waiting value, appends it and counts it, so the next lookup at the old count returns it |
| `Spacetime.Future.SignalComplete` | spacetime/horizon.go:54-65 | without a handler it always panics with the no-handler message, whatever else holds; a handler that panics ends the program before the value is sent, so nothing is sent or received; after a normal return the value is sent and at most one value is received |

## Left out

- Concurrency: goroutine interleavings, the `select` scheduling and the data races on handler slots and `events` are not modelled. Each Signal* call and the goroutines it spawns run to completion, and handlers do not change their future.
- Liveness: a send to a recorder that has stopped is recorded as a `Stuck` step (horizon) or a waiting sender (spacetime). The model does not reason about blocking over time.
- The blocking gate of horizon/relativity.go (`Schwarzschild`, `Openheimer`) is not part of this model. It is a busy-wait over `float64` coordinates, and it writes a `radius` field that `Future` does not declare.
- main.go is not part of this model; it is a demonstration driver with timers and logging.
- Log output is an `Outcome` or `Step` tag carrying the message; the text is not written anywhere.
- `Horizon.Future.SigalCount`: `signalCount` is unbounded; Go's `int` overflow after 2^63 deliveries is not modelled.
- `Runtime.Recovered`: `panic(nil)` is taken to yield nil from `recover()`, as Go releases before 1.21 do. Go 1.21 and later yield a non-nil `*runtime.PanicNilError`, which would route the panic to the Error path instead.
- `Spacetime.Future.GetCompleteEventFromFuture`: requires `signalId >= 0`. A negative id passes the `signalId < signalCount` guard, and the slice index then panics.
- `Spacetime.Future.SignalComplete`: does not model the type assertion on `onComFunc`, which panics in the goroutine when a non-function was registered.
- `Spacetime.Future.GetCompleteEventsFromFuture`: returns `[]` on a fresh future, where Go returns a nil slice until the first receive; the model does not tell a nil `completeEvent` slice from an empty one.
- `Spacetime.Future.Signal`: on a future without a channel (the zero value) nothing is ever received; the sends that block on that nil channel still appear in `waiting`.
