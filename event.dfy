/** Events sent from a future to its recorder (horizon/event.go). */
module Events {
  import opened Runtime

  /** An event tag. It is an open string type: tags beyond the three constants exist. */
  type EventType = string

  const Complete: EventType := "complete"
  const Error: EventType := "error"
  const Finally: EventType := "finally"

  /** A tag and an opaque payload; nothing ties the payload to the tag. */
  datatype Event = Event(kind: EventType, data: Value)

  /** The tags the recorder appends to the timeline. */
  predicate IsRecorded(t: EventType)
  {
    t == Complete || t == Error
  }

  /** The three tags are distinct, and `Finally`, a handler kind, is never recorded. */
  lemma TagsDistinct()
    ensures Complete != Error && Error != Finally && Complete != Finally
    ensures IsRecorded(Complete) && IsRecorded(Error) && !IsRecorded(Finally)
  {
  }
}
