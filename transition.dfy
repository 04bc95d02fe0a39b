/**
 * The record built for each firing and handed to every hook it runs: the
 * event, the state the machine was in, and the caller's payload.
 */
module Transitions {
  import opened Wrappers
  import opened States
  import opened Events

  datatype Transition = Transition(event: Event, source: State, userInfo: Option<Payload>)
  {
    /** Where the transition leads: always the event's own destination. */
    function Destination(): (d: State)
      ensures d == event.destination
    {
      event.destination
    }
  }

  /** `Transition(event:source:in:userInfo:)`; the machine back-reference is not kept. */
  function NewTransition(event: Event, source: State, userInfo: Option<Payload>): (t: Transition)
    ensures t.event == event && t.source == source && t.userInfo == userInfo
    ensures t.Destination() == event.destination
  {
    Transition(event, source, userInfo)
  }
}
