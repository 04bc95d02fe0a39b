/**
 * A fluent accumulator for an event: setters overwrite the name, the
 * destination and the hooks, `source` adds to the source set, and `build`
 * checks that a name, at least one source and a destination were given.
 */
module EventBuilders {
  import opened Wrappers
  import opened States
  import opened Events
  import opened Machine

  class EventBuilder {
    var eventName: string
    var sourceStates: StateSet
    var destinationState: Option<State>
    var shouldFire: Option<Hook>
    var willFire: Option<Hook>
    var didFire: Option<Hook>

    ghost predicate Valid()
      reads this
    {
      Keyed(sourceStates) && (destinationState.Some? ==> destinationState.value.WellFormed())
    }

    /** A fresh builder: blank name, no sources, no destination, no hooks; building it fails. */
    constructor()
      ensures Valid()
      ensures eventName == "" && sourceStates == map[] && destinationState == None
      ensures shouldFire == None && willFire == None && didFire == None
      ensures Build() == Failure(InvalidEvent)
    {
      eventName := "";
      sourceStates := map[];
      destinationState := None;
      shouldFire := None;
      willFire := None;
      didFire := None;
    }

    method Name(value: string) returns (self: EventBuilder)
      requires Valid()
      modifies this`eventName
      ensures Valid()
      ensures self == this && eventName == value
    {
      eventName := value;
      return this;
    }

    /** Adds a source state; a state whose name is already a source changes nothing. */
    method Source(state: State) returns (self: EventBuilder)
      requires Valid() && state.WellFormed()
      modifies this`sourceStates
      ensures Valid()
      ensures self == this && sourceStates == InsertState(old(sourceStates), state)
    {
      sourceStates := InsertState(sourceStates, state);
      return this;
    }

    method Destination(state: State) returns (self: EventBuilder)
      requires Valid() && state.WellFormed()
      modifies this`destinationState
      ensures Valid()
      ensures self == this && destinationState == Some(state)
    {
      destinationState := Some(state);
      return this;
    }

    /** `event_validation`: sets the `shouldFire` hook. */
    method EventValidation(action: Hook) returns (self: EventBuilder)
      requires Valid()
      modifies this`shouldFire
      ensures Valid()
      ensures self == this && shouldFire == Some(action)
    {
      shouldFire := Some(action);
      return this;
    }

    method ActionWillFire(action: Hook) returns (self: EventBuilder)
      requires Valid()
      modifies this`willFire
      ensures Valid()
      ensures self == this && willFire == Some(action)
    {
      willFire := Some(action);
      return this;
    }

    method ActionDidFire(action: Hook) returns (self: EventBuilder)
      requires Valid()
      modifies this`didFire
      ensures Valid()
      ensures self == this && didFire == Some(action)
    {
      didFire := Some(action);
      return this;
    }

    /** `build()`: an event from the fields, or `invalid_event` when one of the three is missing. */
    function Build(): (r: Result<Event, KryptonError>)
      reads this
      requires Valid()
      ensures r.Failure? <==> eventName == "" || sourceStates == map[] || destinationState.None?
      ensures r.Failure? ==> r.error == InvalidEvent
      ensures r.Success? ==> r.value.WellFormed()
      ensures r.Success? ==> r.value.name == eventName && r.value.sources == sourceStates
      ensures r.Success? ==> r.value.destination == destinationState.value
      ensures r.Success? ==> r.value.lifeCycle == Some(EventLifeCycle(shouldFire, willFire, didFire))
    {
      if eventName == "" || sourceStates == map[] || destinationState.None? then Failure(InvalidEvent)
      else Success(NewEvent(eventName, sourceStates, destinationState.value, EventLifeCycle(shouldFire, willFire, didFire)))
    }
  }

  /** Adding a source twice, or a second source of the same name, adds it once: the first stays. */
  lemma SourceTwiceOnce(m: StateSet, s: State, t: State)
    requires Keyed(m) && s.WellFormed() && t.WellFormed() && s.Equals(t)
    ensures InsertState(InsertState(m, s), t) == InsertState(m, s)
    ensures |InsertState(InsertState(m, s), t)| == |m| + (if s.name in m then 0 else 1)
  {
  }
}
