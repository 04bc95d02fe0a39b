/**
 * A fluent accumulator for a whole machine: states and events are collected
 * into sets, the initial state is overwritten, and `build` checks that all
 * three were given before creating and filling an inactive machine.
 */
module MachineBuilders {
  import opened Wrappers
  import opened States
  import opened Events
  import opened Machine

  /** The one message `build` fails with. */
  const ValidationFailed: string := "Validtion failed during state machine creation."

  class KryptonBuilder {
    var states: StateSet
    var events: EventSet
    var startingState: Option<State>

    ghost predicate Valid()
      reads this
    {
      Keyed(states) && KeyedEvents(events) && (startingState.Some? ==> startingState.value.WellFormed())
    }

    /** A fresh builder: no states, no events, no initial state. */
    constructor()
      ensures Valid()
      ensures states == map[] && events == map[] && startingState == None
    {
      states := map[];
      events := map[];
      startingState := None;
    }

    /** `state(_:)`: adds a state; a state whose name is already present changes nothing. */
    method AddState(value: State) returns (self: KryptonBuilder)
      requires Valid() && value.WellFormed()
      modifies this`states
      ensures Valid()
      ensures self == this && states == InsertState(old(states), value)
    {
      states := InsertState(states, value);
      return this;
    }

    /** `states(_:)`: adds each of the given states in turn. */
    method AddStates(values: seq<State>) returns (self: KryptonBuilder)
      requires Valid() && forall i :: 0 <= i < |values| ==> values[i].WellFormed()
      modifies this`states
      ensures Valid()
      ensures self == this && states == InsertStates(old(states), values)
    {
      var i := 0;
      while i < |values|
        invariant 0 <= i <= |values|
        invariant Valid()
        invariant states == InsertStates(old(states), values[..i])
      {
        InsertStatesOneMore(old(states), values, i);
        states := InsertState(states, values[i]);
        i := i + 1;
      }
      assert values[..i] == values;
      return this;
    }

    /** `event(_:)`: adds an event; an event whose name is already present changes nothing. */
    method AddEvent(value: Event) returns (self: KryptonBuilder)
      requires Valid() && value.WellFormed()
      modifies this`events
      ensures Valid()
      ensures self == this && events == InsertEvent(old(events), value)
    {
      events := InsertEvent(events, value);
      return this;
    }

    /** `events(_:)`: adds each of the given events in turn. */
    method AddEvents(values: seq<Event>) returns (self: KryptonBuilder)
      requires Valid() && forall i :: 0 <= i < |values| ==> values[i].WellFormed()
      modifies this`events
      ensures Valid()
      ensures self == this && events == InsertEvents(old(events), values)
    {
      var i := 0;
      while i < |values|
        invariant 0 <= i <= |values|
        invariant Valid()
        invariant events == InsertEvents(old(events), values[..i])
      {
        InsertEventsOneMore(old(events), values, i);
        events := InsertEvent(events, values[i]);
        i := i + 1;
      }
      assert values[..i] == values;
      return this;
    }

    /** `initial_state(_:)`. */
    method SetInitialState(value: State) returns (self: KryptonBuilder)
      requires Valid() && value.WellFormed()
      modifies this`startingState
      ensures Valid()
      ensures self == this && startingState == Some(value)
    {
      startingState := Some(value);
      return this;
    }

    /**
     * `build()`: a new inactive machine holding exactly the collected states
     * and events, or `declined` when states, events or the initial state are missing.
     */
    method Build() returns (r: Result<Krypton, KryptonError>)
      requires Valid()
      ensures r.Failure? <==> states == map[] || events == map[] || startingState.None?
      ensures r.Failure? ==> r.error == Declined(ValidationFailed)
      ensures r.Success? ==> fresh(r.value) && r.value.Valid() && r.value.trace == []
      ensures r.Success? ==> r.value.Snapshot() == Config(states, events, false, startingState.value, StartingState)
    {
      if states == map[] || events == map[] || startingState.None? {
        return Failure(Declined(ValidationFailed));
      }
      var fsm := new Krypton(startingState.value);
      fsm.AddStates(states);
      fsm.AddEvents(events);
      assert fsm.states == states;
      assert fsm.events == events;
      return Success(fsm);
    }
  }
}
