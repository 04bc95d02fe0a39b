/**
 * The alarm of the example application: three states sharing one set of
 * state hooks, five events sharing a `willFire` and a `didFire` hook, and
 * "Disarmed" as the initial state. The application looks events up by name
 * before firing them and ignores the errors it gets back.
 */
module Alarm {
  import opened Wrappers
  import opened States
  import opened Events
  import opened Transitions
  import opened Machine
  import Names

  const StateHooks: LifeCycle := LifeCycle(Some(Hook(1)), Some(Hook(2)), Some(Hook(3)), Some(Hook(4)))
  const EventHooks: EventLifeCycle := EventLifeCycle(None, Some(Hook(5)), Some(Hook(6)))

  const Armed: State := State("Armed", None, Some(StateHooks))
  const Disarmed: State := State("Disarmed", None, Some(StateHooks))
  const Ringing: State := State("Alarm", None, Some(StateHooks))

  const Arm: Event := Event("Arm", map["Disarmed" := Disarmed], Armed, Some(EventHooks))
  const Disarm: Event := Event("Disarm", map["Armed" := Armed], Disarmed, Some(EventHooks))
  const Breach: Event := Event("Breach", map["Armed" := Armed], Ringing, Some(EventHooks))
  const Panic: Event := Event("Panic", map["Armed" := Armed], Ringing, Some(EventHooks))
  const Reset: Event := Event("Reset", map["Alarm" := Ringing], Disarmed, Some(EventHooks))

  const AlarmStates: StateSet := map["Armed" := Armed, "Disarmed" := Disarmed, "Alarm" := Ringing]
  const AlarmEvents: EventSet :=
    map["Arm" := Arm, "Disarm" := Disarm, "Reset" := Reset, "Breach" := Breach, "Panic" := Panic]

  /** The registered, not yet activated machine. */
  const Registered: Config := Config(AlarmStates, AlarmEvents, false, Disarmed, StartingState)

  lemma StatesKeyed()
    ensures Keyed(AlarmStates)
  {
    assert AlarmStates.Keys == {"Armed", "Disarmed", "Alarm"};
  }

  lemma EventsKeyed()
    ensures KeyedEvents(AlarmEvents)
  {
    assert Keyed(map["Disarmed" := Disarmed]) && Keyed(map["Armed" := Armed]) && Keyed(map["Alarm" := Ringing]);
    forall k | k in AlarmEvents
      ensures AlarmEvents[k].name == k && AlarmEvents[k].WellFormed()
    {
      if k == "Arm" {
        assert AlarmEvents[k] == Arm;
      } else if k == "Disarm" {
        assert AlarmEvents[k] == Disarm;
      } else if k == "Reset" {
        assert AlarmEvents[k] == Reset;
      } else if k == "Breach" {
        assert AlarmEvents[k] == Breach;
      } else {
        assert AlarmEvents[k] == Panic;
      }
    }
  }

  /** No alarm event has a `shouldFire` gate. */
  lemma Ungated()
    ensures forall k :: k in AlarmEvents ==> EventHook(AlarmEvents[k], ShouldFire).None?
  {
    forall k | k in AlarmEvents
      ensures AlarmEvents[k].lifeCycle == Some(EventHooks)
    {
      if k == "Arm" {
        assert AlarmEvents[k] == Arm;
      } else if k == "Disarm" {
        assert AlarmEvents[k] == Disarm;
      } else if k == "Reset" {
        assert AlarmEvents[k] == Reset;
      } else if k == "Breach" {
        assert AlarmEvents[k] == Breach;
      } else {
        assert AlarmEvents[k] == Panic;
      }
    }
  }

  lemma TableKeyed()
    ensures Keyed(AlarmStates) && KeyedEvents(AlarmEvents)
  {
    StatesKeyed();
    EventsKeyed();
  }

  /** Each event is registered under its own name. */
  lemma EventsByName()
    ensures "Arm" in AlarmEvents && AlarmEvents["Arm"] == Arm
    ensures "Breach" in AlarmEvents && AlarmEvents["Breach"] == Breach
    ensures "Reset" in AlarmEvents && AlarmEvents["Reset"] == Reset
  {
    assert "Breach"[0] != "Disarm"[0] && "Breach"[0] != "Reset"[0] && "Breach"[0] != "Panic"[0];
    assert "Reset"[0] != "Panic"[0] && "Reset"[0] != "Disarm"[0];
  }

  /** `create_fsm`: a new machine given the states, then the events. */
  function Created(): (c: Config)
    ensures c == Registered && c.Valid()
  {
    TableKeyed();
    Names.MergeIntoEmpty(AlarmStates);
    Names.MergeIntoEmpty(AlarmEvents);
    Config(map[], map[], false, Disarmed, StartingState).AddStates(AlarmStates).AddEvents(AlarmEvents)
  }

  /**
   * `process(event:)` on the alarm machine: look the event up, fire it with an
   * empty payload, ignore any error. No alarm event has a `shouldFire` gate,
   * so the outcome does not depend on what a gate would answer.
   */
  function Process(c: Config, name: string): (r: Config)
    requires c.Valid() && c.events == AlarmEvents
    ensures r.Valid() && r == c.(currentState := r.currentState)
    ensures name !in c.events ==> r == c
    ensures name in c.events ==> r == c.Fire(c.events[name], map[], true).next == c.Fire(c.events[name], map[], false).next
  {
    match c.EventNamed(name)
    case Failure(_) => c
    case Success(e) =>
      Ungated();
      c.Fire(e, map[], true).next
  }

  /** `can_trigger(event:)`: the event is registered and may be fired from the current state. */
  function CanTrigger(c: Config, name: string): (b: bool)
    requires c.Valid()
    ensures b <==> name in c.events && c.CanFire(c.events[name])
  {
    match c.EventNamed(name)
    case Failure(_) => false
    case Success(e) => c.CanFire(e)
  }

  /** Activation enters "Disarmed", running its `willEnter` and then its `didEnter`. */
  lemma ActivationEntersDisarmed()
    ensures Created().Activate().next == At(Disarmed)
    ensures |Created().Activate().calls| == 2
    ensures Created().Activate().calls[0].kind == WillEnter && Created().Activate().calls[0].hook == Hook(1)
    ensures Created().Activate().calls[1].kind == DidEnter && Created().Activate().calls[1].hook == Hook(2)
  {
    TableKeyed();
  }

  /** While disarmed, only arming can be triggered, and a breach changes nothing. */
  lemma DisarmedOnlyArms()
    ensures CanTrigger(At(Disarmed), "Arm") && !CanTrigger(At(Disarmed), "Breach") && !CanTrigger(At(Disarmed), "Reset")
    ensures Process(At(Disarmed), "Breach") == At(Disarmed)
  {
    TableKeyed();
    EventsByName();
    assert "Disarmed"[0] != "Armed"[0] && "Disarmed"[0] != "Alarm"[0];
    assert "Armed" in Breach.sources && "Alarm" in Reset.sources;
  }

  /** The active machine parked in `s`. */
  function At(s: State): (c: Config)
    requires s.WellFormed()
    ensures c == Registered.(isActive := true, currentState := s)
    ensures c.Valid()
  {
    TableKeyed();
    Registered.(isActive := true, currentState := s)
  }

  lemma ArmFromDisarmed()
    ensures Process(At(Disarmed), "Arm") == At(Armed)
  {
    TableKeyed();
    EventsByName();
  }

  lemma BreachFromArmed()
    ensures Process(At(Armed), "Breach") == At(Ringing)
  {
    TableKeyed();
    EventsByName();
    assert "Armed" in Breach.sources;
  }

  lemma ResetFromAlarm()
    ensures Process(At(Ringing), "Reset") == At(Disarmed)
  {
    TableKeyed();
    EventsByName();
    assert "Alarm" in Reset.sources;
  }

  /** Arm, breach, reset: the machine goes from "Disarmed" to "Armed" to "Alarm" and back to "Disarmed". */
  lemma ArmBreachReset()
    ensures Process(At(Disarmed), "Arm") == At(Armed)
    ensures Process(Process(At(Disarmed), "Arm"), "Breach") == At(Ringing)
    ensures Process(Process(Process(At(Disarmed), "Arm"), "Breach"), "Reset") == At(Disarmed)
  {
    ArmFromDisarmed();
    BreachFromArmed();
    ResetFromAlarm();
  }

  /**
   * Arming runs the event's `willFire`, "Disarmed"'s `willExit` and "Armed"'s
   * `willEnter` while still disarmed, then "Disarmed"'s `didExit`, "Armed"'s
   * `didEnter` and the event's `didFire` once armed; there is no `shouldFire`
   * to ask.
   */
  lemma ArmRunsSixHooks(userInfo: Payload)
    ensures var t := NewTransition(Arm, Disarmed, Some(userInfo));
      At(Disarmed).Fire(Arm, userInfo, true).calls ==
        [ HookCall(WillFire, Hook(5), OfEvent(Arm), Some(t), Disarmed)
        , HookCall(WillExit, Hook(3), OfState(Disarmed), Some(t), Disarmed)
        , HookCall(WillEnter, Hook(1), OfState(Armed), Some(t), Disarmed)
        , HookCall(DidExit, Hook(4), OfState(Disarmed), Some(t), Armed)
        , HookCall(DidEnter, Hook(2), OfState(Armed), Some(t), Armed)
        , HookCall(DidFire, Hook(6), OfEvent(Arm), Some(t), Armed) ]
  {
    TableKeyed();
    var t := NewTransition(Arm, Disarmed, Some(userInfo));
    assert WillCalls(Arm, t, Disarmed, Armed) ==
      [ HookCall(WillFire, Hook(5), OfEvent(Arm), Some(t), Disarmed)
      , HookCall(WillExit, Hook(3), OfState(Disarmed), Some(t), Disarmed)
      , HookCall(WillEnter, Hook(1), OfState(Armed), Some(t), Disarmed) ];
    assert DidCalls(Arm, t, Disarmed, Armed) ==
      [ HookCall(DidExit, Hook(4), OfState(Disarmed), Some(t), Armed)
      , HookCall(DidEnter, Hook(2), OfState(Armed), Some(t), Armed)
      , HookCall(DidFire, Hook(6), OfEvent(Arm), Some(t), Armed) ];
  }

  /** An unknown event name changes nothing and cannot be triggered. */
  lemma UnknownEventIgnored(c: Config)
    requires c.Valid() && c.events == AlarmEvents
    ensures Process(c, "Snooze") == c && !CanTrigger(c, "Snooze")
  {
  }
}
