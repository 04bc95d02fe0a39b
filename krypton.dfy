/**
 * The state machine: a registry of states and events, unique by name, an
 * activation flag, the initial state and the current state. Firing an event
 * runs a fixed sequence of caller-supplied hooks around the single update of
 * the current state.
 *
 * `Config` is the machine's observable state as a value; its functions say
 * what each operation does. The class `Krypton` holds the same fields,
 * changes them in place, and records every hook it runs in a ghost trace.
 */
module Machine {
  import opened Wrappers
  import opened States
  import opened Events
  import opened Transitions
  import Names

  datatype KryptonError =
    | NotFound
    | NotActivated
    | CannotFire(message: string)
    | Declined(message: string)
    | InvalidState
    | InvalidEvent

  /** The seven hooks, in the order a firing runs them. */
  datatype HookKind = ShouldFire | WillFire | WillExit | WillEnter | DidExit | DidEnter | DidFire
  {
    function Rank(): nat
    {
      match this
      case ShouldFire => 0
      case WillFire => 1
      case WillExit => 2
      case WillEnter => 3
      case DidExit => 4
      case DidEnter => 5
      case DidFire => 6
    }
  }

  /** The first argument a hook receives: the state or the event it belongs to. */
  datatype Subject = OfState(state: State) | OfEvent(event: Event)

  /**
   * One invocation of a hook: which hook, its arguments, and the machine's
   * current state at that moment (what the hook sees through the machine).
   */
  datatype HookCall = HookCall(kind: HookKind, hook: Hook, subject: Subject, transition: Option<Transition>, observed: State)

  /** `state.lifeCycle?.<kind>`. */
  function StateHook(s: State, kind: HookKind): Option<Hook>
  {
    match s.lifeCycle
    case None => None
    case Some(lc) =>
      match kind
      case WillEnter => lc.willEnter
      case DidEnter => lc.didEnter
      case WillExit => lc.willExit
      case DidExit => lc.didExit
      case _ => None
  }

  /** `event.lifeCycle?.<kind>`. */
  function EventHook(e: Event, kind: HookKind): Option<Hook>
  {
    match e.lifeCycle
    case None => None
    case Some(lc) =>
      match kind
      case ShouldFire => lc.shouldFire
      case WillFire => lc.willFire
      case DidFire => lc.didFire
      case _ => None
  }

  /** The call an optional hook makes: one when it is present, none when it is absent. */
  function CallIf(kind: HookKind, hook: Option<Hook>, subject: Subject, transition: Option<Transition>, observed: State): (calls: seq<HookCall>)
    ensures hook.None? <==> calls == []
    ensures hook.Some? ==> calls == [HookCall(kind, hook.value, subject, transition, observed)]
  {
    if hook.Some? then [HookCall(kind, hook.value, subject, transition, observed)] else []
  }

  /**
   * The six hooks run once a firing is allowed: the three "will" hooks while
   * the machine is still in `from`, then the three "did" hooks once it is in `to`.
   */
  function FiringCalls(e: Event, t: Transition, from: State, to: State): seq<HookCall>
  {
    WillCalls(e, t, from, to) + DidCalls(e, t, from, to)
  }

  function WillCalls(e: Event, t: Transition, from: State, to: State): seq<HookCall>
  {
    CallIf(WillFire, EventHook(e, WillFire), OfEvent(e), Some(t), from)
      + CallIf(WillExit, StateHook(from, WillExit), OfState(from), Some(t), from)
      + CallIf(WillEnter, StateHook(to, WillEnter), OfState(to), Some(t), from)
  }

  function DidCalls(e: Event, t: Transition, from: State, to: State): seq<HookCall>
  {
    CallIf(DidExit, StateHook(from, DidExit), OfState(from), Some(t), to)
      + CallIf(DidEnter, StateHook(to, DidEnter), OfState(to), Some(t), to)
      + CallIf(DidFire, EventHook(e, DidFire), OfEvent(e), Some(t), to)
  }

  lemma AppendAssoc(a: seq<HookCall>, b: seq<HookCall>, c: seq<HookCall>)
    ensures a + b + c == a + (b + c)
  {
  }

  lemma AppendThree(a: seq<HookCall>, b: seq<HookCall>, c: seq<HookCall>, d: seq<HookCall>)
    ensures a + b + c + d == a + (b + c + d)
    ensures a + b + c + d == a + (b + (c + d))
  {
  }

  /** The current state of a machine that has not been activated yet. */
  const StartingState: State := State("Starting-State", None, Some(NoHooks))

  /** The `cannotFire` message, up to the rendering of the source set that ends it. */
  function CannotFireMessage(e: Event, current: State): string
  {
    "An attempt was made to fire the `" + e.name + "` event while in the `" + current.name
      + "` state. This event can only be fired from the following states: "
  }

  function DeclinedMessage(e: Event): string
  {
    "An attempt to fire the `" + e.name + "` event was declined because `shouldFire` method returned `false`."
  }

  /** What `activate` leaves behind and the hooks it runs. */
  datatype Activation = Activation(next: Config, calls: seq<HookCall>)

  /** What `fire` returns, leaves behind, and the hooks it runs. */
  datatype FireOutcome = FireOutcome(result: Result<bool, KryptonError>, next: Config, calls: seq<HookCall>)

  /** A drawn edge of the graph: from a source, to a destination, labelled by the event. */
  datatype Edge = Edge(source: string, destination: string, eventName: string)

  datatype Config = Config(states: StateSet, events: EventSet, isActive: bool, initialState: State, currentState: State)
  {
    /** Registries keyed by name, and only states and events that construction allows. */
    ghost predicate Valid()
    {
      Keyed(states) && KeyedEvents(events) && initialState.WellFormed() && currentState.WellFormed()
    }

    /** `state(named:)`: the first registered state with that name. */
    function StateNamed(name: string): (r: Result<State, KryptonError>)
      requires Keyed(states)
      ensures r.Success? <==> exists s :: s in states.Values && s.name == name
      ensures r.Success? ==> r.value in states.Values && r.value.name == name
      ensures r.Failure? ==> r.error == NotFound
    {
      if name in states then Success(states[name])
      else
        assert forall s :: s in states.Values ==> s == states[s.name];
        Failure(NotFound)
    }

    /** `event(named:)`: the first registered event with that name. */
    function EventNamed(name: string): (r: Result<Event, KryptonError>)
      requires KeyedEvents(events)
      ensures r.Success? <==> exists e :: e in events.Values && e.name == name
      ensures r.Success? ==> r.value in events.Values && r.value.name == name
      ensures r.Failure? ==> r.error == NotFound
    {
      if name in events then Success(events[name])
      else
        assert forall e :: e in events.Values ==> e == events[e.name];
        Failure(NotFound)
    }

    /** `isIn(state:)`: state equality, which compares names. */
    function IsIn(s: State): (b: bool)
      ensures b <==> currentState.name == s.name
    {
      currentState.Equals(s)
    }

    /**
     * `canFire(event:)`: no sources, or the current state is one of them,
     * where set membership compares states by name.
     */
    function CanFire(e: Event): (b: bool)
      ensures e.sources == map[] ==> b
      ensures Keyed(e.sources) ==> (b <==> e.sources == map[] || exists s :: s in e.sources.Values && s.Equals(currentState))
    {
      if currentState.name in e.sources then
        assert e.sources[currentState.name] in e.sources.Values;
        true
      else
        e.sources == map[]
    }

    /** `add(state:)`: ignored once active; a registered name keeps its first state. */
    function AddState(s: State): (c: Config)
      requires Valid() && s.WellFormed()
      ensures c.Valid()
      ensures c == this.(states := c.states)
      ensures isActive ==> c.states == states
      ensures !isActive ==> c.states.Keys == states.Keys + {s.name}
      ensures forall k :: k in states ==> c.states[k] == states[k]
      ensures !isActive && s.name !in states ==> c.states[s.name] == s
    {
      if isActive then this
      else if StateNamed(s.name).Failure? then this.(states := InsertState(states, s))
      else this
    }

    /** `add(newStates:)`: every state of the set added in turn. */
    function AddStates(newStates: StateSet): (c: Config)
      requires Valid() && Keyed(newStates)
      ensures c.Valid()
      ensures c == this.(states := c.states)
      ensures isActive ==> c.states == states
      ensures !isActive ==> c.states.Keys == states.Keys + newStates.Keys
      ensures forall k :: k in states ==> c.states[k] == states[k]
      ensures !isActive ==> forall k :: k in newStates && k !in states ==> c.states[k] == newStates[k]
    {
      if isActive || newStates == map[] then this
      else this.(states := Names.Merge(states, newStates))
    }

    /** `add(event:)`: ignored once active; a registered name keeps its first event. */
    function AddEvent(e: Event): (c: Config)
      requires Valid() && e.WellFormed()
      ensures c.Valid()
      ensures c == this.(events := c.events)
      ensures isActive ==> c.events == events
      ensures !isActive ==> c.events.Keys == events.Keys + {e.name}
      ensures forall k :: k in events ==> c.events[k] == events[k]
      ensures !isActive && e.name !in events ==> c.events[e.name] == e
    {
      if isActive then this
      else if EventNamed(e.name).Failure? then this.(events := InsertEvent(events, e))
      else this
    }

    /** `add(newEvents:)`: every event of the set added in turn. */
    function AddEvents(newEvents: EventSet): (c: Config)
      requires Valid() && KeyedEvents(newEvents)
      ensures c.Valid()
      ensures c == this.(events := c.events)
      ensures isActive ==> c.events == events
      ensures !isActive ==> c.events.Keys == events.Keys + newEvents.Keys
      ensures forall k :: k in events ==> c.events[k] == events[k]
      ensures !isActive ==> forall k :: k in newEvents && k !in events ==> c.events[k] == newEvents[k]
    {
      if isActive then this
      else this.(events := Names.Merge(events, newEvents))
    }

    /**
     * `activate()`: the first call switches the machine on and moves it to
     * the initial state, running its `willEnter` before the move and its
     * `didEnter` after it; later calls do nothing.
     */
    function Activate(): (a: Activation)
      requires Valid()
      ensures a.next.Valid() && a.next.isActive
      ensures isActive ==> a == Activation(this, [])
      ensures !isActive ==> a.next == this.(isActive := true, currentState := initialState)
    {
      if isActive then Activation(this, [])
      else
        Activation(
          this.(isActive := true, currentState := initialState),
          CallIf(WillEnter, StateHook(initialState, WillEnter), OfState(initialState), None, currentState)
            + CallIf(DidEnter, StateHook(initialState, DidEnter), OfState(initialState), None, initialState))
    }

    /**
     * `fire(event:userInfo:)`, where `approve` is what the event's
     * `shouldFire` hook answers when it is asked.
     */
    function Fire(e: Event, userInfo: Payload, approve: bool): (o: FireOutcome)
      requires Valid() && e.WellFormed()
      ensures o.next.Valid()
      ensures !isActive ==> o == FireOutcome(Failure(NotActivated), this, [])
      ensures isActive && !CanFire(e) ==> o == FireOutcome(Failure(CannotFire(CannotFireMessage(e, currentState))), this, [])
      ensures isActive && CanFire(e) && EventHook(e, ShouldFire).Some? && !approve ==>
        o.result == Failure(Declined(DeclinedMessage(e)))
      ensures o.result.Failure? ==> o.next == this
      ensures o.result.Success? ==> o.result.value && o.next == this.(currentState := e.destination)
      ensures o.result.Success? <==> isActive && CanFire(e) && (EventHook(e, ShouldFire).None? || approve)
    {
      if !isActive then FireOutcome(Failure(NotActivated), this, [])
      else if !CanFire(e) then FireOutcome(Failure(CannotFire(CannotFireMessage(e, currentState))), this, [])
      else
        var t := NewTransition(e, currentState, Some(userInfo));
        var gate := CallIf(ShouldFire, EventHook(e, ShouldFire), OfEvent(e), Some(t), currentState);
        if EventHook(e, ShouldFire).Some? && !approve then
          FireOutcome(Failure(Declined(DeclinedMessage(e))), this, gate)
        else
          FireOutcome(Success(true), this.(currentState := e.destination), gate + FiringCalls(e, t, currentState, e.destination))
    }

    /** One edge per registered event and each of its sources. */
    ghost function EdgeSet(): set<Edge>
    {
      EdgesOf(events, events.Keys)
    }
  }

  /** The edges of the events named in `names`. */
  ghost function EdgesOf(events: EventSet, names: set<string>): set<Edge>
  {
    set n, s | n in names && n in events && s in events[n].sources :: Edge(s, events[n].destination.name, n)
  }

  /** The opening of the graph: the invisible entry arrow and the bold current state. */
  function DotHeader(initial: string, current: string): string
  {
    "digraph StateMachine {\n"
      + "  \"\" [style=\"invis\"]; \"\" -> \"" + initial + "\" [dir=both, arrowtail=dot]; // Initial State\n"
      + "  \"" + current + "\" [style=bold]; // Current State\n"
  }

  function EdgeLine(edge: Edge): string
  {
    "  \"" + edge.source + "\" -> \"" + edge.destination + "\" [label=\"" + edge.eventName
      + "\", fontname=\"Menlo Italic\", fontsize=9];\n"
  }

  function EdgeLines(edges: seq<Edge>): string
  {
    if edges == [] then "" else EdgeLines(edges[..|edges| - 1]) + EdgeLine(edges[|edges| - 1])
  }

  /** `edges` lists every member of `s` exactly once, in some order. */
  ghost predicate Enumerates(edges: seq<Edge>, s: set<Edge>)
  {
    (forall i, j :: 0 <= i < j < |edges| ==> edges[i] != edges[j])
      && (set i | 0 <= i < |edges| :: edges[i]) == s
  }

  /** The edges of event `n` from the sources named in `srcs`. */
  ghost function EventEdges(events: EventSet, n: string, srcs: set<string>): set<Edge>
    requires n in events
  {
    set s | s in srcs :: Edge(s, events[n].destination.name, n)
  }

  lemma EdgesOfOneMore(events: EventSet, names: set<string>, n: string)
    requires n in events
    ensures EdgesOf(events, names + {n}) == EdgesOf(events, names) + EventEdges(events, n, events[n].sources.Keys)
  {
  }

  /** Drawing the edges of one more source of event `name`, the sources not `pending` being drawn already. */
  lemma SourceDrawn(events: EventSet, name: string, pending: set<string>, drawn: seq<Edge>, source: string)
    requires name in events && pending <= events[name].sources.Keys && source in pending
    requires Enumerates(drawn, EventEdges(events, name, events[name].sources.Keys - pending))
    ensures var edge := Edge(source, events[name].destination.name, name);
      Enumerates(drawn + [edge], EventEdges(events, name, events[name].sources.Keys - (pending - {source})))
      && EdgeLines(drawn + [edge]) == EdgeLines(drawn) + EdgeLine(edge)
  {
    var done := events[name].sources.Keys - pending;
    var edge := Edge(source, events[name].destination.name, name);
    assert events[name].sources.Keys - (pending - {source}) == done + {source};
    assert edge !in EventEdges(events, name, done);
    EnumeratesOneMore(drawn, EventEdges(events, name, done), edge);
    EdgeLinesOneMore(drawn, edge);
    assert EventEdges(events, name, done + {source}) == EventEdges(events, name, done) + {edge};
  }

  /** Drawing the edges of one more event, the events not `pending` being drawn already. */
  lemma EventDrawn(events: EventSet, pending: set<string>, name: string, edges: seq<Edge>, drawn: seq<Edge>)
    requires pending <= events.Keys && name in pending
    requires Enumerates(edges, EdgesOf(events, events.Keys - pending))
    requires Enumerates(drawn, EventEdges(events, name, events[name].sources.Keys))
    ensures Enumerates(edges + drawn, EdgesOf(events, events.Keys - (pending - {name})))
    ensures EdgeLines(edges + drawn) == EdgeLines(edges) + EdgeLines(drawn)
  {
    var visited := events.Keys - pending;
    assert events.Keys - (pending - {name}) == visited + {name};
    DisjointLabels(events, visited, name);
    EnumeratesConcat(edges, EdgesOf(events, visited), drawn, EventEdges(events, name, events[name].sources.Keys));
    EdgeLinesConcat(edges, drawn);
    EdgesOfOneMore(events, visited, name);
  }

  /** The edges of an event not yet visited share no member with the edges drawn so far. */
  lemma DisjointLabels(events: EventSet, names: set<string>, n: string)
    requires n in events && n !in names
    ensures EdgesOf(events, names) !! EventEdges(events, n, events[n].sources.Keys)
  {
    assert forall x :: x in EdgesOf(events, names) ==> x.eventName in names;
  }

  lemma EnumeratesConcat(a: seq<Edge>, s: set<Edge>, b: seq<Edge>, t: set<Edge>)
    requires Enumerates(a, s) && Enumerates(b, t) && s !! t
    ensures Enumerates(a + b, s + t)
  {
    var ab := a + b;
    assert forall i :: 0 <= i < |a| ==> ab[i] == a[i] && ab[i] in s;
    assert forall i :: |a| <= i < |ab| ==> ab[i] == b[i - |a|] && ab[i] in t;
    assert (set i | 0 <= i < |ab| :: ab[i]) == s + t by {
      forall x | x in s + t
        ensures x in (set i | 0 <= i < |ab| :: ab[i])
      {
        if x in s {
          var i :| 0 <= i < |a| && a[i] == x;
          assert ab[i] == x;
        } else {
          var i :| 0 <= i < |b| && b[i] == x;
          assert ab[|a| + i] == x;
        }
      }
    }
  }

  lemma {:induction false} EdgeLinesConcat(a: seq<Edge>, b: seq<Edge>)
    ensures EdgeLines(a + b) == EdgeLines(a) + EdgeLines(b)
  {
    if b == [] {
      assert a + b == a;
    } else {
      var init, last := b[..|b| - 1], b[|b| - 1];
      assert b == init + [last];
      assert a + b == (a + init) + [last];
      EdgeLinesConcat(a, init);
      EdgeLinesOneMore(a + init, last);
      EdgeLinesOneMore(init, last);
      TextAssoc(EdgeLines(a), EdgeLines(init), EdgeLine(last));
    }
  }

  lemma TextAssoc(x: string, y: string, z: string)
    ensures x + y + z == x + (y + z)
  {
  }

  lemma EnumeratesOneMore(edges: seq<Edge>, s: set<Edge>, x: Edge)
    requires Enumerates(edges, s) && x !in s
    ensures Enumerates(edges + [x], s + {x})
  {
    var es := edges + [x];
    assert forall i :: 0 <= i < |edges| ==> es[i] == edges[i];
    assert (set i | 0 <= i < |es| :: es[i]) == (set i | 0 <= i < |edges| :: edges[i]) + {x} by {
      assert es[|edges|] == x;
    }
  }

  lemma EdgeLinesOneMore(edges: seq<Edge>, x: Edge)
    ensures EdgeLines(edges + [x]) == EdgeLines(edges) + EdgeLine(x)
  {
    assert (edges + [x])[..|edges|] == edges;
  }

  /** Listing a set without repeats takes exactly as many entries as it has members. */
  lemma {:induction false} EnumeratesCount(edges: seq<Edge>, s: set<Edge>)
    requires Enumerates(edges, s)
    ensures |edges| == |s|
  {
    if edges != [] {
      EnumeratesTail(edges, s);
      EnumeratesCount(edges[1..], s - {edges[0]});
    }
  }

  /** Without its first edge, a list enumerates the set without that edge. */
  lemma EnumeratesTail(edges: seq<Edge>, s: set<Edge>)
    requires Enumerates(edges, s) && edges != []
    ensures edges[0] in s && Enumerates(edges[1..], s - {edges[0]})
  {
    var rest := edges[1..];
    assert forall i :: 0 <= i < |rest| ==> rest[i] == edges[i + 1];
    var whole := set i | 0 <= i < |edges| :: edges[i];
    var tail := set i | 0 <= i < |rest| :: rest[i];
    forall x | x in whole
      ensures x in tail + {edges[0]}
    {
      var i :| 0 <= i < |edges| && edges[i] == x;
      if i > 0 {
        assert rest[i - 1] == x;
      }
    }
    assert whole == tail + {edges[0]};
    assert edges[0] !in tail;
  }

  /** One more state of `newStates` added to a machine that holds `base` merged with those not `pending`. */
  lemma AddStateMerges(c: Config, base: StateSet, newStates: StateSet, pending: set<string>, k: string)
    requires c.Valid() && !c.isActive && Keyed(newStates) && k in pending && pending <= newStates.Keys
    requires c.states == Names.Merge(base, Names.Restrict(newStates, newStates.Keys - pending))
    ensures c.AddState(newStates[k]) == c.(states := Names.Merge(base, Names.Restrict(newStates, newStates.Keys - (pending - {k}))))
  {
    var done := newStates.Keys - pending;
    assert newStates.Keys - (pending - {k}) == done + {k};
    Names.MergeOneMore(base, newStates, done, k);
  }

  /** One more event of `newEvents` added to a machine that holds `base` merged with those not `pending`. */
  lemma AddEventMerges(c: Config, base: EventSet, newEvents: EventSet, pending: set<string>, k: string)
    requires c.Valid() && !c.isActive && KeyedEvents(newEvents) && k in pending && pending <= newEvents.Keys
    requires c.events == Names.Merge(base, Names.Restrict(newEvents, newEvents.Keys - pending))
    ensures c.AddEvent(newEvents[k]) == c.(events := Names.Merge(base, Names.Restrict(newEvents, newEvents.Keys - (pending - {k}))))
  {
    var done := newEvents.Keys - pending;
    assert newEvents.Keys - (pending - {k}) == done + {k};
    Names.MergeOneMore(base, newEvents, done, k);
  }

  /** The outer loop of `dotDescription`: the edge lines of every event, one event after the other. */
  method AllEdgeLines(events: EventSet) returns (lines: string, ghost edges: seq<Edge>)
    requires KeyedEvents(events)
    ensures Enumerates(edges, EdgesOf(events, events.Keys))
    ensures lines == EdgeLines(edges)
    ensures EdgesOf(events, events.Keys) == {} ==> lines == ""
  {
    lines := "";
    edges := [];
    var pending := events.Keys;
    while pending != {}
      invariant pending <= events.Keys
      invariant Enumerates(edges, EdgesOf(events, events.Keys - pending))
      invariant lines == EdgeLines(edges)
      decreases pending
    {
      var name :| name in pending;
      var more, drawn := EventEdgeLines(events, name);
      EventDrawn(events, pending, name, edges, drawn);
      lines := lines + more;
      edges := edges + drawn;
      pending := pending - {name};
    }
    assert events.Keys - pending == events.Keys;
    EnumeratesCount(edges, EdgesOf(events, events.Keys));
  }

  /** The inner loop of `dotDescription`: one edge line per source of the event `name`. */
  method EventEdgeLines(events: EventSet, name: string) returns (lines: string, ghost drawn: seq<Edge>)
    requires KeyedEvents(events) && name in events
    ensures Enumerates(drawn, EventEdges(events, name, events[name].sources.Keys))
    ensures lines == EdgeLines(drawn)
    ensures events[name].sources == map[] ==> lines == ""
  {
    var event := events[name];
    assert event.name == name && Keyed(event.sources);
    lines := "";
    drawn := [];
    var sources := event.sources.Keys;
    while sources != {}
      invariant sources <= event.sources.Keys
      invariant Enumerates(drawn, EventEdges(events, name, event.sources.Keys - sources))
      invariant lines == EdgeLines(drawn)
      invariant event.sources == map[] ==> lines == ""
      decreases sources
    {
      var source :| source in sources;
      var edge := Edge(event.sources[source].name, event.destination.name, event.name);
      assert edge == Edge(source, events[name].destination.name, name);
      SourceDrawn(events, name, sources, drawn, source);
      lines := lines + EdgeLine(edge);
      drawn := drawn + [edge];
      sources := sources - {source};
    }
    assert event.sources.Keys - sources == event.sources.Keys;
  }

  class Krypton {
    var states: StateSet
    var events: EventSet
    var isActive: bool
    var initialState: State
    var currentState: State
    /** Every hook run so far, oldest first. */
    ghost var trace: seq<HookCall>

    function Snapshot(): Config
      reads this
    {
      Config(states, events, isActive, initialState, currentState)
    }

    ghost predicate Valid()
      reads this
    {
      Snapshot().Valid()
    }

    /** `init(initialState:)`: inactive, empty, parked on the placeholder state. */
    constructor(initialState: State)
      requires initialState.WellFormed()
      ensures Valid()
      ensures Snapshot() == Config(map[], map[], false, initialState, StartingState)
      ensures trace == []
    {
      this.initialState := initialState;
      states := map[];
      events := map[];
      isActive := false;
      currentState := StartingState;
      trace := [];
    }

    method AddState(s: State)
      requires Valid() && s.WellFormed()
      modifies this`states
      ensures Valid()
      ensures Snapshot() == old(Snapshot()).AddState(s)
    {
      if isActive {
        return;
      }
      if Snapshot().StateNamed(s.name).Failure? {
        states := InsertState(states, s);
      }
    }

    /** Adds the states of the set one at a time, in no particular order. */
    method AddStates(newStates: StateSet)
      requires Valid() && Keyed(newStates)
      modifies this`states
      ensures Valid()
      ensures Snapshot() == old(Snapshot()).AddStates(newStates)
    {
      if isActive || newStates == map[] {
        return;
      }
      var pending := newStates.Keys;
      while pending != {}
        invariant pending <= newStates.Keys
        invariant Valid() && !isActive
        invariant states == Names.Merge(old(states), Names.Restrict(newStates, newStates.Keys - pending))
        decreases pending
      {
        var k :| k in pending;
        AddStateMerges(Snapshot(), old(states), newStates, pending, k);
        AddState(newStates[k]);
        pending := pending - {k};
      }
      assert newStates.Keys - pending == newStates.Keys;
      Names.RestrictAll(newStates);
    }

    method AddEvent(e: Event)
      requires Valid() && e.WellFormed()
      modifies this`events
      ensures Valid()
      ensures Snapshot() == old(Snapshot()).AddEvent(e)
    {
      if isActive {
        return;
      }
      if Snapshot().EventNamed(e.name).Failure? {
        events := InsertEvent(events, e);
      }
    }

    /** Adds the events of the set one at a time, in no particular order. */
    method AddEvents(newEvents: EventSet)
      requires Valid() && KeyedEvents(newEvents)
      modifies this`events
      ensures Valid()
      ensures Snapshot() == old(Snapshot()).AddEvents(newEvents)
    {
      if isActive {
        return;
      }
      var pending := newEvents.Keys;
      while pending != {}
        invariant pending <= newEvents.Keys
        invariant Valid() && !isActive
        invariant events == Names.Merge(old(events), Names.Restrict(newEvents, newEvents.Keys - pending))
        decreases pending
      {
        var k :| k in pending;
        AddEventMerges(Snapshot(), old(events), newEvents, pending, k);
        AddEvent(newEvents[k]);
        pending := pending - {k};
      }
      assert newEvents.Keys - pending == newEvents.Keys;
      Names.RestrictAll(newEvents);
    }

    /** `stateLifeCycle(state:transition:block:)`: runs the state's hook if it has one. */
    ghost method StateLifeCycle(kind: HookKind, s: State, transition: Option<Transition>)
      modifies this`trace
      ensures trace == old(trace) + CallIf(kind, StateHook(s, kind), OfState(s), transition, currentState)
    {
      var hook := StateHook(s, kind);
      if hook.Some? {
        trace := trace + [HookCall(kind, hook.value, OfState(s), transition, currentState)];
      }
    }

    /** `eventLifeCycle(event:transition:block:)`: runs the event's hook if it has one. */
    ghost method EventLifeCycle(kind: HookKind, e: Event, transition: Transition)
      modifies this`trace
      ensures trace == old(trace) + CallIf(kind, EventHook(e, kind), OfEvent(e), Some(transition), currentState)
    {
      var hook := EventHook(e, kind);
      if hook.Some? {
        trace := trace + [HookCall(kind, hook.value, OfEvent(e), Some(transition), currentState)];
      }
    }

    method Activate()
      requires Valid()
      modifies this`isActive, this`currentState, this`trace
      ensures Valid()
      ensures Snapshot() == old(Snapshot()).Activate().next
      ensures trace == old(trace) + old(Snapshot()).Activate().calls
    {
      if isActive {
        return;
      }
      isActive := true;
      StateLifeCycle(WillEnter, initialState, None);
      currentState := initialState;
      StateLifeCycle(DidEnter, initialState, None);
    }

    /** `approve` is the answer of the event's `shouldFire` hook, if it has one. */
    method Fire(e: Event, userInfo: Payload, approve: bool) returns (r: Result<bool, KryptonError>)
      requires Valid() && e.WellFormed()
      modifies this`currentState, this`trace
      ensures Valid()
      ensures r == old(Snapshot()).Fire(e, userInfo, approve).result
      ensures Snapshot() == old(Snapshot()).Fire(e, userInfo, approve).next
      ensures trace == old(trace) + old(Snapshot()).Fire(e, userInfo, approve).calls
    {
      ghost var outcome := Snapshot().Fire(e, userInfo, approve);
      if !isActive {
        assert outcome.calls == [] && trace + [] == trace;
        return Failure(NotActivated);
      }
      if !Snapshot().CanFire(e) {
        assert outcome.calls == [] && trace + [] == trace;
        return Failure(CannotFire(CannotFireMessage(e, currentState)));
      }
      ghost var before := trace;
      var transition := NewTransition(e, currentState, Some(userInfo));
      ghost var gate := CallIf(ShouldFire, EventHook(e, ShouldFire), OfEvent(e), Some(transition), currentState);
      if EventHook(e, ShouldFire).Some? {
        EventLifeCycle(ShouldFire, e, transition);
        if !approve {
          return Failure(Declined(DeclinedMessage(e)));
        }
      }
      ghost var gated := trace;
      assert gated == before + gate;
      Transit(e, transition);
      AppendAssoc(before, gate, FiringCalls(e, transition, old(currentState), e.destination));
      r := Success(true);
    }

    /**
     * The part of `fire` past its guards: the three "will" hooks, the change
     * of state, then the three "did" hooks.
     */
    method Transit(e: Event, transition: Transition)
      requires Valid() && e.WellFormed()
      modifies this`currentState, this`trace
      ensures Valid()
      ensures Snapshot() == old(Snapshot()).(currentState := e.destination)
      ensures trace == old(trace) + FiringCalls(e, transition, old(currentState), e.destination)
    {
      var from := currentState;
      var to := e.destination;
      ghost var before := trace;
      EventLifeCycle(WillFire, e, transition);
      StateLifeCycle(WillExit, from, Some(transition));
      StateLifeCycle(WillEnter, to, Some(transition));
      AppendThree(before, CallIf(WillFire, EventHook(e, WillFire), OfEvent(e), Some(transition), from),
        CallIf(WillExit, StateHook(from, WillExit), OfState(from), Some(transition), from),
        CallIf(WillEnter, StateHook(to, WillEnter), OfState(to), Some(transition), from));
      assert trace == before + WillCalls(e, transition, from, to);
      currentState := to;
      ghost var settled := trace;
      StateLifeCycle(DidExit, from, Some(transition));
      StateLifeCycle(DidEnter, to, Some(transition));
      EventLifeCycle(DidFire, e, transition);
      AppendThree(settled, CallIf(DidExit, StateHook(from, DidExit), OfState(from), Some(transition), to),
        CallIf(DidEnter, StateHook(to, DidEnter), OfState(to), Some(transition), to),
        CallIf(DidFire, EventHook(e, DidFire), OfEvent(e), Some(transition), to));
      assert trace == settled + DidCalls(e, transition, from, to);
      AppendAssoc(before, WillCalls(e, transition, from, to), DidCalls(e, transition, from, to));
    }
  
    /**
     * `dotDescription`: the graph in Graphviz notation. Events and their
     * sources are visited in no particular order; each (event, source) pair
     * contributes its edge line exactly once.
     */
    method DotDescription() returns (dot: string, ghost edges: seq<Edge>)
      requires Valid()
      ensures Enumerates(edges, Snapshot().EdgeSet())
      ensures dot == DotHeader(initialState.name, currentState.name) + EdgeLines(edges) + "}"
      ensures var header := DotHeader(initialState.name, currentState.name);
        |dot| > |header| && dot[..|header|] == header && dot[|dot| - 1] == '}'
      ensures Snapshot().EdgeSet() == {} ==> dot == DotHeader(initialState.name, currentState.name) + "}"
    {
      var header := DotHeader(initialState.name, currentState.name);
      var lines;
      lines, edges := AllEdgeLines(events);
      dot := header + lines + "}";
      assert dot[..|header|] == header;
    }
  }
}
