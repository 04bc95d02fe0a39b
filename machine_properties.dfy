/**
 * What the machine promises across calls: first registration wins and
 * registration freezes on activation, activation happens once, a firing is
 * refused for exactly three reasons, and an allowed firing runs its hooks in
 * one fixed order around the single change of the current state.
 */
module MachineProperties {
  import opened Wrappers
  import opened States
  import opened Events
  import opened Transitions
  import opened Machine

  /** Each hook of `calls` comes later in a firing than the ones before it. */
  ghost predicate Ordered(calls: seq<HookCall>)
  {
    forall i, j :: 0 <= i < j < |calls| ==> calls[i].kind.Rank() < calls[j].kind.Rank()
  }

  /** The calls of kind `kind` in `calls` are exactly one call of `hook`, or none when it is absent. */
  ghost predicate RunsExactly(calls: seq<HookCall>, kind: HookKind, hook: Option<Hook>)
  {
    (forall c :: c in calls && c.kind == kind ==> hook == Some(c.hook))
      && (hook.Some? ==> exists c :: c in calls && c.kind == kind)
  }

  /** The kinds of `calls`, in order. */
  function Kinds(calls: seq<HookCall>): (ks: seq<HookKind>)
    ensures |ks| == |calls|
    ensures forall i :: 0 <= i < |calls| ==> ks[i] == calls[i].kind
  {
    if calls == [] then [] else [calls[0].kind] + Kinds(calls[1..])
  }

  /** Registered names, registered initial state, and a current state that is registered once active. */
  ghost predicate Closed(c: Config)
  {
    c.initialState.name in c.states
      && (forall n :: n in c.events ==> c.events[n].destination.name in c.states)
      && (c.isActive ==> c.currentState.name in c.states)
  }

  // ----- registration -----

  /** Adding a state twice is adding it once. */
  lemma AddStateIdempotent(c: Config, s: State)
    requires c.Valid() && s.WellFormed()
    ensures c.AddState(s).AddState(s) == c.AddState(s)
  {
  }

  /** A state added to an inactive machine can be looked up; the first one registered under its name is found. */
  lemma AddStateThenLookup(c: Config, s: State)
    requires c.Valid() && s.WellFormed() && !c.isActive
    ensures c.AddState(s).StateNamed(s.name) == Success(if s.name in c.states then c.states[s.name] else s)
  {
  }

  /** Of two states with one name, the machine keeps the first. */
  lemma AddStateFirstWins(c: Config, a: State, b: State)
    requires c.Valid() && a.WellFormed() && b.WellFormed() && !c.isActive
    requires a.Equals(b) && a.name !in c.states
    ensures c.AddState(a).AddState(b).states == c.states[a.name := a]
  {
  }

  /** An event added to an inactive machine can be looked up; the first one registered under its name is found. */
  lemma AddEventThenLookup(c: Config, e: Event)
    requires c.Valid() && e.WellFormed() && !c.isActive
    ensures c.AddEvent(e).EventNamed(e.name) == Success(if e.name in c.events then c.events[e.name] else e)
  {
  }

  /** Once active, no registration changes the machine. */
  lemma FrozenOnceActive(c: Config, s: State, e: Event, ss: StateSet, es: EventSet)
    requires c.Valid() && s.WellFormed() && e.WellFormed() && Keyed(ss) && KeyedEvents(es)
    requires c.isActive
    ensures c.AddState(s) == c && c.AddEvent(e) == c && c.AddStates(ss) == c && c.AddEvents(es) == c
  {
  }

  // ----- queries -----

  /** `canFire` is set membership under state equality, whatever the activation. */
  lemma CanFireIsMembership(c: Config, e: Event, active: bool)
    requires Keyed(e.sources)
    ensures c.CanFire(e) <==> e.sources == map[] || exists s :: s in e.sources.Values && s.Equals(c.currentState)
    ensures c.CanFire(e) == c.(isActive := active).CanFire(e)
  {
    if c.currentState.name in e.sources {
      assert e.sources[c.currentState.name] in e.sources.Values;
    }
  }

  /** `isIn` compares names only. */
  lemma IsInIsByName(c: Config, s: State, t: State)
    requires s.name == t.name
    ensures c.IsIn(s) == c.IsIn(t)
    ensures c.IsIn(s) <==> c.currentState.name == s.name
  {
  }

  // ----- activation -----

  /** A second activation changes nothing and runs no hook. */
  lemma ActivateIdempotent(c: Config)
    requires c.Valid()
    ensures c.Activate().next.Activate() == Activation(c.Activate().next, [])
  {
  }

  /**
   * The first activation runs the initial state's `willEnter` while the
   * machine still shows its previous state, then its `didEnter` once the
   * machine shows the initial state, both without a transition.
   */
  lemma ActivateCalls(c: Config)
    requires c.Valid() && !c.isActive
    ensures var calls := c.Activate().calls;
      && Ordered(calls)
      && RunsExactly(calls, WillEnter, StateHook(c.initialState, WillEnter))
      && RunsExactly(calls, DidEnter, StateHook(c.initialState, DidEnter))
      && (forall call :: call in calls ==> call.kind in {WillEnter, DidEnter})
      && (forall call :: call in calls ==> call.subject == OfState(c.initialState) && call.transition == None)
      && (forall call :: call in calls && call.kind == WillEnter ==> call.observed == c.currentState)
      && (forall call :: call in calls && call.kind == DidEnter ==> call.observed == c.initialState)
  {
    var w := CallIf(WillEnter, StateHook(c.initialState, WillEnter), OfState(c.initialState), None, c.currentState);
    var d := CallIf(DidEnter, StateHook(c.initialState, DidEnter), OfState(c.initialState), None, c.initialState);
    assert c.Activate().calls == w + d;
    OrderedConcat(w, d, DidEnter.Rank());
  }

  // ----- firing -----

  /** A declined firing has run the `shouldFire` hook and nothing else. */
  lemma FireDeclined(c: Config, e: Event, userInfo: Payload)
    requires c.Valid() && e.WellFormed() && c.isActive && c.CanFire(e) && EventHook(e, ShouldFire).Some?
    ensures var o := c.Fire(e, userInfo, false);
      && o.result == Failure(Declined(DeclinedMessage(e)))
      && o.next == c
      && o.calls == [HookCall(ShouldFire, EventHook(e, ShouldFire).value, OfEvent(e),
                              Some(NewTransition(e, c.currentState, Some(userInfo))), c.currentState)]
  {
  }

  /** Refusals leave the machine as it was; only a declined firing has run a hook. */
  lemma FireRefusalChangesNothing(c: Config, e: Event, userInfo: Payload, approve: bool)
    requires c.Valid() && e.WellFormed()
    ensures var o := c.Fire(e, userInfo, approve);
      o.result.Failure? ==> o.next == c && |o.calls| == (if o.result.error.Declined? then 1 else 0)
  {
  }

  /** Two ordered runs, the first below rank `r` and the second from it on, make an ordered run. */
  lemma OrderedConcat(a: seq<HookCall>, b: seq<HookCall>, r: nat)
    requires Ordered(a) && Ordered(b)
    requires forall x :: x in a ==> x.kind.Rank() < r
    requires forall y :: y in b ==> r <= y.kind.Rank()
    ensures Ordered(a + b)
  {
    var ab := a + b;
    forall i, j | 0 <= i < j < |ab|
      ensures ab[i].kind.Rank() < ab[j].kind.Rank()
    {
      if j < |a| {
        assert ab[i] == a[i] && ab[j] == a[j];
      } else if i < |a| {
        assert ab[i] == a[i] && ab[j] == b[j - |a|];
        assert ab[i] in a && ab[j] in b;
      } else {
        assert ab[i] == b[i - |a|] && ab[j] == b[j - |a|];
      }
    }
  }

  /** The calls of an allowed firing are those of the gate and of its six hooks. */
  lemma FiringMembers(gate: seq<HookCall>, e: Event, t: Transition, from: State, to: State, x: HookCall)
    ensures x in gate + FiringCalls(e, t, from, to) <==>
      || x in gate
      || x in CallIf(WillFire, EventHook(e, WillFire), OfEvent(e), Some(t), from)
      || x in CallIf(WillExit, StateHook(from, WillExit), OfState(from), Some(t), from)
      || x in CallIf(WillEnter, StateHook(to, WillEnter), OfState(to), Some(t), from)
      || x in CallIf(DidExit, StateHook(from, DidExit), OfState(from), Some(t), to)
      || x in CallIf(DidEnter, StateHook(to, DidEnter), OfState(to), Some(t), to)
      || x in CallIf(DidFire, EventHook(e, DidFire), OfEvent(e), Some(t), to)
  {
  }

  lemma WillCallsOrdered(e: Event, t: Transition, from: State, to: State)
    ensures Ordered(WillCalls(e, t, from, to))
    ensures forall x :: x in WillCalls(e, t, from, to) ==> 1 <= x.kind.Rank() <= 3
  {
    var c1 := CallIf(WillFire, EventHook(e, WillFire), OfEvent(e), Some(t), from);
    var c2 := CallIf(WillExit, StateHook(from, WillExit), OfState(from), Some(t), from);
    var c3 := CallIf(WillEnter, StateHook(to, WillEnter), OfState(to), Some(t), from);
    OrderedConcat(c1, c2, 2);
    OrderedConcat(c1 + c2, c3, 3);
  }

  lemma DidCallsOrdered(e: Event, t: Transition, from: State, to: State)
    ensures Ordered(DidCalls(e, t, from, to))
    ensures forall x :: x in DidCalls(e, t, from, to) ==> 4 <= x.kind.Rank() <= 6
  {
    var c4 := CallIf(DidExit, StateHook(from, DidExit), OfState(from), Some(t), to);
    var c5 := CallIf(DidEnter, StateHook(to, DidEnter), OfState(to), Some(t), to);
    var c6 := CallIf(DidFire, EventHook(e, DidFire), OfEvent(e), Some(t), to);
    OrderedConcat(c4, c5, 5);
    OrderedConcat(c4 + c5, c6, 6);
  }

  /** The hooks of an allowed firing run in rank order, after the gate. */
  lemma FiringCallsOrdered(gate: seq<HookCall>, e: Event, t: Transition, from: State, to: State)
    requires forall x :: x in gate ==> x.kind == ShouldFire
    requires |gate| <= 1
    ensures Ordered(gate + FiringCalls(e, t, from, to))
  {
    WillCallsOrdered(e, t, from, to);
    DidCallsOrdered(e, t, from, to);
    OrderedConcat(WillCalls(e, t, from, to), DidCalls(e, t, from, to), 4);
    OrderedConcat(gate, FiringCalls(e, t, from, to), 1);
  }

  /** The hooks of an allowed firing run in the order shouldFire, willFire, willExit, willEnter, didExit, didEnter, didFire. */
  lemma FireCallsOrdered(c: Config, e: Event, userInfo: Payload, approve: bool)
    requires c.Valid() && e.WellFormed()
    requires c.Fire(e, userInfo, approve).result.Success?
    ensures Ordered(c.Fire(e, userInfo, approve).calls)
  {
    var t := NewTransition(e, c.currentState, Some(userInfo));
    var gate := CallIf(ShouldFire, EventHook(e, ShouldFire), OfEvent(e), Some(t), c.currentState);
    FiringCallsOrdered(gate, e, t, c.currentState, e.destination);
  }

  /** The calls of an allowed firing, given the gate: each present hook once. */
  lemma FiringCallsHooks(e: Event, t: Transition, from: State, to: State)
    ensures var calls := CallIf(ShouldFire, EventHook(e, ShouldFire), OfEvent(e), Some(t), from) + FiringCalls(e, t, from, to);
      && RunsExactly(calls, ShouldFire, EventHook(e, ShouldFire))
      && RunsExactly(calls, WillFire, EventHook(e, WillFire))
      && RunsExactly(calls, WillExit, StateHook(from, WillExit))
      && RunsExactly(calls, WillEnter, StateHook(to, WillEnter))
      && RunsExactly(calls, DidExit, StateHook(from, DidExit))
      && RunsExactly(calls, DidEnter, StateHook(to, DidEnter))
      && RunsExactly(calls, DidFire, EventHook(e, DidFire))
  {
    var gate := CallIf(ShouldFire, EventHook(e, ShouldFire), OfEvent(e), Some(t), from);
    var calls := gate + FiringCalls(e, t, from, to);
    forall x | x in calls
      ensures x.kind == ShouldFire ==> EventHook(e, ShouldFire) == Some(x.hook)
      ensures x.kind == WillFire ==> EventHook(e, WillFire) == Some(x.hook)
      ensures x.kind == WillExit ==> StateHook(from, WillExit) == Some(x.hook)
      ensures x.kind == WillEnter ==> StateHook(to, WillEnter) == Some(x.hook)
      ensures x.kind == DidExit ==> StateHook(from, DidExit) == Some(x.hook)
      ensures x.kind == DidEnter ==> StateHook(to, DidEnter) == Some(x.hook)
      ensures x.kind == DidFire ==> EventHook(e, DidFire) == Some(x.hook)
    {
      FiringMembers(gate, e, t, from, to, x);
    }
    FiringRuns(gate, e, t, from, to, ShouldFire, EventHook(e, ShouldFire), OfEvent(e), from);
    FiringRuns(gate, e, t, from, to, WillFire, EventHook(e, WillFire), OfEvent(e), from);
    FiringRuns(gate, e, t, from, to, WillExit, StateHook(from, WillExit), OfState(from), from);
    FiringRuns(gate, e, t, from, to, WillEnter, StateHook(to, WillEnter), OfState(to), from);
    FiringRuns(gate, e, t, from, to, DidExit, StateHook(from, DidExit), OfState(from), to);
    FiringRuns(gate, e, t, from, to, DidEnter, StateHook(to, DidEnter), OfState(to), to);
    FiringRuns(gate, e, t, from, to, DidFire, EventHook(e, DidFire), OfEvent(e), to);
  }

  /** A hook present among the pieces of an allowed firing is among its calls. */
  lemma FiringRuns(gate: seq<HookCall>, e: Event, t: Transition, from: State, to: State,
                   kind: HookKind, hook: Option<Hook>, subject: Subject, observed: State)
    requires || CallIf(kind, hook, subject, Some(t), observed) == gate
             || CallIf(kind, hook, subject, Some(t), observed) == CallIf(WillFire, EventHook(e, WillFire), OfEvent(e), Some(t), from)
             || CallIf(kind, hook, subject, Some(t), observed) == CallIf(WillExit, StateHook(from, WillExit), OfState(from), Some(t), from)
             || CallIf(kind, hook, subject, Some(t), observed) == CallIf(WillEnter, StateHook(to, WillEnter), OfState(to), Some(t), from)
             || CallIf(kind, hook, subject, Some(t), observed) == CallIf(DidExit, StateHook(from, DidExit), OfState(from), Some(t), to)
             || CallIf(kind, hook, subject, Some(t), observed) == CallIf(DidEnter, StateHook(to, DidEnter), OfState(to), Some(t), to)
             || CallIf(kind, hook, subject, Some(t), observed) == CallIf(DidFire, EventHook(e, DidFire), OfEvent(e), Some(t), to)
    ensures hook.Some? ==> exists c :: c in gate + FiringCalls(e, t, from, to) && c.kind == kind
  {
    if hook.Some? {
      var w := HookCall(kind, hook.value, subject, Some(t), observed);
      assert w in CallIf(kind, hook, subject, Some(t), observed);
      FiringMembers(gate, e, t, from, to, w);
    }
  }

  /** The arguments of the calls of an allowed firing, given the gate. */
  lemma FiringCallsArguments(e: Event, t: Transition, from: State, to: State)
    ensures forall x :: x in CallIf(ShouldFire, EventHook(e, ShouldFire), OfEvent(e), Some(t), from) + FiringCalls(e, t, from, to) ==>
      && x.transition == Some(t)
      && (x.kind.Rank() <= 3 ==> x.observed == from)
      && (x.kind.Rank() >= 4 ==> x.observed == to)
      && (x.kind in {WillExit, DidExit} ==> x.subject == OfState(from))
      && (x.kind in {WillEnter, DidEnter} ==> x.subject == OfState(to))
      && (x.kind in {ShouldFire, WillFire, DidFire} ==> x.subject == OfEvent(e))
  {
    var gate := CallIf(ShouldFire, EventHook(e, ShouldFire), OfEvent(e), Some(t), from);
    forall x | x in gate + FiringCalls(e, t, from, to)
      ensures x.transition == Some(t)
      ensures x.kind.Rank() <= 3 ==> x.observed == from
      ensures x.kind.Rank() >= 4 ==> x.observed == to
      ensures x.kind in {WillExit, DidExit} ==> x.subject == OfState(from)
      ensures x.kind in {WillEnter, DidEnter} ==> x.subject == OfState(to)
      ensures x.kind in {ShouldFire, WillFire, DidFire} ==> x.subject == OfEvent(e)
    {
      FiringMembers(gate, e, t, from, to, x);
      if x in gate {
        CallIfMember(ShouldFire, EventHook(e, ShouldFire), OfEvent(e), Some(t), from, x);
      } else if x in CallIf(WillFire, EventHook(e, WillFire), OfEvent(e), Some(t), from) {
        CallIfMember(WillFire, EventHook(e, WillFire), OfEvent(e), Some(t), from, x);
      } else if x in CallIf(WillExit, StateHook(from, WillExit), OfState(from), Some(t), from) {
        CallIfMember(WillExit, StateHook(from, WillExit), OfState(from), Some(t), from, x);
      } else if x in CallIf(WillEnter, StateHook(to, WillEnter), OfState(to), Some(t), from) {
        CallIfMember(WillEnter, StateHook(to, WillEnter), OfState(to), Some(t), from, x);
      } else if x in CallIf(DidExit, StateHook(from, DidExit), OfState(from), Some(t), to) {
        CallIfMember(DidExit, StateHook(from, DidExit), OfState(from), Some(t), to, x);
      } else if x in CallIf(DidEnter, StateHook(to, DidEnter), OfState(to), Some(t), to) {
        CallIfMember(DidEnter, StateHook(to, DidEnter), OfState(to), Some(t), to, x);
      } else {
        CallIfMember(DidFire, EventHook(e, DidFire), OfEvent(e), Some(t), to, x);
      }
    }
  }

  /** A call a `CallIf` list holds is the one it describes. */
  lemma CallIfMember(kind: HookKind, hook: Option<Hook>, subject: Subject, transition: Option<Transition>, observed: State, x: HookCall)
    requires x in CallIf(kind, hook, subject, transition, observed)
    ensures x == HookCall(kind, hook.value, subject, transition, observed)
  {
  }

  /** An allowed firing runs each of the seven hooks exactly when it is present. */
  lemma FireCallsHooks(c: Config, e: Event, userInfo: Payload, approve: bool)
    requires c.Valid() && e.WellFormed()
    requires c.Fire(e, userInfo, approve).result.Success?
    ensures var calls, from, to := c.Fire(e, userInfo, approve).calls, c.currentState, e.destination;
      && RunsExactly(calls, ShouldFire, EventHook(e, ShouldFire))
      && RunsExactly(calls, WillFire, EventHook(e, WillFire))
      && RunsExactly(calls, WillExit, StateHook(from, WillExit))
      && RunsExactly(calls, WillEnter, StateHook(to, WillEnter))
      && RunsExactly(calls, DidExit, StateHook(from, DidExit))
      && RunsExactly(calls, DidEnter, StateHook(to, DidEnter))
      && RunsExactly(calls, DidFire, EventHook(e, DidFire))
  {
    FiringCallsHooks(e, NewTransition(e, c.currentState, Some(userInfo)), c.currentState, e.destination);
  }

  /**
   * Every hook of an allowed firing gets the same transition, whose source is
   * the state fired from, and its own state or event; the "will" hooks see
   * the machine still in that state and the "did" hooks see it in the
   * destination.
   */
  lemma FireCallsArguments(c: Config, e: Event, userInfo: Payload, approve: bool)
    requires c.Valid() && e.WellFormed()
    requires c.Fire(e, userInfo, approve).result.Success?
    ensures var calls, from, to := c.Fire(e, userInfo, approve).calls, c.currentState, e.destination;
      && (forall call :: call in calls ==> call.transition == Some(NewTransition(e, from, Some(userInfo))))
      && (forall call :: call in calls && call.kind.Rank() <= 3 ==> call.observed == from)
      && (forall call :: call in calls && call.kind.Rank() >= 4 ==> call.observed == to)
      && (forall call :: call in calls && call.kind in {WillExit, DidExit} ==> call.subject == OfState(from))
      && (forall call :: call in calls && call.kind in {WillEnter, DidEnter} ==> call.subject == OfState(to))
      && (forall call :: call in calls && call.kind in {ShouldFire, WillFire, DidFire} ==> call.subject == OfEvent(e))
  {
    FiringCallsArguments(e, NewTransition(e, c.currentState, Some(userInfo)), c.currentState, e.destination);
  }

  /** With every hook present and approved, a firing runs all seven, in order. */
  lemma FireRunsAllHooks(c: Config, e: Event, userInfo: Payload)
    requires c.Valid() && e.WellFormed() && c.isActive && c.CanFire(e)
    requires forall k :: k in {ShouldFire, WillFire, DidFire} ==> EventHook(e, k).Some?
    requires forall k :: k in {WillExit, DidExit} ==> StateHook(c.currentState, k).Some?
    requires forall k :: k in {WillEnter, DidEnter} ==> StateHook(e.destination, k).Some?
    ensures Kinds(c.Fire(e, userInfo, true).calls) == [ShouldFire, WillFire, WillExit, WillEnter, DidExit, DidEnter, DidFire]
  {
    assert EventHook(e, ShouldFire).Some? && EventHook(e, WillFire).Some? && EventHook(e, DidFire).Some?;
    assert StateHook(c.currentState, WillExit).Some? && StateHook(c.currentState, DidExit).Some?;
    assert StateHook(e.destination, WillEnter).Some? && StateHook(e.destination, DidEnter).Some?;
  }

  /** After an allowed firing the machine is in the event's destination. */
  lemma FireThenIsIn(c: Config, e: Event, userInfo: Payload, approve: bool)
    requires c.Valid() && e.WellFormed()
    requires c.Fire(e, userInfo, approve).result.Success?
    ensures c.Fire(e, userInfo, approve).next.IsIn(e.destination)
    ensures c.Fire(e, userInfo, approve).next.isActive
  {
  }

  // ----- closure: the machine stays among its registered states -----

  lemma ActivateKeepsClosed(c: Config)
    requires c.Valid() && Closed(c)
    ensures Closed(c.Activate().next)
    ensures c.Activate().next.currentState.name in c.states
  {
  }

  /** Firing a registered event never leaves the registered states. */
  lemma FireRegisteredKeepsClosed(c: Config, e: Event, userInfo: Payload, approve: bool)
    requires c.Valid() && e.WellFormed() && Closed(c)
    requires e.name in c.events && c.events[e.name] == e
    ensures Closed(c.Fire(e, userInfo, approve).next)
  {
  }

  lemma AddStateKeepsClosed(c: Config, s: State)
    requires c.Valid() && s.WellFormed() && Closed(c)
    ensures Closed(c.AddState(s))
  {
  }

  lemma AddEventKeepsClosed(c: Config, e: Event)
    requires c.Valid() && e.WellFormed() && Closed(c)
    requires e.destination.name in c.states
    ensures Closed(c.AddEvent(e))
  {
  }

  // ----- the graph -----

  /** An edge is drawn exactly for a registered event and one of its sources. */
  lemma EdgeSetMembers(c: Config, source: string, destination: string, name: string)
    ensures Edge(source, destination, name) in c.EdgeSet()
      <==> name in c.events && source in c.events[name].sources && destination == c.events[name].destination.name
  {
    if name in c.events && source in c.events[name].sources && destination == c.events[name].destination.name {
      assert Edge(source, c.events[name].destination.name, name) in c.EdgeSet();
    }
  }

  /** The graph has one edge line per (event, source) pair. */
  lemma DotEdgeCount(c: Config, edges: seq<Edge>)
    requires Enumerates(edges, c.EdgeSet())
    ensures |edges| == |c.EdgeSet()|
  {
    EnumeratesCount(edges, c.EdgeSet());
  }

  // ----- scenarios -----

  lemma TwoStateKeys(a: State, b: State)
    requires a.WellFormed() && b.WellFormed()
    ensures StateSetOf([a, b]).Keys == {a.name, b.name}
  {
    assert [a, b][0].name == a.name && [a, b][1].name == b.name;
  }

  lemma RegisteredTwice(c: Config, a: State, e: Event)
    requires c.Valid() && !c.isActive && a.WellFormed() && e.WellFormed() && a.name in c.states
    ensures c.AddState(a).AddEvent(e).AddEvent(e).states == c.states
    ensures c.AddState(a).AddEvent(e).AddEvent(e).events.Keys == c.events.Keys + {e.name}
  {
    var c1 := c.AddState(a).AddEvent(e);
    assert c1.AddEvent(e) == c1;
  }

  /**
   * Two states of different names, the first added again by itself, and one
   * event added twice: once activated the machine holds two states and one event.
   */
  lemma RepeatedRegistrationCounts(a: State, b: State, e: Event)
    requires a.WellFormed() && b.WellFormed() && e.WellFormed() && a.name != b.name
    ensures var c := Config(map[], map[], false, a, StartingState)
        .AddStates(StateSetOf([a, b])).AddState(a).AddEvent(e).AddEvent(e).Activate().next;
      |c.states| == 2 && |c.events| == 1 && c.currentState == a
  {
    TwoStateKeys(a, b);
    var c1 := Config(map[], map[], false, a, StartingState).AddStates(StateSetOf([a, b]));
    RegisteredTwice(c1, a, e);
    var c2 := c1.AddState(a).AddEvent(e).AddEvent(e);
    assert |c2.states.Keys| == 2 && |c2.events.Keys| == 1;
  }

  /** Activated first, the machine ignores every state and event added afterwards. */
  lemma NothingAddedAfterActivation(init: State, ss: StateSet, s: State, e: Event, es: EventSet)
    requires init.WellFormed() && Keyed(ss) && s.WellFormed() && e.WellFormed() && KeyedEvents(es)
    ensures var c := Config(map[], map[], false, init, StartingState).Activate().next
        .AddStates(ss).AddState(s).AddEvent(e).AddEvents(es);
      c.states == map[] && c.events == map[] && c.isActive && c.currentState == init
  {
  }
}
