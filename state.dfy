/**
 * A state of the machine: an immutable named node with an optional payload
 * and four optional lifecycle hooks. Its identity is its name alone.
 */
module States {
  import opened Wrappers
  import Names

  /** A value stored in a payload; its Swift type is `Any`, opaque to the engine. */
  type PayloadValue(==)

  /** The caller's dictionary of context (`[String: Any]`). */
  type Payload = map<string, PayloadValue>

  /** A caller-supplied closure, identified by a token; its body is not modelled. */
  datatype Hook = Hook(id: nat)

  /** The four optional state hooks. */
  datatype LifeCycle = LifeCycle(
    willEnter: Option<Hook>,
    didEnter: Option<Hook>,
    willExit: Option<Hook>,
    didExit: Option<Hook>)

  const NoHooks: LifeCycle := LifeCycle(None, None, None, None)

  datatype State = State(name: string, userInfo: Option<Payload>, lifeCycle: Option<LifeCycle>)
  {
    /** What construction guarantees: the name is not blank. */
    predicate WellFormed()
    {
      name != ""
    }

    /** Swift's `==` on states: names only, whatever the payload and hooks. */
    predicate Equals(other: State)
    {
      name == other.name
    }

    /** What `hash(into:)` feeds to the hasher. */
    function HashKey(): string
    {
      name
    }

    /** Swift's `<` on states. */
    predicate Less(other: State)
    {
      Names.Less(name, other.name)
    }

    function Description(): string
    {
      name
    }

    function RawValue(): string
    {
      name
    }
  }

  /** `State(name:userInfo:lifeCycle:)`; a blank name aborts, so it is required away. */
  function NewState(name: string, userInfo: Option<Payload>, lifeCycle: Option<LifeCycle>): (s: State)
    requires name != ""
    ensures s.WellFormed()
    ensures s.name == name && s.userInfo == userInfo && s.lifeCycle == lifeCycle
  {
    State(name, userInfo, lifeCycle)
  }

  /**
   * `State(rawValue:)`: a state with that name, no payload and no hooks.
   * A blank raw value aborts, so it is required away.
   */
  function FromRawValue(raw: string): (s: Option<State>)
    requires raw != ""
    ensures s.Some? && s.value.WellFormed()
    ensures s.value.RawValue() == raw
    ensures s.value.userInfo == None && s.value.lifeCycle == Some(NoHooks)
  {
    Some(State(raw, None, Some(NoHooks)))
  }

  /** Every state survives the trip through its raw value, up to `==`. */
  lemma RawValueRoundTrip(s: State)
    requires s.WellFormed()
    ensures FromRawValue(s.RawValue()).Some?
    ensures FromRawValue(s.RawValue()).value.Equals(s)
    ensures FromRawValue(s.RawValue()).value.RawValue() == s.Description()
  {
  }

  /** Equal states hash alike; `==` is an equivalence. */
  lemma EqualityIsByName(a: State, b: State, c: State)
    ensures a.Equals(a)
    ensures a.Equals(b) ==> b.Equals(a) && a.HashKey() == b.HashKey()
    ensures a.Equals(b) && b.Equals(c) ==> a.Equals(c)
    ensures a.name == b.name ==> a.Equals(b)
  {
  }

  /** `<` is a strict total order whose incomparable pairs are exactly the `==` pairs. */
  lemma {:induction false} LessIsStrictTotalOrder(a: State, b: State, c: State)
    ensures !a.Less(a)
    ensures a.Less(b) && b.Less(c) ==> a.Less(c)
    ensures a.Less(b) ==> !b.Less(a) && !a.Equals(b)
    ensures a.Less(b) || a.Equals(b) || b.Less(a)
  {
    Names.LessIrreflexive(a.name);
    if a.Less(b) && b.Less(c) {
      Names.LessTransitive(a.name, b.name, c.name);
    }
    if a.Less(b) {
      Names.LessAsymmetric(a.name, b.name);
    }
    Names.LessTrichotomy(a.name, b.name);
  }

  /** A Swift `Set<State>`: at most one member per name, keyed by it. */
  type StateSet = map<string, State>

  ghost predicate Keyed(m: StateSet)
  {
    forall k :: k in m ==> m[k].name == k && m[k].WellFormed()
  }

  /** `Set.insert`: a state whose name is already present leaves the set as it was. */
  function InsertState(m: StateSet, s: State): (r: StateSet)
    requires Keyed(m) && s.WellFormed()
    ensures Keyed(r)
    ensures r.Keys == m.Keys + {s.name}
    ensures forall k :: k in m ==> r[k] == m[k]
    ensures s.name !in m ==> r[s.name] == s
  {
    Names.Insert(m, s.name, s)
  }

  /** No state before position `i` of `xs` has the name of `xs[i]`. */
  ghost predicate FirstOfName(xs: seq<State>, i: int)
    requires 0 <= i < |xs|
  {
    forall j :: 0 <= j < i ==> xs[j].name != xs[i].name
  }

  /**
   * `xs` inserted into `m` one after the other; a state already in `m` keeps
   * its name, and a new name goes to the first state of `xs` that has it.
   */
  function InsertStates(m: StateSet, xs: seq<State>): (r: StateSet)
    requires Keyed(m) && forall i :: 0 <= i < |xs| ==> xs[i].WellFormed()
    ensures Keyed(r)
    ensures r.Keys == m.Keys + set i | 0 <= i < |xs| :: xs[i].name
    ensures forall k :: k in m ==> r[k] == m[k]
    ensures forall i :: 0 <= i < |xs| && xs[i].name !in m && FirstOfName(xs, i) ==> r[xs[i].name] == xs[i]
  {
    if xs == [] then m
    else
      var k := |xs| - 1;
      var init := xs[..k];
      var prev := InsertStates(m, init);
      FirstWinsOneMore(m, xs, k, prev);
      InsertState(prev, xs[k])
  }

  /** The names of `xs` are those of all but its last state, and the last one's. */
  lemma StateNamesOneMore(xs: seq<State>, k: nat)
    requires |xs| == k + 1
    ensures (set i | 0 <= i < |xs| :: xs[i].name) == (set i | 0 <= i < k :: xs[..k][i].name) + {xs[k].name}
  {
    var init := xs[..k];
    assert forall i :: 0 <= i < |init| ==> init[i] == xs[i];
  }

  /** The first state of each new name keeps winning when state `k`, the last, is inserted. */
  lemma FirstWinsOneMore(m: StateSet, xs: seq<State>, k: nat, prev: StateSet)
    requires |xs| == k + 1 && Keyed(m) && Keyed(prev) && xs[k].WellFormed()
    requires var init := xs[..k];
      && prev.Keys == m.Keys + (set i | 0 <= i < |init| :: init[i].name)
      && forall i :: 0 <= i < |init| && init[i].name !in m && FirstOfName(init, i) ==> prev[init[i].name] == init[i]
    ensures InsertState(prev, xs[k]).Keys == m.Keys + set i | 0 <= i < |xs| :: xs[i].name
    ensures forall i :: 0 <= i < |xs| && xs[i].name !in m && FirstOfName(xs, i) ==> InsertState(prev, xs[k])[xs[i].name] == xs[i]
  {
    var init := xs[..k];
    var r := InsertState(prev, xs[k]);
    StateNamesOneMore(xs, k);
    forall i | 0 <= i < |xs| && xs[i].name !in m && FirstOfName(xs, i)
      ensures r[xs[i].name] == xs[i]
    {
      if i < k {
        assert xs[i] == init[i];
        assert FirstOfName(init, i) by {
          forall j | 0 <= j < i ensures init[j].name != init[i].name {
            assert xs[j] == init[j];
          }
        }
      } else {
        assert xs[k].name !in prev by {
          forall j | 0 <= j < |init| ensures init[j].name != xs[k].name {
            assert xs[j] == init[j];
          }
        }
      }
    }
  }

  /** Inserting the first `i + 1` states is inserting the first `i`, then state `i`. */
  lemma InsertStatesOneMore(m: StateSet, xs: seq<State>, i: nat)
    requires Keyed(m) && i < |xs| && forall j :: 0 <= j < |xs| ==> xs[j].WellFormed()
    ensures InsertStates(m, xs[..i + 1]) == InsertState(InsertStates(m, xs[..i]), xs[i])
  {
    assert xs[..i + 1][..i] == xs[..i];
  }

  /** The set built by inserting `xs` one after the other, as a set literal does. */
  function StateSetOf(xs: seq<State>): (m: StateSet)
    requires forall i :: 0 <= i < |xs| ==> xs[i].WellFormed()
    ensures Keyed(m)
    ensures m.Keys == set i | 0 <= i < |xs| :: xs[i].name
  {
    InsertStates(map[], xs)
  }
}
