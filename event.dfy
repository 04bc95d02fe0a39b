/**
 * An event: an immutable named edge from a set of permitted source states
 * (empty meaning "from anywhere") to one destination, with three optional
 * hooks. Its identity is its name alone.
 */
module Events {
  import opened Wrappers
  import opened States
  import Names

  /** The gate `shouldFire` and the hooks `willFire` and `didFire`. */
  datatype EventLifeCycle = EventLifeCycle(
    shouldFire: Option<Hook>,
    willFire: Option<Hook>,
    didFire: Option<Hook>)

  datatype Event = Event(name: string, sources: StateSet, destination: State, lifeCycle: Option<EventLifeCycle>)
  {
    /** What construction guarantees. */
    ghost predicate WellFormed()
    {
      name != "" && Keyed(sources) && destination.WellFormed()
    }

    /** Swift's `==` on events: names only. */
    predicate Equals(other: Event)
    {
      name == other.name
    }

    /** What `hash(into:)` feeds to the hasher. */
    function HashKey(): string
    {
      name
    }

    /** `description`: walks the sorted sources, appending each name. */
    method Description() returns (d: string)
      requires WellFormed()
      ensures d == DescriptionOf(this)
    {
      var sorted := Names.Sort(sources.Keys);
      Names.SortedCount(sorted);
      assert forall j :: 0 <= j < |sorted| ==> sorted[j] in Names.Elems(sorted);
      var sourceStates := SourceStates(sources, sorted);
      Names.SortedOfIs(sorted, sources.Keys);
      d := "Event `" + name + "` transitions from " + sourceStates + "to `" + destination.name + "`";
    }
  }

  /** `Event(name:sources:destination:lifeCycle:)`; a blank name aborts, so it is required away. */
  function NewEvent(name: string, sources: StateSet, destination: State, lifeCycle: EventLifeCycle): (e: Event)
    requires name != "" && Keyed(sources) && destination.WellFormed()
    ensures e.WellFormed()
    ensures e.name == name && e.sources == sources && e.destination == destination
    ensures e.lifeCycle == Some(lifeCycle)
  {
    Event(name, sources, destination, Some(lifeCycle))
  }

  /** The text that follows the name at `index` among `count` sorted sources. */
  function Piece(sourceName: string, index: nat, count: nat): string
  {
    if count == 1 then sourceName + " "
    else if index == count - 2 then sourceName + ", and "
    else sourceName + ", "
  }

  /** The pieces of the first `n` of the sorted source names `ns`, `count` in all. */
  function SourcePhrase(ns: seq<string>, n: nat, count: nat): string
    requires n <= |ns|
  {
    if n == 0 then "" else SourcePhrase(ns, n - 1, count) + Piece(ns[n - 1], n - 1, count)
  }

  ghost function DescriptionOf(e: Event): string
  {
    "Event `" + e.name + "` transitions from "
      + SourcePhrase(Names.SortedOf(e.sources.Keys), |e.sources|, |e.sources|)
      + "to `" + e.destination.name + "`"
  }

  /**
   * The loop of `description`: the names of `sorted`, each followed by its
   * separator, among `|sources|` sources in all.
   */
  method SourceStates(sources: StateSet, sorted: seq<string>) returns (sourceStates: string)
    requires Keyed(sources) && |sorted| == |sources| && forall j :: 0 <= j < |sorted| ==> sorted[j] in sources
    ensures sourceStates == SourcePhrase(sorted, |sorted|, |sources|)
  {
    var count := |sources|;
    sourceStates := "";
    var i := 0;
    while i < |sorted|
      invariant 0 <= i <= |sorted|
      invariant sourceStates == SourcePhrase(sorted, i, count)
    {
      var sourceName := sources[sorted[i]].name;
      PieceAppended(sorted, i, count, sourceStates);
      sourceStates := Appended(sourceStates, sourceName, i, count);
      i := i + 1;
    }
  }

  /**
   * One step of the loop of `description`: a lone source replaces the text,
   * the second-to-last of several is followed by ", and ", any other by ", ".
   */
  function Appended(sourceStates: string, sourceName: string, index: nat, count: nat): string
  {
    if count == 1 then sourceName + " "
    else if index == count - 2 then sourceStates + (sourceName + ", and ")
    else sourceStates + (sourceName + ", ")
  }

  /** Each step of the loop extends the phrase by the next name's piece. */
  lemma PieceAppended(ns: seq<string>, i: nat, count: nat, before: string)
    requires i < |ns| && i < count && before == SourcePhrase(ns, i, count)
    ensures Appended(before, ns[i], i, count) == SourcePhrase(ns, i + 1, count)
  {
    if count == 1 {
      PhraseOfOne(ns);
    } else if i == count - 2 {
      PhraseAnd(ns, i, count);
    } else {
      PhraseComma(ns, i, count);
    }
  }

  /** With a single source, its piece is the whole phrase. */
  lemma PhraseOfOne(ns: seq<string>)
    requires |ns| >= 1
    ensures ns[0] + " " == SourcePhrase(ns, 1, 1)
  {
    assert SourcePhrase(ns, 1, 1) == SourcePhrase(ns, 0, 1) + Piece(ns[0], 0, 1);
  }

  /** The second-to-last of several names is followed by ", and ". */
  lemma PhraseAnd(ns: seq<string>, i: nat, count: nat)
    requires i < |ns| && count != 1 && i == count - 2
    ensures SourcePhrase(ns, i, count) + (ns[i] + ", and ") == SourcePhrase(ns, i + 1, count)
  {
    assert Piece(ns[i], i, count) == ns[i] + ", and ";
  }

  /** Any other of several names is followed by ", ". */
  lemma PhraseComma(ns: seq<string>, i: nat, count: nat)
    requires i < |ns| && count != 1 && i != count - 2
    ensures SourcePhrase(ns, i, count) + (ns[i] + ", ") == SourcePhrase(ns, i + 1, count)
  {
    assert Piece(ns[i], i, count) == ns[i] + ", ";
  }

  /** Each of the first `n` names followed by ", ". */
  function Commas(ns: seq<string>, n: nat): string
    requires n <= |ns|
  {
    if n == 0 then "" else Commas(ns, n - 1) + ns[n - 1] + ", "
  }

  lemma {:induction false} SourcePhraseBeforeLastTwo(ns: seq<string>, n: nat, count: nat)
    requires n <= |ns| && 2 <= count && n <= count - 2
    ensures SourcePhrase(ns, n, count) == Commas(ns, n)
  {
    if n > 0 {
      SourcePhraseBeforeLastTwo(ns, n - 1, count);
    }
  }

  /** With no sources the source part is empty. */
  lemma DescriptionNoSources(e: Event)
    requires e.sources == map[]
    ensures DescriptionOf(e) == "Event `" + e.name + "` transitions from to `" + e.destination.name + "`"
  {
  }

  /** With one source: "Event `N` transitions from S to `D`". */
  lemma DescriptionOneSource(e: Event, s: string)
    requires e.sources.Keys == {s}
    ensures DescriptionOf(e) == "Event `" + e.name + "` transitions from " + s + " to `" + e.destination.name + "`"
  {
    Names.ElemsSingleton(s);
    Names.SortedOfIs([s], {s});
    assert SourcePhrase([s], 1, 1) == s + " ";
  }

  /**
   * With k + 2 sorted names, every name is followed by ", " except the
   * second-to-last, which is followed by ", and ".
   */
  lemma SourcePhraseSeveral(ns: seq<string>, k: nat)
    requires |ns| == k + 2
    ensures SourcePhrase(ns, k + 2, k + 2) == Commas(ns, k) + (ns[k] + ", and ") + (ns[k + 1] + ", ")
  {
    SourcePhraseBeforeLastTwo(ns, k, k + 2);
    PhraseAnd(ns, k, k + 2);
    PhraseComma(ns, k + 1, k + 2);
  }

  /** The description with k + 2 sources, e.g. "A, B, and C, to `D`". */
  lemma DescriptionSeveralSources(e: Event, k: nat)
    requires |e.sources| == k + 2
    ensures var ns := Names.SortedOf(e.sources.Keys);
      DescriptionOf(e) == "Event `" + e.name + "` transitions from "
        + (Commas(ns, k) + (ns[k] + ", and ") + (ns[k + 1] + ", "))
        + "to `" + e.destination.name + "`"
  {
    SourcePhraseSeveral(Names.SortedOf(e.sources.Keys), k);
  }

  /**
   * Three sources, inserted out of order (C, A, B): the description lists them
   * sorted, "State A, State B, and State C, to `State A`".
   */
  lemma DescriptionThreeSourcesExample(e: Event)
    requires e.name == "Event A" && e.destination.name == "State A"
    requires e.sources.Keys == {"State C", "State A", "State B"}
    ensures DescriptionOf(e)
      == "Event `" + e.name + "` transitions from " + "State A, State B, and State C, " + "to `" + e.destination.name + "`"
  {
    var ns := ["State A", "State B", "State C"];
    ExampleNamesSorted();
    assert Names.Elems(ns) == {ns[0], ns[1], ns[2]};
    Names.SortedOfIs(ns, e.sources.Keys);
    assert |e.sources| == |e.sources.Keys| == 3;
    ExamplePhrase();
  }

  /** Inserting states C, A and B yields exactly their three names as keys. */
  lemma ExampleSourceKeys(a: State, b: State, c: State)
    requires a.WellFormed() && b.WellFormed() && c.WellFormed()
    requires a.name == "State A" && b.name == "State B" && c.name == "State C"
    ensures StateSetOf([c, a, b]).Keys == {"State C", "State A", "State B"}
  {
    var xs := [c, a, b];
    assert StateSetOf(xs).Keys == {xs[0].name, xs[1].name, xs[2].name};
  }

  lemma ExamplePhrase()
    ensures SourcePhrase(["State A", "State B", "State C"], 3, 3) == "State A, State B, and State C, "
  {
    var ns := ["State A", "State B", "State C"];
    SourcePhraseSeveral(ns, 1);
    assert Commas(ns, 1) == "State A, ";
    assert ns[1] + ", and " == "State B, and " && ns[2] + ", " == "State C, ";
    assert "State A, " + "State B, and " + "State C, " == "State A, State B, and State C, ";
  }

  lemma ExampleNamesSorted()
    ensures Names.Sorted(["State A", "State B", "State C"])
  {
    assert "State A" == "State " + "A" && "State B" == "State " + "B" && "State C" == "State " + "C";
    Names.LessAfterPrefix("State ", "A", "B");
    Names.LessAfterPrefix("State ", "A", "C");
    Names.LessAfterPrefix("State ", "B", "C");
  }

  /** The description depends on the names only, not on the order sources were enumerated in. */
  lemma DescriptionDependsOnNamesOnly(e: Event, f: Event)
    requires e.name == f.name && e.destination.name == f.destination.name
    requires e.sources.Keys == f.sources.Keys
    ensures DescriptionOf(e) == DescriptionOf(f)
  {
  }

  /** A Swift `Set<Event>`: at most one member per name, keyed by it. */
  type EventSet = map<string, Event>

  ghost predicate KeyedEvents(m: EventSet)
  {
    forall k :: k in m ==> m[k].name == k && m[k].WellFormed()
  }

  /** `Set.insert`: an event whose name is already present leaves the set as it was. */
  function InsertEvent(m: EventSet, e: Event): (r: EventSet)
    requires KeyedEvents(m) && e.WellFormed()
    ensures KeyedEvents(r)
    ensures r.Keys == m.Keys + {e.name}
    ensures forall k :: k in m ==> r[k] == m[k]
    ensures e.name !in m ==> r[e.name] == e
  {
    Names.Insert(m, e.name, e)
  }

  /** Equal events hash alike; `==` is an equivalence decided by the name alone. */
  lemma EventEqualityIsByName(a: Event, b: Event, c: Event)
    ensures a.Equals(a)
    ensures a.Equals(b) ==> b.Equals(a) && a.HashKey() == b.HashKey()
    ensures a.Equals(b) && b.Equals(c) ==> a.Equals(c)
    ensures a.Equals(b) <==> a.name == b.name
  {
  }

  /** No event before position `i` of `xs` has the name of `xs[i]`. */
  ghost predicate FirstEventOfName(xs: seq<Event>, i: int)
    requires 0 <= i < |xs|
  {
    forall j :: 0 <= j < i ==> xs[j].name != xs[i].name
  }

  /**
   * `xs` inserted into `m` one after the other; an event already in `m` keeps
   * its name, and a new name goes to the first event of `xs` that has it.
   */
  function InsertEvents(m: EventSet, xs: seq<Event>): (r: EventSet)
    requires KeyedEvents(m) && forall i :: 0 <= i < |xs| ==> xs[i].WellFormed()
    ensures KeyedEvents(r)
    ensures r.Keys == m.Keys + set i | 0 <= i < |xs| :: xs[i].name
    ensures forall k :: k in m ==> r[k] == m[k]
    ensures forall i :: 0 <= i < |xs| && xs[i].name !in m && FirstEventOfName(xs, i) ==> r[xs[i].name] == xs[i]
  {
    if xs == [] then m
    else
      var k := |xs| - 1;
      var init := xs[..k];
      var prev := InsertEvents(m, init);
      FirstEventWinsOneMore(m, xs, k, prev);
      InsertEvent(prev, xs[k])
  }

  /** The names of `xs` are those of all but its last event, and the last one's. */
  lemma EventNamesOneMore(xs: seq<Event>, k: nat)
    requires |xs| == k + 1
    ensures (set i | 0 <= i < |xs| :: xs[i].name) == (set i | 0 <= i < k :: xs[..k][i].name) + {xs[k].name}
  {
    var init := xs[..k];
    assert forall i :: 0 <= i < |init| ==> init[i] == xs[i];
  }

  /** The first event of each new name keeps winning when event `k`, the last, is inserted. */
  lemma FirstEventWinsOneMore(m: EventSet, xs: seq<Event>, k: nat, prev: EventSet)
    requires |xs| == k + 1 && KeyedEvents(m) && KeyedEvents(prev) && xs[k].WellFormed()
    requires var init := xs[..k];
      && prev.Keys == m.Keys + (set i | 0 <= i < |init| :: init[i].name)
      && forall i :: 0 <= i < |init| && init[i].name !in m && FirstEventOfName(init, i) ==> prev[init[i].name] == init[i]
    ensures InsertEvent(prev, xs[k]).Keys == m.Keys + set i | 0 <= i < |xs| :: xs[i].name
    ensures forall i :: 0 <= i < |xs| && xs[i].name !in m && FirstEventOfName(xs, i) ==> InsertEvent(prev, xs[k])[xs[i].name] == xs[i]
  {
    var init := xs[..k];
    var r := InsertEvent(prev, xs[k]);
    EventNamesOneMore(xs, k);
    forall i | 0 <= i < |xs| && xs[i].name !in m && FirstEventOfName(xs, i)
      ensures r[xs[i].name] == xs[i]
    {
      if i < k {
        assert xs[i] == init[i];
        assert FirstEventOfName(init, i) by {
          forall j | 0 <= j < i ensures init[j].name != init[i].name {
            assert xs[j] == init[j];
          }
        }
      } else {
        assert xs[k].name !in prev by {
          forall j | 0 <= j < |init| ensures init[j].name != xs[k].name {
            assert xs[j] == init[j];
          }
        }
      }
    }
  }

  /** Inserting the first `i + 1` events is inserting the first `i`, then event `i`. */
  lemma InsertEventsOneMore(m: EventSet, xs: seq<Event>, i: nat)
    requires KeyedEvents(m) && i < |xs| && forall j :: 0 <= j < |xs| ==> xs[j].WellFormed()
    ensures InsertEvents(m, xs[..i + 1]) == InsertEvent(InsertEvents(m, xs[..i]), xs[i])
  {
    assert xs[..i + 1][..i] == xs[..i];
  }

  /** The set built by inserting `xs` one after the other, as a set literal does. */
  function EventSetOf(xs: seq<Event>): (m: EventSet)
    requires forall i :: 0 <= i < |xs| ==> xs[i].WellFormed()
    ensures KeyedEvents(m)
    ensures m.Keys == set i | 0 <= i < |xs| :: xs[i].name
  {
    InsertEvents(map[], xs)
  }

  /** A set built from two events of the same name has one member: the first. */
  lemma SameNameCollapses(e: Event, f: Event)
    requires e.WellFormed() && f.WellFormed() && e.Equals(f)
    ensures EventSetOf([e, f]) == map[e.name := e]
    ensures |EventSetOf([e, f])| == 1
  {
    assert [e, f][..1] == [e];
    assert [e][..0] == [];
    assert InsertEvents(map[], [e]) == map[e.name := e];
  }
}
