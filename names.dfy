/**
 * Names are the identity of states and events. This module holds what the
 * engine needs of them: Swift's `<` on strings (modelled character by
 * character), the sorted enumeration of a set of names that `sorted()`
 * yields, and insertion into a set whose members are equal exactly when
 * their names are.
 */
module Names {

  /** Lexicographic order on strings, by character code. */
  predicate Less(a: string, b: string)
    decreases |a|
  {
    if |a| == 0 then |b| > 0
    else if |b| == 0 then false
    else if a[0] != b[0] then a[0] < b[0]
    else Less(a[1..], b[1..])
  }

  lemma {:induction false} LessIrreflexive(a: string)
    ensures !Less(a, a)
    decreases |a|
  {
    if |a| > 0 {
      LessIrreflexive(a[1..]);
    }
  }

  lemma {:induction false} LessTransitive(a: string, b: string, c: string)
    requires Less(a, b) && Less(b, c)
    ensures Less(a, c)
    decreases |a|
  {
    if |a| > 0 && a[0] == b[0] && b[0] == c[0] {
      LessTransitive(a[1..], b[1..], c[1..]);
    }
  }

  lemma {:induction false} LessTrichotomy(a: string, b: string)
    ensures Less(a, b) || a == b || Less(b, a)
    decreases |a|
  {
    if |a| > 0 && |b| > 0 && a[0] == b[0] {
      LessTrichotomy(a[1..], b[1..]);
      if a[1..] == b[1..] {
        assert a == [a[0]] + a[1..] && b == [b[0]] + b[1..];
      }
    }
  }

  lemma {:induction false} LessAsymmetric(a: string, b: string)
    requires Less(a, b)
    ensures !Less(b, a)
    decreases |a|
  {
    if |a| > 0 && a[0] == b[0] {
      LessAsymmetric(a[1..], b[1..]);
    }
  }

  /** A common prefix does not change the order. */
  lemma {:induction false} LessAfterPrefix(p: string, a: string, b: string)
    requires Less(a, b)
    ensures Less(p + a, p + b)
    decreases |p|
  {
    if p == [] {
      assert p + a == a && p + b == b;
    } else {
      LessAfterPrefix(p[1..], a, b);
      assert (p + a)[0] == p[0] == (p + b)[0];
      assert (p + a)[1..] == p[1..] + a && (p + b)[1..] == p[1..] + b;
    }
  }

  /** `m` is the least member of `s`. */
  predicate Least(m: string, s: set<string>)
  {
    m in s && forall x :: x in s && x != m ==> Less(m, x)
  }

  lemma {:induction false} LeastExists(s: set<string>)
    requires s != {}
    ensures exists m :: Least(m, s)
    decreases |s|
  {
    var y :| y in s;
    if s == {y} {
      assert Least(y, s);
    } else {
      LeastExists(s - {y});
      var m :| Least(m, s - {y});
      LessTrichotomy(m, y);
      if Less(m, y) {
        assert Least(m, s);
      } else {
        forall x | x in s && x != y
          ensures Less(y, x)
        {
          if x != m {
            LessTransitive(y, m, x);
          }
        }
        assert Least(y, s);
      }
    }
  }

  /** The members of a sequence of names. */
  function Elems(ns: seq<string>): set<string>
  {
    set i | 0 <= i < |ns| :: ns[i]
  }

  lemma ElemsSingleton(x: string)
    ensures Elems([x]) == {x}
  {
    assert [x][0] == x;
  }

  lemma ElemsConcat(a: seq<string>, b: seq<string>)
    ensures Elems(a + b) == Elems(a) + Elems(b)
  {
    forall x | x in Elems(a + b)
      ensures x in Elems(a) + Elems(b)
    {
      var i :| 0 <= i < |a + b| && (a + b)[i] == x;
      if i < |a| {
        assert a[i] == x;
      } else {
        assert b[i - |a|] == x;
      }
    }
    forall x | x in Elems(a) + Elems(b)
      ensures x in Elems(a + b)
    {
      if x in Elems(a) {
        var i :| 0 <= i < |a| && a[i] == x;
        assert (a + b)[i] == x;
      } else {
        var i :| 0 <= i < |b| && b[i] == x;
        assert (a + b)[|a| + i] == x;
      }
    }
  }

  /** Strictly increasing, hence also free of repeats. */
  predicate Sorted(ns: seq<string>)
  {
    forall i, j :: 0 <= i < j < |ns| ==> Less(ns[i], ns[j])
  }

  lemma SortedTail(ns: seq<string>)
    requires Sorted(ns) && ns != []
    ensures Sorted(ns[1..])
    ensures Least(ns[0], Elems(ns))
    ensures Elems(ns[1..]) == Elems(ns) - {ns[0]}
  {
    var tail := ns[1..];
    assert ns == [ns[0]] + tail;
    ElemsConcat([ns[0]], tail);
    ElemsSingleton(ns[0]);
    forall x | x in Elems(tail)
      ensures Less(ns[0], x)
    {
      var j :| 0 <= j < |tail| && tail[j] == x;
      assert ns[j + 1] == x;
    }
    LessIrreflexive(ns[0]);
  }

  lemma {:induction false} SortedCount(ns: seq<string>)
    requires Sorted(ns)
    ensures |Elems(ns)| == |ns|
    decreases |ns|
  {
    if ns != [] {
      SortedTail(ns);
      SortedCount(ns[1..]);
    }
  }

  /** A set of names has exactly one sorted enumeration. */
  lemma {:induction false} SortedUnique(a: seq<string>, b: seq<string>)
    requires Sorted(a) && Sorted(b) && Elems(a) == Elems(b)
    ensures a == b
    decreases |a|
  {
    if a == [] {
      SortedCount(b);
    } else {
      assert a[0] in Elems(b);
      SortedTail(a);
      SortedTail(b);
      if a[0] != b[0] {
        LessAsymmetric(a[0], b[0]);
      }
      SortedUnique(a[1..], b[1..]);
      assert a == [a[0]] + a[1..] && b == [b[0]] + b[1..];
    }
  }

  /** Putting the least name in front of a sorted enumeration of the rest. */
  lemma SortedCons(m: string, rest: seq<string>, s: set<string>)
    requires Least(m, s) && Sorted(rest) && Elems(rest) == s - {m}
    ensures Sorted([m] + rest) && Elems([m] + rest) == s
  {
    var ns := [m] + rest;
    forall i, j | 0 <= i < j < |ns|
      ensures Less(ns[i], ns[j])
    {
      if i == 0 {
        assert ns[j] == rest[j - 1] && rest[j - 1] in Elems(rest);
      } else {
        assert ns[i] == rest[i - 1] && ns[j] == rest[j - 1];
      }
    }
    ElemsConcat([m], rest);
    ElemsSingleton(m);
  }

  /** The names of `s` in increasing order: what Swift's `sorted()` yields. */
  ghost function SortedOf(s: set<string>): (ns: seq<string>)
    ensures |ns| == |s|
    decreases |s|
  {
    if s == {} then
      []
    else
      LeastExists(s);
      var m :| Least(m, s);
      [m] + SortedOf(s - {m})
  }

  lemma {:induction false} SortedOfSorts(s: set<string>)
    ensures Sorted(SortedOf(s)) && Elems(SortedOf(s)) == s
    decreases |s|
  {
    if s != {} {
      LeastExists(s);
      var m :| Least(m, s) && SortedOf(s) == [m] + SortedOf(s - {m});
      SortedOfSorts(s - {m});
      SortedCons(m, SortedOf(s - {m}), s);
    }
  }

  /** `SortedOf(s)` is the only sorted enumeration of `s`. */
  lemma SortedOfIs(ns: seq<string>, s: set<string>)
    requires Sorted(ns) && Elems(ns) == s
    ensures SortedOf(s) == ns
  {
    SortedOfSorts(s);
    SortedUnique(ns, SortedOf(s));
  }

  /** Appending the least of the names still to place keeps the sorted prefix sorted and below the rest. */
  lemma SortStep(ns: seq<string>, rest: set<string>, s: set<string>, m: string)
    requires rest <= s && Sorted(ns) && Elems(ns) == s - rest && Least(m, rest)
    requires forall i, x :: 0 <= i < |ns| && x in rest ==> Less(ns[i], x)
    ensures Sorted(ns + [m]) && Elems(ns + [m]) == s - (rest - {m})
    ensures forall i, x :: 0 <= i < |ns + [m]| && x in rest - {m} ==> Less((ns + [m])[i], x)
  {
    ElemsConcat(ns, [m]);
    ElemsSingleton(m);
    var ms := ns + [m];
    assert forall i :: 0 <= i < |ns| ==> ms[i] == ns[i];
    assert ms[|ns|] == m;
  }

  /** Swift's `sorted()` on a set of names, by repeatedly taking the least. */
  method Sort(s: set<string>) returns (ns: seq<string>)
    ensures Sorted(ns) && Elems(ns) == s
  {
    ns := [];
    var rest := s;
    while rest != {}
      invariant rest <= s
      invariant Sorted(ns) && Elems(ns) == s - rest
      invariant forall i, x :: 0 <= i < |ns| && x in rest ==> Less(ns[i], x)
      decreases |rest|
    {
      LeastExists(rest);
      var m :| Least(m, rest);
      SortStep(ns, rest, s, m);
      ns := ns + [m];
      rest := rest - {m};
    }
  }

  /**
   * Swift's `Set.insert` for members that are equal exactly when their
   * names are: a member with the same name already present stays.
   */
  function Insert<T>(m: map<string, T>, name: string, x: T): (r: map<string, T>)
    ensures r.Keys == m.Keys + {name}
    ensures forall k :: k in m ==> r[k] == m[k]
    ensures name !in m ==> r[name] == x
  {
    if name in m then m else m[name := x]
  }

  /** Inserting every entry of `n` into `m`, the entries already in `m` winning. */
  function Merge<T>(m: map<string, T>, n: map<string, T>): (r: map<string, T>)
    ensures r.Keys == m.Keys + n.Keys
    ensures forall k :: k in m ==> r[k] == m[k]
    ensures forall k :: k in n && k !in m ==> r[k] == n[k]
  {
    map k | k in m.Keys + n.Keys :: if k in m then m[k] else n[k]
  }

  /** The entries of `n` whose keys are in `ks`. */
  function Restrict<T>(n: map<string, T>, ks: set<string>): (r: map<string, T>)
    ensures r.Keys == n.Keys * ks
    ensures forall k :: k in r ==> r[k] == n[k]
  {
    map k | k in n.Keys * ks :: n[k]
  }

  /** Merging one more entry of `n` is inserting it. */
  lemma MergeOneMore<T>(m: map<string, T>, n: map<string, T>, done: set<string>, k: string)
    requires k in n
    ensures Merge(m, Restrict(n, done + {k})) == Insert(Merge(m, Restrict(n, done)), k, n[k])
  {
  }

  lemma RestrictAll<T>(n: map<string, T>)
    ensures Restrict(n, n.Keys) == n
  {
  }

  /** Merging into nothing gives the entries merged. */
  lemma MergeIntoEmpty<T>(n: map<string, T>)
    ensures Merge(map[], n) == n
  {
  }
}
