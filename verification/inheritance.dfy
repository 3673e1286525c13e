/** The `implements` relation between classes: the paths by which a class inherits another one. */
module Inheritance {
  import opened Classes
  import opened Conventions
  import opened Wrappers

  /** The first class of that name among the classes visited in `order`. */
  function FirstNamed(classes: map<Byte, SwClass>, order: seq<Byte>, name: string): (r: Option<Byte>)
    ensures r.Some? ==> r.value in classes && classes[r.value].name == name
    ensures r.None? ==> forall k | k in order && k in classes :: classes[k].name != name
  {
    if order == [] then None
    else if order[0] in classes && classes[order[0]].name == name then Some(order[0])
    else FirstNamed(classes, order[1..], name)
  }

  lemma {:induction false} FirstNamedIsFirst(classes: map<Byte, SwClass>, order: seq<Byte>, name: string)
    returns (j: nat)
    requires FirstNamed(classes, order, name).Some?
    ensures j < |order| && FirstNamed(classes, order, name) == Some(order[j])
    ensures forall i | 0 <= i < j :: !(order[i] in classes && classes[order[i]].name == name)
  {
    if order[0] in classes && classes[order[0]].name == name {
      j := 0;
    } else {
      j := FirstNamedIsFirst(classes, order[1..], name);
      j := j + 1;
      forall i | 0 <= i < j
        ensures !(order[i] in classes && classes[order[i]].name == name)
      {
        assert i > 0 ==> order[1..][i - 1] == order[i];
      }
    }
  }

  /** The class a parent name stands for: of several of that name the one visited first. Names that no
      class has (such as "PROGRAM") stand for none. */
  function Resolve(classes: ClassTable, name: string): (r: Option<Byte>)
    ensures r.Some? ==> r.value in classes.byType && classes.byType[r.value].name == name
    ensures r.None? ==> forall k | k in classes.byType :: classes.byType[k].name != name
  {
    FirstNamed(classes.byType, classes.order, name)
  }

  ghost function Parent(classes: ClassTable, cl: SwClass, i: nat): Option<Byte>
    requires i < |cl.parents|
  {
    Resolve(classes, cl.parents[i])
  }

  /** A path is the list of positions at which each class on the way names the next one. */
  ghost predicate IsPath(classes: ClassTable, cl: SwClass, p: seq<nat>)
    decreases |p|
  {
    p != [] ==>
      p[0] < |cl.parents| && Parent(classes, cl, p[0]).Some? &&
        IsPath(classes, classes.byType[Parent(classes, cl, p[0]).value], p[1..])
  }

  /** The class at the end of a path. */
  ghost function End(classes: ClassTable, cl: SwClass, p: seq<nat>): SwClass
    requires IsPath(classes, cl, p)
    decreases |p|
  {
    if p == [] then cl else End(classes, classes.byType[Parent(classes, cl, p[0]).value], p[1..])
  }

  ghost function EndKey(classes: ClassTable, cl: SwClass, p: seq<nat>): (k: Byte)
    requires p != [] && IsPath(classes, cl, p)
    ensures k in classes.byType && End(classes, cl, p) == classes.byType[k]
    decreases |p|
  {
    var k := Parent(classes, cl, p[0]).value;
    if |p| == 1 then k else EndKey(classes, classes.byType[k], p[1..])
  }

  ghost predicate Inherits(classes: ClassTable, cl: SwClass, k: Byte) {
    exists p :: p != [] && IsPath(classes, cl, p) && EndKey(classes, cl, p) == k
  }

  ghost function Ancestors(classes: ClassTable, cl: SwClass): set<Byte> {
    set k | k in classes.byType && Inherits(classes, cl, k)
  }

  /** No class from which `cl` inherits inherits from itself. */
  ghost predicate NoCycleAbove(classes: ClassTable, cl: SwClass) {
    forall k | k in Ancestors(classes, cl) :: k !in Ancestors(classes, classes.byType[k])
  }

  lemma {:induction false} PathConcat(classes: ClassTable, cl: SwClass, p: seq<nat>, q: seq<nat>)
    requires IsPath(classes, cl, p) && IsPath(classes, End(classes, cl, p), q)
    ensures IsPath(classes, cl, p + q)
    ensures End(classes, cl, p + q) == End(classes, End(classes, cl, p), q)
    ensures q != [] ==> EndKey(classes, cl, p + q) == EndKey(classes, End(classes, cl, p), q)
    decreases |p|
  {
    if p == [] {
      assert p + q == q;
    } else {
      assert (p + q)[1..] == p[1..] + q;
      PathConcat(classes, classes.byType[Parent(classes, cl, p[0]).value], p[1..], q);
    }
  }

  lemma AncestorsOfParent(classes: ClassTable, cl: SwClass, i: nat)
    requires i < |cl.parents| && Parent(classes, cl, i).Some?
    ensures Parent(classes, cl, i).value in Ancestors(classes, cl)
    ensures Ancestors(classes, classes.byType[Parent(classes, cl, i).value]) <= Ancestors(classes, cl)
  {
    var k := Parent(classes, cl, i).value;
    assert [i][1..] == [];
    assert IsPath(classes, classes.byType[k], []);
    assert IsPath(classes, cl, [i]) && EndKey(classes, cl, [i]) == k;
    forall l | l in Ancestors(classes, classes.byType[k])
      ensures l in Ancestors(classes, cl)
    {
      var p :| p != [] && IsPath(classes, classes.byType[k], p) && EndKey(classes, classes.byType[k], p) == l;
      assert End(classes, cl, [i]) == classes.byType[k];
      PathConcat(classes, cl, [i], p);
    }
  }

  /** Without cycles the ancestors shrink at every step up, which is why the recursion ends. */
  lemma StepUp(classes: ClassTable, cl: SwClass, i: nat)
    requires NoCycleAbove(classes, cl)
    requires i < |cl.parents| && Parent(classes, cl, i).Some?
    ensures Ancestors(classes, classes.byType[Parent(classes, cl, i).value]) < Ancestors(classes, cl)
    ensures NoCycleAbove(classes, classes.byType[Parent(classes, cl, i).value])
  {
    AncestorsOfParent(classes, cl, i);
  }

  // ----- paths are bounded exactly when there is no cycle -----

  ghost predicate PathsBounded(classes: ClassTable, cl: SwClass, n: nat) {
    forall p | IsPath(classes, cl, p) :: |p| <= n
  }

  lemma {:induction false} PathLength(classes: ClassTable, cl: SwClass, p: seq<nat>)
    requires NoCycleAbove(classes, cl) && IsPath(classes, cl, p)
    ensures |p| <= |Ancestors(classes, cl)|
    decreases |p|
  {
    if p != [] {
      StepUp(classes, cl, p[0]);
      var next := classes.byType[Parent(classes, cl, p[0]).value];
      PathLength(classes, next, p[1..]);
      ProperSubsetCard(Ancestors(classes, next), Ancestors(classes, cl));
    }
  }

  lemma {:induction false} ProperSubsetCard(a: set<Byte>, b: set<Byte>)
    requires a < b
    ensures |a| < |b|
  {
    assert |b| == |a| + |b - a| by {
      assert b == a + (b - a);
    }
    assert b - a != {};
  }

  lemma {:induction false} Pump(classes: ClassTable, cl: SwClass, p: seq<nat>, n: nat) returns (q: seq<nat>)
    requires p != [] && IsPath(classes, cl, p) && End(classes, cl, p) == cl
    ensures IsPath(classes, cl, q) && |q| >= n
  {
    if n == 0 {
      q := [];
    } else {
      q := Pump(classes, cl, p, n - 1);
      PathConcat(classes, cl, p, q);
      q := p + q;
    }
  }

  lemma CycleUnbounded(classes: ClassTable, cl: SwClass, k: Byte, n: nat)
    requires k in Ancestors(classes, cl) && k in Ancestors(classes, classes.byType[k])
    ensures !PathsBounded(classes, cl, n)
  {
    var up :| up != [] && IsPath(classes, cl, up) && EndKey(classes, cl, up) == k;
    var round :| round != [] && IsPath(classes, classes.byType[k], round) &&
        EndKey(classes, classes.byType[k], round) == k;
    var q := Pump(classes, classes.byType[k], round, n);
    PathConcat(classes, cl, up, q);
    assert |up + q| > n;
  }

  /** The recursion over parent classes, one call per path, is finite exactly when no cycle can be
      reached: with a cycle there are inheritance paths of every length. */
  lemma TerminatesIffNoCycle(classes: ClassTable, cl: SwClass)
    ensures NoCycleAbove(classes, cl) <==> exists n: nat :: PathsBounded(classes, cl, n)
  {
    if NoCycleAbove(classes, cl) {
      forall p | IsPath(classes, cl, p)
        ensures |p| <= |Ancestors(classes, cl)|
      {
        PathLength(classes, cl, p);
      }
      assert PathsBounded(classes, cl, |Ancestors(classes, cl)|);
    } else {
      var k :| k in Ancestors(classes, cl) && k in Ancestors(classes, classes.byType[k]);
      forall n: nat
        ensures !PathsBounded(classes, cl, n)
      {
        CycleUnbounded(classes, cl, k, n);
      }
    }
  }

  // ----- all paths, in the order in which the recursion follows them -----

  ghost function Prefixed(i: nat, ps: seq<seq<nat>>): (r: seq<seq<nat>>)
    ensures |r| == |ps| && forall j | 0 <= j < |ps| :: r[j] == [i] + ps[j]
  {
    seq(|ps|, j requires 0 <= j < |ps| => [i] + ps[j])
  }

  ghost function Paths(classes: ClassTable, cl: SwClass): seq<seq<nat>>
    requires NoCycleAbove(classes, cl)
    decreases Ancestors(classes, cl), |cl.parents| + 1
  {
    [[]] + PathsFrom(classes, cl, 0)
  }

  ghost function PathsFrom(classes: ClassTable, cl: SwClass, i: nat): seq<seq<nat>>
    requires NoCycleAbove(classes, cl) && i <= |cl.parents|
    decreases Ancestors(classes, cl), |cl.parents| - i
  {
    if i == |cl.parents| then [] else PathsVia(classes, cl, i) + PathsFrom(classes, cl, i + 1)
  }

  ghost function PathsVia(classes: ClassTable, cl: SwClass, i: nat): seq<seq<nat>>
    requires NoCycleAbove(classes, cl) && i < |cl.parents|
    decreases Ancestors(classes, cl), 0
  {
    if Parent(classes, cl, i).None? then [] else
      StepUp(classes, cl, i);
      Prefixed(i, Paths(classes, classes.byType[Parent(classes, cl, i).value]))
  }

  /** `Paths` lists exactly the inheritance paths ... */
  lemma {:induction false} PathsComplete(classes: ClassTable, cl: SwClass, p: seq<nat>)
    requires NoCycleAbove(classes, cl)
    ensures p in Paths(classes, cl) <==> IsPath(classes, cl, p)
    decreases Ancestors(classes, cl), |cl.parents| + 1
  {
    PathsFromComplete(classes, cl, 0, p);
  }

  lemma {:induction false} PathsFromComplete(classes: ClassTable, cl: SwClass, i: nat, p: seq<nat>)
    requires NoCycleAbove(classes, cl) && i <= |cl.parents|
    ensures p in PathsFrom(classes, cl, i) <==> p != [] && i <= p[0] && IsPath(classes, cl, p)
    decreases Ancestors(classes, cl), |cl.parents| - i
  {
    if i < |cl.parents| {
      PathsFromComplete(classes, cl, i + 1, p);
      PathsViaComplete(classes, cl, i, p);
    }
  }

  lemma {:induction false} PathsViaComplete(classes: ClassTable, cl: SwClass, i: nat, p: seq<nat>)
    requires NoCycleAbove(classes, cl) && i < |cl.parents|
    ensures p in PathsVia(classes, cl, i) <==> p != [] && i == p[0] && IsPath(classes, cl, p)
    decreases Ancestors(classes, cl), 0
  {
    if Parent(classes, cl, i).Some? {
      StepUp(classes, cl, i);
      var up := classes.byType[Parent(classes, cl, i).value];
      if p != [] && p[0] == i {
        PathsComplete(classes, up, p[1..]);
        assert p == [i] + p[1..];
        if p[1..] in Paths(classes, up) {
          var j :| 0 <= j < |Paths(classes, up)| && Paths(classes, up)[j] == p[1..];
          assert PathsVia(classes, cl, i)[j] == p;
        }
        if p in PathsVia(classes, cl, i) {
          var j :| 0 <= j < |PathsVia(classes, cl, i)| && PathsVia(classes, cl, i)[j] == p;
          assert p[1..] == Paths(classes, up)[j];
        }
      }
    }
  }

  ghost predicate NoDuplicates(ps: seq<seq<nat>>) {
    forall i, j | 0 <= i < j < |ps| :: ps[i] != ps[j]
  }

  /** ... and each of them once. */
  lemma {:induction false} PathsDistinct(classes: ClassTable, cl: SwClass)
    requires NoCycleAbove(classes, cl)
    ensures NoDuplicates(Paths(classes, cl))
    decreases Ancestors(classes, cl), |cl.parents| + 1
  {
    PathsFromDistinct(classes, cl, 0);
    PathsFromComplete(classes, cl, 0, []);
  }

  lemma {:induction false} PathsFromDistinct(classes: ClassTable, cl: SwClass, i: nat)
    requires NoCycleAbove(classes, cl) && i <= |cl.parents|
    ensures NoDuplicates(PathsFrom(classes, cl, i))
    decreases Ancestors(classes, cl), |cl.parents| - i
  {
    if i < |cl.parents| {
      var a, b := PathsVia(classes, cl, i), PathsFrom(classes, cl, i + 1);
      PathsFromDistinct(classes, cl, i + 1);
      if Parent(classes, cl, i).Some? {
        StepUp(classes, cl, i);
        var ps := Paths(classes, classes.byType[Parent(classes, cl, i).value]);
        PathsDistinct(classes, classes.byType[Parent(classes, cl, i).value]);
        forall j, k | 0 <= j < k < |a|
          ensures a[j] != a[k]
        {
          assert a[j][1..] == ps[j] && a[k][1..] == ps[k];
        }
      }
      forall j, k | 0 <= j < |a| && 0 <= k < |b|
        ensures a[j] != b[k]
      {
        PathsViaComplete(classes, cl, i, a[j]);
        PathsFromComplete(classes, cl, i + 1, b[k]);
        assert a[j] in a && b[k] in b;
      }
    }
  }

  // ----- the order -----

  /** The order of words in a dictionary. */
  ghost predicate Precedes(p: seq<nat>, q: seq<nat>) {
    q != [] && (p == [] || p[0] < q[0] || (p[0] == q[0] && Precedes(p[1..], q[1..])))
  }

  ghost predicate InOrder(ps: seq<seq<nat>>) {
    forall i, j | 0 <= i < j < |ps| :: Precedes(ps[i], ps[j])
  }

  /** Paths are listed in dictionary order: a class before its parents, and the first parent with all its ancestors
      before the second. */
  lemma {:induction false} PathsInOrder(classes: ClassTable, cl: SwClass)
    requires NoCycleAbove(classes, cl)
    ensures InOrder(Paths(classes, cl))
    decreases Ancestors(classes, cl), |cl.parents| + 1
  {
    var ps, from := Paths(classes, cl), PathsFrom(classes, cl, 0);
    PathsFromInOrder(classes, cl, 0);
    forall i, j | 0 <= i < j < |ps|
      ensures Precedes(ps[i], ps[j])
    {
      assert ps[j] == from[j - 1] && from[j - 1] in from;
      PathsFromComplete(classes, cl, 0, from[j - 1]);
      assert i > 0 ==> ps[i] == from[i - 1];
    }
  }

  lemma {:induction false} PathsFromInOrder(classes: ClassTable, cl: SwClass, i: nat)
    requires NoCycleAbove(classes, cl) && i <= |cl.parents|
    ensures InOrder(PathsFrom(classes, cl, i))
    decreases Ancestors(classes, cl), |cl.parents| - i
  {
    if i < |cl.parents| {
      var a, b := PathsVia(classes, cl, i), PathsFrom(classes, cl, i + 1);
      PathsFromInOrder(classes, cl, i + 1);
      PathsViaInOrder(classes, cl, i);
      forall j, k | 0 <= j < |a| && 0 <= k < |b|
        ensures Precedes(a[j], b[k])
      {
        assert a[j] in a && b[k] in b;
        PathsViaComplete(classes, cl, i, a[j]);
        PathsFromComplete(classes, cl, i + 1, b[k]);
      }
      ConcatInOrder(a, b);
    }
  }

  lemma ConcatInOrder(a: seq<seq<nat>>, b: seq<seq<nat>>)
    requires InOrder(a) && InOrder(b) && forall j, k | 0 <= j < |a| && 0 <= k < |b| :: Precedes(a[j], b[k])
    ensures InOrder(a + b)
  {
  }

  lemma {:induction false} PathsViaInOrder(classes: ClassTable, cl: SwClass, i: nat)
    requires NoCycleAbove(classes, cl) && i < |cl.parents|
    ensures InOrder(PathsVia(classes, cl, i))
    decreases Ancestors(classes, cl), 0
  {
    if Parent(classes, cl, i).Some? {
      StepUp(classes, cl, i);
      var up := classes.byType[Parent(classes, cl, i).value];
      var a, ps := PathsVia(classes, cl, i), Paths(classes, up);
      PathsInOrder(classes, up);
      forall j, k | 0 <= j < k < |a|
        ensures Precedes(a[j], a[k])
      {
        assert a[j][1..] == ps[j] && a[k][1..] == ps[k];
      }
    }
  }
}
