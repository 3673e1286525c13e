/** The keys of a `std::map` in the order in which a range-for visits them. */
module OrderedKeys {
  ghost predicate Ascending(s: seq<nat>) {
    forall i, j | 0 <= i < j < |s| :: s[i] < s[j]
  }

  ghost predicate IsMin(m: nat, s: set<nat>) {
    m in s && forall k | k in s :: m <= k
  }

  lemma {:induction false} HasMin(s: set<nat>, k: nat)
    requires k in s
    ensures exists m: nat :: IsMin(m, s)
    decreases k
  {
    if j: nat :| j in s && j < k {
      HasMin(s, j);
    } else {
      assert IsMin(k, s);
    }
  }

  lemma PrependMin(m: nat, rest: seq<nat>)
    requires Ascending(rest) && forall k | k in rest :: m < k
    ensures Ascending([m] + rest)
  {
    var s := [m] + rest;
    forall i, j | 0 <= i < j < |s|
      ensures s[i] < s[j]
    {
      assert s[j] == rest[j - 1] && rest[j - 1] in rest;
    }
  }

  function SortedKeys(s: set<nat>): seq<nat> {
    if s == {} then []
    else
      assert exists m: nat :: IsMin(m, s) by {
        var k: nat :| k in s;
        HasMin(s, k);
      }
      var m: nat :| m in s && forall k | k in s :: m <= k;
      [m] + SortedKeys(s - {m})
  }

  lemma {:induction false} SortedKeysSpec(s: set<nat>)
    ensures forall k :: k in SortedKeys(s) <==> k in s
    ensures Ascending(SortedKeys(s))
    ensures |SortedKeys(s)| == |s|
  {
    if s != {} {
      var m := SortedKeys(s)[0];
      HasMinKey(s);
      SortedKeysSpec(s - {m});
      PrependMin(m, SortedKeys(s - {m}));
    }
  }

  lemma HasMinKey(s: set<nat>)
    requires s != {}
    ensures SortedKeys(s) != [] && IsMin(SortedKeys(s)[0], s)
    ensures SortedKeys(s) == [SortedKeys(s)[0]] + SortedKeys(s - {SortedKeys(s)[0]})
  {
  }
}
