/** The round-robin cursor of `HandleMapping`, `src/SmartWebToMqttGateway.cpp`. A tick is two steps,
    because the mutex is released while the frame is sent: `Pick` wraps the cursor and takes the
    frame, `Advance` moves on. Program discovery may append requests between any two steps. */
module Polling {
  import opened Conventions

  datatype State = State(requests: seq<CanFrame>, index: nat, picked: bool)

  datatype Event = Pick | Advance | Append(frames: seq<CanFrame>)

  ghost predicate Valid(s: State) {
    s.index <= |s.requests| && (s.picked ==> s.index < |s.requests|)
  }

  /** With nothing to poll a tick returns at once, so `Advance` follows a `Pick` only if it took a frame. */
  ghost predicate Enabled(s: State, e: Event) {
    match e
    case Pick => !s.picked
    case Advance => s.picked
    case Append(_) => true
  }

  function Wrapped(s: State): nat {
    if s.index == |s.requests| then 0 else s.index
  }

  function Step(s: State, e: Event): State {
    match e
    case Pick => if s.requests == [] then s else s.(index := Wrapped(s), picked := true)
    case Advance => s.(index := s.index + 1, picked := false)
    case Append(frames) => s.(requests := s.requests + frames)
  }

  function Run(s: State, es: seq<Event>): State
    decreases es
  {
    if es == [] then s else Run(Step(s, es[0]), es[1..])
  }

  ghost predicate ValidRun(s: State, es: seq<Event>)
    decreases es
  {
    es != [] ==> Enabled(s, es[0]) && ValidRun(Step(s, es[0]), es[1..])
  }

  /** The positions whose requests are sent, in order. */
  function Sent(s: State, es: seq<Event>): seq<nat>
    decreases es
  {
    if es == [] then []
    else (if es[0].Pick? && s.requests != [] then [Wrapped(s)] else []) + Sent(Step(s, es[0]), es[1..])
  }

  function Picks(es: seq<Event>): nat {
    if es == [] then 0 else (if es[0].Pick? then 1 else 0) + Picks(es[1..])
  }

  /** The cursor never passes the end of the list, and requests keep their positions. */
  lemma {:induction false} CursorInRange(s: State, es: seq<Event>)
    requires Valid(s) && ValidRun(s, es)
    ensures Valid(Run(s, es)) && s.requests <= Run(s, es).requests
    decreases es
  {
    if es != [] {
      CursorInRange(Step(s, es[0]), es[1..]);
    }
  }

  // ----- fairness while the list grows -----

  /** The position after the last one picked. */
  ghost function Next(s: State): nat {
    s.index + (if s.picked then 1 else 0)
  }

  ghost predicate Seen(seen: set<nat>, from: nat, to: nat) {
    forall i: nat | from <= i < to :: i in seen
  }

  /** What `t` ticks from a cursor at `c` have sent: everything from `c` to the cursor; or, after a wrap
      at length `l`, everything from `c` to `l` and from 0 to the cursor; or all of the first `n`. */
  ghost predicate Progress(s: State, c: nat, n: nat, t: nat, seen: set<nat>) {
    || (Next(s) == c + t && Seen(seen, c, Next(s)))
    || (exists l: nat :: WrappedAt(s, c, n, t, seen, l))
    || Seen(seen, 0, n)
  }

  ghost predicate WrappedAt(s: State, c: nat, n: nat, t: nat, seen: set<nat>, l: nat) {
    n <= l <= |s.requests| && t + c == l + Next(s) && Seen(seen, c, l) && Seen(seen, 0, Next(s))
  }

  lemma PickProgress(s: State, c: nat, n: nat, t: nat, seen: set<nat>)
    requires Valid(s) && !s.picked && c <= n <= |s.requests| && s.requests != []
    requires Progress(s, c, n, t, seen)
    ensures Progress(Step(s, Pick), c, n, t + 1, seen + {Wrapped(s)})
  {
    var s', seen' := Step(s, Pick), seen + {Wrapped(s)};
    if Seen(seen, 0, n) {
      assert Seen(seen', 0, n);
    } else if Next(s) == c + t && Seen(seen, c, Next(s)) {
      if s.index == |s.requests| {
        assert WrappedAt(s', c, n, t + 1, seen', |s.requests|);
      }
    } else {
      var l: nat :| WrappedAt(s, c, n, t, seen, l);
      if s.index < |s.requests| {
        assert WrappedAt(s', c, n, t + 1, seen', l);
      }
    }
  }

  lemma OtherProgress(s: State, e: Event, c: nat, n: nat, t: nat, seen: set<nat>)
    requires Valid(s) && Enabled(s, e) && !e.Pick? && Progress(s, c, n, t, seen)
    ensures Progress(Step(s, e), c, n, t, seen)
  {
    if exists l: nat :: WrappedAt(s, c, n, t, seen, l) {
      var l: nat :| WrappedAt(s, c, n, t, seen, l);
      assert WrappedAt(Step(s, e), c, n, t, seen, l);
    }
  }

  ghost function Elements(s: seq<nat>): set<nat> {
    set i | i in s
  }

  lemma {:induction false} ProgressRun(s: State, es: seq<Event>, c: nat, n: nat, t: nat, seen: set<nat>)
    requires Valid(s) && ValidRun(s, es) && c <= n <= |s.requests| && Progress(s, c, n, t, seen)
    ensures Progress(Run(s, es), c, n, t + Picks(es), seen + Elements(Sent(s, es)))
    decreases es
  {
    if es == [] {
      assert seen + Elements([]) == seen;
    } else {
      var e, s' := es[0], Step(s, es[0]);
      if !e.Pick? {
        OtherProgress(s, e, c, n, t, seen);
        ProgressRun(s', es[1..], c, n, t, seen);
        assert Elements(Sent(s, es)) == Elements(Sent(s', es[1..]));
      } else if s.requests == [] {
        assert Seen(seen, 0, n);
        ProgressRun(s', es[1..], c, n, t + 1, seen);
      } else {
        PickProgress(s, c, n, t, seen);
        ProgressRun(s', es[1..], c, n, t + 1, seen + {Wrapped(s)});
        assert seen + {Wrapped(s)} + Elements(Sent(s', es[1..])) == seen + Elements(Sent(s, es));
      }
    }
  }

  /** Any N consecutive ticks, where N is the length of the list at the end, send every request that
      was in the list at the start, whatever is appended on the way. */
  lemma FairPolling(s: State, es: seq<Event>)
    requires Valid(s) && !s.picked && ValidRun(s, es)
    requires Picks(es) >= |Run(s, es).requests|
    ensures forall i: nat | i < |s.requests| :: i in Sent(s, es)
  {
    var n, t, f := |s.requests|, Picks(es), Run(s, es);
    var seen := Elements(Sent(s, es));
    assert Seen({}, s.index, Next(s));
    ProgressRun(s, es, s.index, n, 0, {});
    CursorInRange(s, es);
    assert {} + seen == seen;
    assert Progress(f, s.index, n, t, seen);
    assert Next(f) <= |f.requests|;
    if exists l: nat :: WrappedAt(f, s.index, n, t, seen, l) {
      var l: nat :| WrappedAt(f, s.index, n, t, seen, l);
      assert s.index <= Next(f);
    }
    assert Seen(seen, 0, n);
    forall i: nat | i < n
      ensures i in Sent(s, es)
    {
      assert i in seen;
    }
  }

  // ----- the exact order without appends -----

  function Rounds(k: nat): seq<Event> {
    if k == 0 then [] else [Pick, Advance] + Rounds(k - 1)
  }

  function Interval(from: nat, to: nat): seq<nat>
    requires from <= to
  {
    seq(to - from, i requires 0 <= i < to - from => from + i)
  }

  lemma OneRound(s: State, es: seq<Event>)
    requires !s.picked && s.requests != []
    ensures Sent(s, [Pick, Advance] + es) == [Wrapped(s)] + Sent(s.(index := Wrapped(s) + 1), es)
    ensures Run(s, [Pick, Advance] + es) == Run(s.(index := Wrapped(s) + 1), es)
  {
    var all := [Pick, Advance] + es;
    assert all[1..][0] == Advance && all[1..][1..] == es;
    assert Step(Step(s, Pick), Advance) == s.(index := Wrapped(s) + 1);
  }

  lemma {:induction false} SweepUp(s: State, k: nat, es: seq<Event>)
    requires !s.picked && s.index + k <= |s.requests|
    ensures Sent(s, Rounds(k) + es) == Interval(s.index, s.index + k) + Sent(s.(index := s.index + k), es)
    decreases k
  {
    if k == 0 {
      assert Rounds(0) + es == es && s.(index := s.index + 0) == s;
    } else {
      var s' := s.(index := s.index + 1);
      assert Rounds(k) + es == [Pick, Advance] + (Rounds(k - 1) + es);
      OneRound(s, Rounds(k - 1) + es);
      SweepUp(s', k - 1, es);
      assert Interval(s.index, s.index + k) == [s.index] + Interval(s.index + 1, s.index + k);
    }
  }

  lemma {:induction false} RoundsConcat(j: nat, k: nat)
    ensures Rounds(j + k) == Rounds(j) + Rounds(k)
  {
    if j > 0 {
      RoundsConcat(j - 1, k);
    }
  }

  lemma EndIsStart(s: State, k: nat)
    requires !s.picked && s.index == |s.requests|
    ensures Sent(s, Rounds(k)) == Sent(s.(index := 0), Rounds(k))
  {
    if k > 0 && s.requests != [] {
      OneRound(s, Rounds(k - 1));
      OneRound(s.(index := 0), Rounds(k - 1));
    } else if k > 0 {
      assert s.(index := 0) == s;
    }
  }

  /** Without appends n ticks send each of the n requests exactly once: from the cursor to the end, then
      from the start to the cursor. */
  lemma FullCycle(s: State)
    requires Valid(s) && !s.picked
    ensures Sent(s, Rounds(|s.requests|)) == Interval(s.index, |s.requests|) + Interval(0, s.index)
  {
    var n, c := |s.requests|, s.index;
    RoundsConcat(n - c, c);
    SweepUp(s, n - c, Rounds(c));
    EndIsStart(s.(index := n), c);
    assert Rounds(c) == Rounds(c) + [];
    SweepUp(s.(index := 0), c, []);
  }
}
