/** The confirmation of a CAN write, `Send` and `SetWriteConfirmed` of `src/CanPort.cpp`. Senders are
    serialised by a mutex; the listening thread may report a confirmation between any two steps.

    The socket numbers the frames it takes and confirms them in that order; a frame that is lost is skipped.
    The check of the flag and the start of the wait are one step, because the flag's mutex is held. The wait
    has no predicate and is taken to end only by a notification or at its deadline. `wait_for` reports a timeout
    once the deadline has passed, also if a confirmation came before the sender has the mutex back, and the
    sender does not look at the flag again. */
module WriteHandshake {
  /** Where the sender stands: `Woken` has been notified, `Expired` has passed its deadline, and neither has the
      mutex back. */
  datatype Phase = Free | Cleared | Written | Waiting | Woken | Expired

  datatype Outcome = Returned | WriteError | TimedOut

  /** `late`: the deadline passed after a notification. */
  datatype Record = Began | Confirmed(frame: nat) | Passed(late: bool) | Ended(outcome: Outcome)

  datatype State = State(writeConfirmed: bool, phase: Phase, written: nat, confirmed: nat, log: seq<Record>)

  datatype Event = Begin | Write(ok: bool) | Check | Confirm(frame: nat) | Resume | Expire | Throw

  const INITIAL := State(false, Free, 0, 0, [])

  predicate Enabled(s: State, e: Event) {
    match e
    case Begin => s.phase.Free?
    case Write(_) => s.phase.Cleared?
    case Check => s.phase.Written?
    case Confirm(frame) => s.confirmed < frame <= s.written
    case Resume => s.phase.Woken?
    case Expire => s.phase.Waiting? || s.phase.Woken?
    case Throw => s.phase.Expired?
  }

  function End(s: State, outcome: Outcome): State {
    s.(phase := Free, log := s.log + [Ended(outcome)])
  }

  function Step(s: State, e: Event): State {
    match e
    case Begin => s.(writeConfirmed := false, phase := Cleared, log := s.log + [Began])
    case Write(ok) => if ok then s.(phase := Written, written := s.written + 1) else End(s, WriteError)
    case Check => if s.writeConfirmed then End(s, Returned) else s.(phase := Waiting)
    case Confirm(frame) =>
      s.(writeConfirmed := true, phase := if s.phase.Waiting? then Woken else s.phase, confirmed := frame,
         log := s.log + [Confirmed(frame)])
    case Resume => End(s, Returned)
    case Expire => s.(phase := Expired, log := s.log + [Passed(s.phase.Woken?)])
    case Throw => End(s, TimedOut)
  }

  predicate ValidRun(s: State, es: seq<Event>)
    decreases es
  {
    es != [] ==> Enabled(s, es[0]) && ValidRun(Step(s, es[0]), es[1..])
  }

  function Run(s: State, es: seq<Event>): State
    decreases es
  {
    if es == [] then s else Run(Step(s, es[0]), es[1..])
  }

  lemma RunCons(s: State, e: Event, es: seq<Event>)
    requires Enabled(s, e) && ValidRun(Step(s, e), es)
    ensures ValidRun(s, [e] + es) && Run(s, [e] + es) == Run(Step(s, e), es)
  {
    assert ([e] + es)[1..] == es;
  }

  // ----- how a send ends -----

  /** A confirmation was reported after the last sender cleared the flag. */
  ghost predicate ConfirmedSince(log: seq<Record>) {
    log != [] && !log[|log| - 1].Began? && (log[|log| - 1].Confirmed? || ConfirmedSince(log[..|log| - 1]))
  }

  /** Its deadline has passed. */
  ghost predicate PassedSince(log: seq<Record>) {
    log != [] && !log[|log| - 1].Began? && (log[|log| - 1].Passed? || PassedSince(log[..|log| - 1]))
  }

  ghost predicate RecordOk(before: seq<Record>, r: Record) {
    && (r == Ended(Returned) ==> ConfirmedSince(before) && !PassedSince(before))
    && (r == Ended(TimedOut) ==> PassedSince(before))
    && (r.Passed? ==> (r.late <==> ConfirmedSince(before)))
  }

  ghost predicate HistoryOk(log: seq<Record>) {
    log == [] || (HistoryOk(log[..|log| - 1]) && RecordOk(log[..|log| - 1], log[|log| - 1]))
  }

  ghost predicate Inv(s: State) {
    && HistoryOk(s.log) && s.confirmed <= s.written
    && (!s.phase.Free? ==> (s.writeConfirmed <==> ConfirmedSince(s.log)) && (s.phase.Expired? <==> PassedSince(s.log)))
    && (s.phase.Waiting? ==> !s.writeConfirmed)
    && (s.phase.Woken? ==> s.writeConfirmed)
  }

  lemma LogAfter(log: seq<Record>, r: Record)
    ensures HistoryOk(log + [r]) <==> HistoryOk(log) && RecordOk(log, r)
    ensures ConfirmedSince(log + [r]) <==> !r.Began? && (r.Confirmed? || ConfirmedSince(log))
    ensures PassedSince(log + [r]) <==> !r.Began? && (r.Passed? || PassedSince(log))
  {
    assert (log + [r])[..|log|] == log;
  }

  /** A step that logs `r` keeps the invariant if `r` and the new flag and phase agree with the log before. */
  lemma LoggedInv(s: State, t: State, r: Record)
    requires Inv(s) && t.log == s.log + [r] && RecordOk(s.log, r) && t.confirmed <= t.written
    requires !t.phase.Free? ==>
               && (t.writeConfirmed <==> !r.Began? && (r.Confirmed? || ConfirmedSince(s.log)))
               && (t.phase.Expired? <==> !r.Began? && (r.Passed? || PassedSince(s.log)))
    requires t.phase.Waiting? ==> !t.writeConfirmed
    requires t.phase.Woken? ==> t.writeConfirmed
    ensures Inv(t)
  {
    LogAfter(s.log, r);
  }

  lemma StepInv(s: State, e: Event)
    requires Inv(s) && Enabled(s, e)
    ensures Inv(Step(s, e))
  {
    match e
    case Begin => LoggedInv(s, Step(s, e), Began);
    case Write(ok) => if !ok { LoggedInv(s, Step(s, e), Ended(WriteError)); }
    case Check => if s.writeConfirmed { LoggedInv(s, Step(s, e), Ended(Returned)); }
    case Confirm(frame) => LoggedInv(s, Step(s, e), Confirmed(frame));
    case Resume => LoggedInv(s, Step(s, e), Ended(Returned));
    case Expire => LoggedInv(s, Step(s, e), Passed(s.phase.Woken?));
    case Throw => LoggedInv(s, Step(s, e), Ended(TimedOut));
  }

  lemma EndRecord(s: State, e: Event, outcome: Outcome)
    requires Inv(s) && Enabled(s, e) && Step(s, e) == End(s, outcome)
    ensures Inv(End(s, outcome)) && RecordOk(s.log, Ended(outcome))
  {
    StepInv(s, e);
    LogAfter(s.log, Ended(outcome));
    assert HistoryOk(s.log + [Ended(outcome)]);
  }

  lemma {:induction false} RunInv(s: State, es: seq<Event>)
    requires Inv(s) && ValidRun(s, es)
    ensures Inv(Run(s, es))
    decreases es
  {
    if es != [] {
      StepInv(s, es[0]);
      RunInv(Step(s, es[0]), es[1..]);
    }
  }

  lemma {:induction false} HistoryAt(log: seq<Record>, i: nat)
    requires HistoryOk(log) && i < |log|
    ensures RecordOk(log[..i], log[i])
    decreases |log|
  {
    if i < |log| - 1 {
      assert log[..|log| - 1][..i] == log[..i];
      HistoryAt(log[..|log| - 1], i);
    }
  }

  /** What `ConfirmedSince` means, position by position. */
  lemma {:induction false} ConfirmedSinceAt(log: seq<Record>)
    ensures ConfirmedSince(log) <==>
              exists c | 0 <= c < |log| :: log[c].Confirmed? && forall k | c < k < |log| :: !log[k].Began?
    decreases |log|
  {
    if log != [] {
      var init := log[..|log| - 1];
      ConfirmedSinceAt(init);
      if ConfirmedSince(init) && !log[|log| - 1].Began? {
        var c :| 0 <= c < |init| && init[c].Confirmed? && forall k | c < k < |init| :: !init[k].Began?;
        assert log[c].Confirmed? && forall k | c < k < |log| :: k < |init| ==> log[k] == init[k];
      }
      if c :| 0 <= c < |log| && log[c].Confirmed? && forall k | c < k < |log| :: !log[k].Began? {
        if c < |init| {
          assert init[c].Confirmed? && forall k | c < k < |init| :: init[k] == log[k];
        }
      }
    }
  }

  lemma {:induction false} PassedSinceAt(log: seq<Record>)
    ensures PassedSince(log) <==>
              exists c | 0 <= c < |log| :: log[c].Passed? && forall k | c < k < |log| :: !log[k].Began?
    decreases |log|
  {
    if log != [] {
      var init := log[..|log| - 1];
      PassedSinceAt(init);
      if PassedSince(init) && !log[|log| - 1].Began? {
        var c :| 0 <= c < |init| && init[c].Passed? && forall k | c < k < |init| :: !init[k].Began?;
        assert log[c].Passed? && forall k | c < k < |log| :: k < |init| ==> log[k] == init[k];
      }
      if c :| 0 <= c < |log| && log[c].Passed? && forall k | c < k < |log| :: !log[k].Began? {
        if c < |init| {
          assert init[c].Passed? && forall k | c < k < |init| :: init[k] == log[k];
        }
      }
    }
  }

  /** A confirmation was reported between the last `Began` before position `i` and `i`. */
  ghost predicate ConfirmedBefore(log: seq<Record>, i: nat)
    requires i < |log|
  {
    exists c | 0 <= c < i :: log[c].Confirmed? && forall k | c < k < i :: !log[k].Began?
  }

  /** The deadline passed between the last `Began` before position `i` and `i`. */
  ghost predicate PassedBefore(log: seq<Record>, i: nat)
    requires i < |log|
  {
    exists c | 0 <= c < i :: log[c].Passed? && forall k | c < k < i :: !log[k].Began?
  }

  lemma BeforeIsSince(log: seq<Record>, i: nat)
    requires i < |log|
    ensures ConfirmedBefore(log, i) <==> ConfirmedSince(log[..i])
    ensures PassedBefore(log, i) <==> PassedSince(log[..i])
  {
    var init := log[..i];
    ConfirmedSinceAt(init);
    PassedSinceAt(init);
    if c :| 0 <= c < i && log[c].Confirmed? && forall k | c < k < i :: !log[k].Began? {
      assert init[c].Confirmed? && forall k | c < k < |init| :: init[k] == log[k];
    }
    if c :| 0 <= c < i && init[c].Confirmed? && forall k | c < k < i :: !init[k].Began? {
      assert log[c].Confirmed? && forall k | c < k < i :: log[k] == init[k];
    }
    if c :| 0 <= c < i && log[c].Passed? && forall k | c < k < i :: !log[k].Began? {
      assert init[c].Passed? && forall k | c < k < |init| :: init[k] == log[k];
    }
    if c :| 0 <= c < i && init[c].Passed? && forall k | c < k < i :: !init[k].Began? {
      assert log[c].Passed? && forall k | c < k < i :: log[k] == init[k];
    }
  }

  /** How a send that was written ends, over every interleaving. It returns only if a confirmation came after its
      own reset of the flag. It throws the timeout exactly if its deadline passed before it had the mutex back. */
  lemma SendExact(es: seq<Event>, i: nat)
    requires ValidRun(INITIAL, es)
    requires var log := Run(INITIAL, es).log; i < |log| && log[i].Ended? && log[i].outcome != WriteError
    ensures var log := Run(INITIAL, es).log;
            && (log[i].outcome == Returned ==> ConfirmedBefore(log, i))
            && (log[i].outcome == TimedOut <==> PassedBefore(log, i))
  {
    RunInv(INITIAL, es);
    HistoryAt(Run(INITIAL, es).log, i);
    BeforeIsSince(Run(INITIAL, es).log, i);
  }

  /** A deadline that is not late, one that passes before the sender was notified, means that no confirmation had
      come since the reset, neither between the write and the wait nor during the wait. So unless senders wake up
      late, a send times out exactly if no confirmation came between its reset and its deadline. */
  lemma ExpiryExact(es: seq<Event>, i: nat)
    requires ValidRun(INITIAL, es)
    requires var log := Run(INITIAL, es).log; i < |log| && log[i].Passed?
    ensures var log := Run(INITIAL, es).log; !log[i].late <==> !ConfirmedBefore(log, i)
  {
    RunInv(INITIAL, es);
    HistoryAt(Run(INITIAL, es).log, i);
    BeforeIsSince(Run(INITIAL, es).log, i);
  }

  /** Run by run, a send need not return although it was confirmed: its deadline passes, then the confirmation of
      its own frame comes before it has the mutex back, and it throws. */
  lemma TimesOutConfirmed()
    ensures var es := [Begin, Write(true), Check, Expire, Confirm(1), Throw];
            && ValidRun(INITIAL, es)
            && Run(INITIAL, es).log == [Began, Passed(false), Confirmed(1), Ended(TimedOut)]
            && Run(INITIAL, es).writeConfirmed && Run(INITIAL, es).confirmed == Run(INITIAL, es).written
  {
    var s1 := Step(INITIAL, Begin);
    var s2 := Step(s1, Write(true));
    var s3 := Step(s2, Check);
    var s4 := Step(s3, Expire);
    var s5 := Step(s4, Confirm(1));
    RunCons(s5, Throw, []);
    RunCons(s4, Confirm(1), [Throw]);
    RunCons(s3, Expire, [Confirm(1), Throw]);
    RunCons(s2, Check, [Expire, Confirm(1), Throw]);
    RunCons(s1, Write(true), [Check, Expire, Confirm(1), Throw]);
    RunCons(INITIAL, Begin, [Write(true), Check, Expire, Confirm(1), Throw]);
    assert Step(s5, Throw).log == [Began, Passed(false), Confirmed(1), Ended(TimedOut)];
  }

  // ----- whose confirmation it was -----

  /** The events up to the end of the send in progress. */
  ghost predicate UntilEnd(s: State, es: seq<Event>)
    decreases es
  {
    es != [] && Enabled(s, es[0]) &&
      (if Step(s, es[0]).phase.Free? then es[1..] == [] else UntilEnd(Step(s, es[0]), es[1..]))
  }

  ghost predicate JustReturned(s: State) {
    s.log != [] && s.log[|s.log| - 1] == Ended(Returned)
  }

  /** The events of one send, and whatever is confirmed meanwhile, from its beginning to its normal return. */
  ghost predicate ReturningSend(s: State, es: seq<Event>) {
    es != [] && es[0] == Begin && s.phase.Free? && UntilEnd(Step(s, Begin), es[1..]) && JustReturned(Run(s, es))
  }

  /** The frame that the send has written is confirmed when it returns. */
  ghost predicate OwnConfirmed(s: State, es: seq<Event>) {
    Run(s, es).confirmed == s.written + 1
  }

  /** During a send that began with `n` frames written and all of them confirmed, the flag says whether its own
      frame is confirmed. */
  ghost predicate FlagIsOwn(s: State, n: nat) {
    && s.written == (if s.phase.Cleared? then n else n + 1)
    && s.confirmed == if s.writeConfirmed then n + 1 else n
  }

  lemma {:induction false} FlagIsOwnRun(s: State, es: seq<Event>, n: nat)
    requires Inv(s) && !s.phase.Free? && FlagIsOwn(s, n) && UntilEnd(s, es)
    ensures JustReturned(Run(s, es)) ==> Run(s, es).confirmed == n + 1
    decreases es
  {
    var s' := Step(s, es[0]);
    StepInv(s, es[0]);
    if s'.phase.Free? {
      assert Run(s, es) == s';
    } else {
      FlagIsOwnRun(s', es[1..], n);
    }
  }

  /** The shortest send that returns on the confirmation of an outstanding frame. */
  lemma ReturnsUnconfirmed(s: State)
    requires s.phase.Free? && s.confirmed < s.written
    ensures var es := [Begin, Confirm(s.written), Write(true), Check];
            ReturningSend(s, es) && ValidRun(s, es) && !OwnConfirmed(s, es)
  {
    var es := [Begin, Confirm(s.written), Write(true), Check];
    var s1 := Step(s, Begin);
    var s2 := Step(s1, Confirm(s.written));
    var s3 := Step(s2, Write(true));
    assert es[1..] == [Confirm(s.written), Write(true), Check] && es[1..][1..] == [Write(true), Check];
    assert [Write(true), Check][1..] == [Check] && [Check][1..] == [];
    assert UntilEnd(s3, [Check]) && UntilEnd(s2, [Write(true), Check]);
    RunCons(s3, Check, []);
    RunCons(s2, Write(true), [Check]);
    RunCons(s1, Confirm(s.written), [Write(true), Check]);
    RunCons(s, Begin, [Confirm(s.written), Write(true), Check]);
  }

  lemma OwnConfirmationFrom(s: State)
    requires Inv(s) && s.phase.Free?
    ensures (forall es :: ReturningSend(s, es) ==> OwnConfirmed(s, es)) <==> s.confirmed == s.written
  {
    if s.confirmed == s.written {
      forall es | ReturningSend(s, es)
        ensures OwnConfirmed(s, es)
      {
        StepInv(s, Begin);
        FlagIsOwnRun(Step(s, Begin), es[1..], s.written);
      }
    } else {
      ReturnsUnconfirmed(s);
    }
  }

  /** After any run: every normal return of the next send means that its own frame is confirmed if and only if
      nothing is outstanding when it begins. */
  lemma OwnConfirmationIff(before: seq<Event>)
    requires ValidRun(INITIAL, before) && Run(INITIAL, before).phase.Free?
    ensures var s := Run(INITIAL, before);
            (forall es :: ReturningSend(s, es) ==> OwnConfirmed(s, es)) <==> s.confirmed == s.written
  {
    RunInv(INITIAL, before);
    OwnConfirmationFrom(Run(INITIAL, before));
  }

  const TIMED_OUT := [Begin, Write(true), Check, Expire, Throw]

  lemma AfterTimeout()
    ensures ValidRun(INITIAL, TIMED_OUT)
    ensures Run(INITIAL, TIMED_OUT) == State(false, Free, 1, 0, [Began, Passed(false), Ended(TimedOut)])
  {
    var s1 := Step(INITIAL, Begin);
    var s2 := Step(s1, Write(true));
    var s3 := Step(s2, Check);
    var s4 := Step(s3, Expire);
    RunCons(s4, Throw, []);
    RunCons(s3, Expire, [Throw]);
    RunCons(s2, Check, [Expire, Throw]);
    RunCons(s1, Write(true), [Check, Expire, Throw]);
    RunCons(INITIAL, Begin, [Write(true), Check, Expire, Throw]);
    assert Step(s4, Throw).log == [Began, Passed(false), Ended(TimedOut)];
  }

  /** It happens: after a first send has timed out, the second returns on the confirmation of the first one's
      frame, and its own frame is not confirmed. */
  lemma LateConfirmation()
    ensures ValidRun(INITIAL, TIMED_OUT)
    ensures var s := Run(INITIAL, TIMED_OUT);
            var es := [Begin, Confirm(1), Write(true), Check];
            s.log[|s.log| - 1] == Ended(TimedOut) && ReturningSend(s, es) && ValidRun(s, es) && !OwnConfirmed(s, es)
  {
    AfterTimeout();
    ReturnsUnconfirmed(Run(INITIAL, TIMED_OUT));
  }

  // ----- the port -----

  /** `TCanPort`, as far as writing goes, with what its socket has written and confirmed. `phase` and `log` are
      ghosts: where the sender stands, and what happened. */
  class CanPort {
    var writeConfirmed: bool
    var written: nat
    var confirmed: nat
    ghost var phase: Phase
    ghost var log: seq<Record>

    ghost function Abstract(): State
      reads this
    {
      State(writeConfirmed, phase, written, confirmed, log)
    }

    ghost predicate Valid()
      reads this
    {
      Inv(Abstract())
    }

    constructor ()
      ensures Valid() && Abstract() == INITIAL
    {
      writeConfirmed, phase, written, confirmed, log := false, Free, 0, 0, [];
    }

    /** `SetWriteConfirmed`, called from the listening thread for the confirmation of a frame. */
    method SetWriteConfirmed(frame: nat)
      requires Valid() && Enabled(Abstract(), Confirm(frame))
      modifies this
      ensures Valid() && Abstract() == Step(old(Abstract()), Confirm(frame))
    {
      ghost var next := Step(Abstract(), Confirm(frame));
      StepInv(Abstract(), Confirm(frame));
      assert Inv(next);
      writeConfirmed := true;
      confirmed := frame;
      log := log + [Confirmed(frame)];
      if phase == Waiting {
        phase := Woken;
      }
      assert Abstract() == next;
    }

    /** Any number of confirmations from the listening thread. */
    method Listener()
      requires Valid()
      modifies this
      ensures Valid() && old(log) <= log && written == old(written)
      ensures phase == old(phase) || (old(phase) == Waiting && phase == Woken)
    {
      var n: nat :| n >= 0;
      for i := 0 to n
        invariant Valid() && old(log) <= log && written == old(written)
        invariant phase == old(phase) || (old(phase) == Waiting && phase == Woken)
      {
        var frame: nat :| frame >= 0;
        if confirmed < frame <= written {
          SetWriteConfirmed(frame);
        }
      }
    }

    /** `Send`. `taken` is whether the socket takes the frame; `prompt`, whether the sender has the mutex back as soon
        as it is notified or its deadline passes. Then it returns exactly if a confirmation came since its own
        reset. */
    method Send(taken: bool, prompt: bool) returns (outcome: Outcome)
      requires Valid() && phase == Free
      modifies this
      ensures Valid() && phase == Free && old(log) < log && log[|log| - 1] == Ended(outcome)
      ensures outcome == WriteError <==> !taken
      ensures written == old(written) + if taken then 1 else 0
      ensures outcome == Returned ==> ConfirmedSince(log[..|log| - 1])
      ensures outcome != WriteError ==> (outcome == TimedOut <==> PassedSince(log[..|log| - 1]))
      ensures taken && prompt ==> (outcome == Returned <==> ConfirmedSince(log[..|log| - 1]))
    {
      var ok := Transmit(taken);
      if !ok {
        return WriteError;
      }
      outcome := Await(prompt);
    }

    /** `Send` up to the write and what the listening thread does behind it. */
    method Transmit(taken: bool) returns (ok: bool)
      requires Valid() && phase == Free
      modifies this
      ensures Valid() && ok == taken && old(log) < log && written == old(written) + if taken then 1 else 0
      ensures if ok then phase == Written else phase == Free && log[|log| - 1] == Ended(WriteError)
    {
      Clear();
      Listener();
      ok := taken;
      if !ok {
        Finish(Write(false), WriteError);
        return;
      }
      Put();
      Listener();
    }

    /** The socket takes the frame. */
    method Put()
      requires Valid() && phase == Cleared
      modifies this
      ensures Valid() && Abstract() == Step(old(Abstract()), Write(true))
    {
      StepInv(Abstract(), Write(true));
      phase, written := Written, written + 1;
    }

    /** The end of `Send`: the check of the flag and the wait. */
    method Await(prompt: bool) returns (outcome: Outcome)
      requires Valid() && phase == Written
      modifies this
      ensures Valid() && phase == Free && written == old(written)
      ensures old(log) < log && log[|log| - 1] == Ended(outcome)
      ensures outcome != WriteError && (outcome == TimedOut <==> PassedSince(log[..|log| - 1]))
      ensures outcome == Returned ==> ConfirmedSince(log[..|log| - 1])
      ensures prompt ==> (outcome == Returned <==> ConfirmedSince(log[..|log| - 1]))
    {
      if writeConfirmed {
        Finish(Check, Returned);
        return Returned;
      }
      StepInv(Abstract(), Check);
      phase := Waiting;
      outcome := Wait(prompt);
    }

    /** The wait, until the sender has the mutex back. */
    method Wait(prompt: bool) returns (outcome: Outcome)
      requires Valid() && phase == Waiting
      modifies this
      ensures Valid() && phase == Free && written == old(written)
      ensures old(log) < log && log[|log| - 1] == Ended(outcome)
      ensures outcome != WriteError && (outcome == TimedOut <==> PassedSince(log[..|log| - 1]))
      ensures outcome == Returned ==> ConfirmedSince(log[..|log| - 1])
      ensures prompt ==> (outcome == Returned <==> ConfirmedSince(log[..|log| - 1]))
    {
      Listener();
      if writeConfirmed && prompt {
        Finish(Resume, Returned);
        return Returned;
      }
      Pass();
      if !prompt {
        Listener();
      }
      GiveUp();
      outcome := TimedOut;
    }

    /** The deadline has passed, and nothing looks at the flag any more. */
    method GiveUp()
      requires Valid() && phase == Expired
      modifies this
      ensures Valid() && phase == Free && written == old(written)
      ensures log == old(log) + [Ended(TimedOut)] && PassedSince(log[..|log| - 1])
    {
      Finish(Throw, TimedOut);
    }

    /** The start of `Send`, under the mutex of the flag. */
    method Clear()
      requires Valid() && phase == Free
      modifies this
      ensures Valid() && Abstract() == Step(old(Abstract()), Begin)
    {
      StepInv(Abstract(), Begin);
      writeConfirmed, phase, log := false, Cleared, log + [Began];
    }

    /** The deadline passes. */
    ghost method Pass()
      requires Valid() && (phase == Waiting || phase == Woken)
      modifies this`phase, this`log
      ensures Valid() && Abstract() == Step(old(Abstract()), Expire)
    {
      StepInv(Abstract(), Expire);
      phase, log := Expired, log + [Passed(phase.Woken?)];
    }

    ghost method Finish(e: Event, outcome: Outcome)
      requires Valid() && Enabled(Abstract(), e) && Step(Abstract(), e) == End(Abstract(), outcome)
      modifies this`phase, this`log
      ensures Valid() && phase == Free && log == old(log) + [Ended(outcome)]
      ensures RecordOk(old(log), Ended(outcome))
    {
      ghost var next := End(Abstract(), outcome);
      EndRecord(Abstract(), e, outcome);
      phase, log := Free, log + [Ended(outcome)];
      assert Abstract() == next;
    }
  }
}
