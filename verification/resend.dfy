/** Resending on update: when an MQTT update of an output is followed by a frame whose value was read after it. */
module Resend {
  import opened Controller
  import opened ControllerConfig
  import opened ControllerRuns
  import opened Wrappers

  /** A value of channel `k` was read at position `n` of the log or later, and a frame of the channel sent after
      that. (A frame carries the value read last before it: see `StaleIsUndefined`.) */
  ghost predicate Followed(log: seq<Record>, n: nat, k: nat) {
    exists i, j :: n <= i < j < |log| && Is(log[i], AValue(k)) && IsFrame(log[j], k)
  }

  ghost predicate IsFrame(r: Record, k: nat) {
    r.SentOutput? && r.k == k
  }

  ghost predicate ReadSince(log: seq<Record>, n: nat, k: nat) {
    exists i :: n <= i < |log| && Is(log[i], AValue(k))
  }

  ghost predicate Lacks(log: seq<Record>, n: nat, kind: Kind) {
    forall i | n <= i < |log| :: !Is(log[i], kind)
  }

  /** The value for a frame of the channel has been read, and the sending is not yet taken note of. */
  ghost predicate InGap(s: State, k: nat) {
    s.pc.Turn? && s.pc.k == k && (s.pc.stage.Ready? || s.pc.stage.Sent?)
  }

  /** An update with the reading `u` falls between the reading of a value and the postponement after its sending,
      which will take note of a later time; or its reading is not later than that of the last postponement. */
  ghost predicate Masked(s: State, k: nat, u: nat)
    requires k < |s.channels|
  {
    InGap(s, k) || u <= s.channels[k].lastSend
  }

  lemma FollowedGrows(log: seq<Record>, rs: seq<Record>, n: nat, k: nat)
    ensures Followed(log, n, k) ==> Followed(log + rs, n, k)
    ensures ReadSince(log, n, k) ==> ReadSince(log + rs, n, k)
  {
    var all := log + rs;
    if Followed(log, n, k) {
      var i, j :| n <= i < j < |log| && Is(log[i], AValue(k)) && IsFrame(log[j], k);
      assert Is(all[i], AValue(k)) && IsFrame(all[j], k);
    }
    if ReadSince(log, n, k) {
      var i :| n <= i < |log| && Is(log[i], AValue(k));
      assert Is(all[i], AValue(k));
    }
  }

  /** All events up to the end of the turn of output `k` belong to that turn, or are MQTT updates. */
  ghost predicate InTurn(c: Config, s: State, es: seq<Event>, k: nat, now: nat)
    requires WellFormed(c, s) && ValidRun(c, s, es, now)
    decreases es
  {
    if es == [] then s.pc == NextTurn(k)
    else
      && s.pc.Turn? && s.pc.k == k
      && (StepWellFormed(c, s, es[0]); InTurn(c, Step(c, s, es[0]), es[1..], k, Time(es[0], now)))
  }

  /** The window of the channel was closed at its last check. */
  ghost predicate WasClosed(s: State, k: nat)
    requires k < |s.channels|
  {
    LastOf(s.log, ACheck(k)).Some? ==> s.channels[k].sendEnd < LastOf(s.log, ACheck(k)).value.tEnd
  }

  // ----- an update that is not masked -----

  /** What holds from the update on: it is followed; or the value has been read and is about to be sent; or it is
      newer than the last frame, and no value read before it is on its way. */
  ghost predicate Tracked(c: Config, s: State, n: nat, k: nat, u: nat)
    requires WellFormed(c, s) && k < OUTPUT_MAX
  {
    var key := ToString(c.outputs[k]);
    && key in s.lastUpdate && u <= s.lastUpdate[key] && n <= |s.log|
    && (|| Followed(s.log, n, k)
        || (ReadSince(s.log, n, k) && InGap(s, k) && s.pc.stage.Ready?)
        || (s.channels[k].lastSend < u && !InGap(s, k)))
  }

  lemma LogPosition(log: seq<Record>, r: Record, n: nat, k: nat)
    requires n <= |log|
    ensures Is(r, AValue(k)) ==> ReadSince(log + [r], n, k)
    ensures ReadSince(log, n, k) && IsFrame(r, k) ==> Followed(log + [r], n, k)
  {
    var all := log + [r];
    assert all[|log|] == r;
    if ReadSince(log, n, k) && IsFrame(r, k) {
      var i :| n <= i < |log| && Is(log[i], AValue(k));
      assert Is(all[i], AValue(k)) && IsFrame(all[|log|], k);
    }
  }

  lemma TrackedStep(c: Config, s: State, e: Event, n: nat, k: nat, u: nat, now: nat)
    requires WellFormed(c, s) && k < OUTPUT_MAX && Tracked(c, s, n, k, u)
    requires Enabled(s, e) && u <= now <= Time(e, now)
    ensures Tracked(c, Step(c, s, e), n, k, u)
  {
    var rs := Records(c, s, e);
    StepLogs(c, s, e);
    FollowedGrows(s.log, rs, n, k);
    if rs == [] {
      assert s.log + rs == s.log;
    } else {
      assert rs == [rs[0]];
      LogPosition(s.log, rs[0], n, k);
    }
  }

  lemma {:induction false} TrackedRun(c: Config, s: State, es: seq<Event>, n: nat, k: nat, u: nat, now: nat)
    requires WellFormed(c, s) && ValidRun(c, s, es, now) && k < OUTPUT_MAX && Tracked(c, s, n, k, u) && u <= now
    ensures Tracked(c, Run(c, s, es, now), n, k, u)
    decreases es
  {
    if es != [] {
      TrackedStep(c, s, es[0], n, k, u, now);
      TrackedRun(c, Step(c, s, es[0]), es[1..], n, k, u, Time(es[0], now));
    }
  }

  /** In the turn of the channel a tracked update either has a new value chosen or is already followed. */
  ghost predicate TurnTracked(c: Config, s: State, n: nat, k: nat, u: nat)
    requires WellFormed(c, s) && k < OUTPUT_MAX
  {
    && Tracked(c, s, n, k, u)
    && (s.pc.Turn? && s.pc.k == k && s.pc.stage.Unchanged? ==> Followed(s.log, n, k))
    && (s.pc == NextTurn(k) ==> Followed(s.log, n, k) || WasClosed(s, k))
  }

  lemma TurnTrackedStep(c: Config, s: State, e: Event, n: nat, k: nat, u: nat, now: nat)
    requires WellFormed(c, s) && k < OUTPUT_MAX && TurnTracked(c, s, n, k, u) && IsMapped(c, k)
    requires Enabled(s, e) && u <= now <= Time(e, now) && s.pc.Turn? && s.pc.k == k
    ensures TurnTracked(c, Step(c, s, e), n, k, u)
  {
    var rs := Records(c, s, e);
    TrackedStep(c, s, e, n, k, u, now);
    StepLogs(c, s, e);
    FollowedGrows(s.log, rs, n, k);
    if e.CheckEnd? {
      LastAfter(s.log, Checked(k, e.now));
    }
    if rs == [] {
      assert s.log + rs == s.log;
    }
  }

  lemma {:induction false} TurnTrackedRun(c: Config, s: State, es: seq<Event>, n: nat, k: nat, u: nat, now: nat)
    requires WellFormed(c, s) && ValidRun(c, s, es, now) && k < OUTPUT_MAX && IsMapped(c, k)
    requires TurnTracked(c, s, n, k, u) && u <= now && InTurn(c, s, es, k, now)
    ensures Followed(Run(c, s, es, now).log, n, k) || WasClosed(Run(c, s, es, now), k)
    decreases es
  {
    if es != [] {
      TurnTrackedStep(c, s, es[0], n, k, u, now);
      TurnTrackedRun(c, Step(c, s, es[0]), es[1..], n, k, u, Time(es[0], now));
    }
  }

  // ----- an update that is masked -----

  /** What holds from a masked update on while no later one comes. */
  ghost predicate Hidden(c: Config, s: State, k: nat, u: nat)
    requires WellFormed(c, s) && k < OUTPUT_MAX
  {
    ToString(c.outputs[k]) in s.lastUpdate && s.lastUpdate[ToString(c.outputs[k])] == u && Masked(s, k, u)
  }

  lemma HiddenStep(c: Config, s: State, e: Event, k: nat, u: nat, now: nat)
    requires WellFormed(c, s) && k < OUTPUT_MAX && Hidden(c, s, k, u) && s.channels[k].lastSend <= now
    requires Enabled(s, e) && u <= now <= Time(e, now) && !(e.Update? && e.key == ToString(c.outputs[k]))
    ensures Hidden(c, Step(c, s, e), k, u) && Step(c, s, e).channels[k].lastSend <= Time(e, now)
  {
  }

  ghost predicate HasUpdate(es: seq<Event>, key: string) {
    exists e :: e in es && e.Update? && e.key == key
  }

  lemma NoUpdateTail(es: seq<Event>, key: string)
    requires es != [] && !HasUpdate(es, key)
    ensures !HasUpdate(es[1..], key) && !(es[0].Update? && es[0].key == key)
  {
    assert es[0] in es;
    assert forall e | e in es[1..] :: e in es;
  }

  lemma {:induction false} HiddenRun(c: Config, s: State, es: seq<Event>, k: nat, u: nat, now: nat)
    requires WellFormed(c, s) && ValidRun(c, s, es, now) && k < OUTPUT_MAX && Hidden(c, s, k, u) && u <= now
    requires s.channels[k].lastSend <= now && !HasUpdate(es, ToString(c.outputs[k]))
    ensures Hidden(c, Run(c, s, es, now), k, u) && u <= Now(es, now)
    decreases es
  {
    if es != [] {
      NoUpdateTail(es, ToString(c.outputs[k]));
      HiddenStep(c, s, es[0], k, u, now);
      HiddenRun(c, Step(c, s, es[0]), es[1..], k, u, Time(es[0], now));
    }
  }

  lemma {:induction false} ClockAdvances(c: Config, s: State, es: seq<Event>, now: nat)
    requires WellFormed(c, s) && ValidRun(c, s, es, now)
    ensures now <= Now(es, now)
    decreases es
  {
    if es != [] {
      ClockAdvances(c, Step(c, s, es[0]), es[1..], Time(es[0], now));
    }
  }

  /** In a turn that finds the update hidden and the next frame not due nothing is read. */
  ghost predicate Skipping(c: Config, s: State, k: nat, u: nat)
    requires WellFormed(c, s) && k < OUTPUT_MAX
  {
    && ToString(c.outputs[k]) in s.lastUpdate && s.lastUpdate[ToString(c.outputs[k])] == u <= s.channels[k].lastSend
    && (s.pc.Turn? && s.pc.k == k ==> s.pc.stage.Start? || s.pc.stage.Open? || s.pc.stage.Unchanged?)
  }

  lemma SkippingStep(c: Config, s: State, e: Event, n: nat, k: nat, u: nat, now: nat)
    requires WellFormed(c, s) && k < OUTPUT_MAX && Skipping(c, s, k, u) && s.pc.Turn? && s.pc.k == k
    requires Enabled(s, e) && Time(e, now) < s.channels[k].sendTime
    requires !(e.Update? && e.key == ToString(c.outputs[k])) && n <= |s.log| && Lacks(s.log, n, AValue(k))
    ensures Skipping(c, Step(c, s, e), k, u) && Step(c, s, e).channels[k] == s.channels[k]
    ensures n <= |Step(c, s, e).log| && Lacks(Step(c, s, e).log, n, AValue(k))
  {
    StepLogs(c, s, e);
  }

  lemma {:induction false} SkippingRun(c: Config, s: State, es: seq<Event>, n: nat, k: nat, u: nat, now: nat)
    requires WellFormed(c, s) && ValidRun(c, s, es, now) && k < OUTPUT_MAX && InTurn(c, s, es, k, now)
    requires Skipping(c, s, k, u) && Now(es, now) < s.channels[k].sendTime
    requires !HasUpdate(es, ToString(c.outputs[k])) && n <= |s.log| && Lacks(s.log, n, AValue(k))
    ensures Lacks(Run(c, s, es, now).log, n, AValue(k))
    decreases es
  {
    if es != [] {
      NoUpdateTail(es, ToString(c.outputs[k]));
      StepWellFormed(c, s, es[0]);
      ClockAdvances(c, Step(c, s, es[0]), es[1..], Time(es[0], now));
      SkippingStep(c, s, es[0], n, k, u, now);
      SkippingRun(c, Step(c, s, es[0]), es[1..], n, k, u, Time(es[0], now));
    }
  }

  // ----- the law -----

  /** An update of output `k` at a reachable state, any run up to the start of a turn of that output, and the turn. */
  ghost predicate Scenario(c: Config, s: State, now: nat, e: Event, between: seq<Event>, turn: seq<Event>, k: nat) {
    && WellFormed(c, s) && k < OUTPUT_MAX && IsMapped(c, k)
    && e.Update? && e.key == ToString(c.outputs[k]) && now <= e.now
    && ValidRun(c, Step(c, s, e), between, e.now)
    && var g := Run(c, Step(c, s, e), between, e.now);
    && g.pc == Turn(k, Start) && ValidRun(c, g, turn, Now(between, e.now)) && InTurn(c, g, turn, k, Now(between, e.now))
  }

  ghost function TurnStart(c: Config, s: State, now: nat, e: Event, between: seq<Event>, turn: seq<Event>,
                           k: nat): State
    requires Scenario(c, s, now, e, between, turn, k)
  {
    Run(c, Step(c, s, e), between, e.now)
  }

  ghost function TurnEnd(c: Config, s: State, now: nat, e: Event, between: seq<Event>, turn: seq<Event>, k: nat): State
    requires Scenario(c, s, now, e, between, turn, k)
  {
    Run(c, TurnStart(c, s, now, e, between, turn, k), turn, Now(between, e.now))
  }

  /** Nothing else makes the turn send: the value has not been read since the update when the turn begins, no later
      update comes, and the turn ends before the next frame is due without one. */
  ghost predicate NoOtherReason(c: Config, s: State, now: nat, e: Event, between: seq<Event>, turn: seq<Event>, k: nat)
    requires Scenario(c, s, now, e, between, turn, k)
  {
    var g := TurnStart(c, s, now, e, between, turn, k);
    && |s.log| <= |g.log| && Lacks(g.log, |s.log|, AValue(k))
    && !HasUpdate(between, e.key) && !HasUpdate(turn, e.key)
    && Now(turn, Now(between, e.now)) < g.channels[k].sendTime
  }

  lemma UnmaskedIsFollowed(c: Config, s: State, start: nat, now: nat, e: Event, between: seq<Event>, turn: seq<Event>,
                           k: nat)
    requires Inv(c, s, start, now) && Scenario(c, s, now, e, between, turn, k) && !Masked(s, k, e.now)
    requires !WasClosed(TurnEnd(c, s, now, e, between, turn, k), k)
    ensures Followed(TurnEnd(c, s, now, e, between, turn, k).log, |s.log|, k)
  {
    var g := TurnStart(c, s, now, e, between, turn, k);
    assert IsTimed(c, c.outputs[k]);
    StepWellFormed(c, s, e);
    ClockAdvances(c, Step(c, s, e), between, e.now);
    TrackedRun(c, Step(c, s, e), between, |s.log|, k, e.now, e.now);
    TurnTrackedRun(c, g, turn, |s.log|, k, e.now, Now(between, e.now));
  }

  lemma MaskedIsNotFollowed(c: Config, s: State, start: nat, now: nat, e: Event, between: seq<Event>,
                            turn: seq<Event>, k: nat)
    requires Inv(c, s, start, now) && Scenario(c, s, now, e, between, turn, k) && Masked(s, k, e.now)
    requires NoOtherReason(c, s, now, e, between, turn, k)
    ensures !Followed(TurnEnd(c, s, now, e, between, turn, k).log, |s.log|, k)
  {
    var g := TurnStart(c, s, now, e, between, turn, k);
    assert IsTimed(c, c.outputs[k]);
    assert TimersOk(c, s, k, start, now);
    StepWellFormed(c, s, e);
    HiddenRun(c, Step(c, s, e), between, k, e.now, e.now);
    SkippingRun(c, g, turn, |s.log|, k, e.now, Now(between, e.now));
  }

  /** Resending on update, over every run. Let an MQTT update of a mapped output
      come at any moment, and take any later turn of the output in which its window is open.

      If the update is not masked, a frame whose value was read after the update has been sent by the end of that turn,
      whatever else happens. If it is masked and there is no other reason to send, none has. So without another reason
      an update is followed by a new frame exactly if it did not fall between the reading of a value and the
      postponement after its sending, or on the reading of that postponement. */
  lemma ResendOnUpdate(c: Config, s0: State, start: nat, before: seq<Event>, e: Event, between: seq<Event>,
                       turn: seq<Event>, k: nat)
    requires Entered(c, s0, start) && ValidRun(c, s0, before, start)
    requires var s, now := Run(c, s0, before, start), Now(before, start);
             Scenario(c, s, now, e, between, turn, k) && !WasClosed(TurnEnd(c, s, now, e, between, turn, k), k)
    ensures var s, now := Run(c, s0, before, start), Now(before, start);
            var f := TurnEnd(c, s, now, e, between, turn, k);
            && (!Masked(s, k, e.now) ==> Followed(f.log, |s.log|, k))
            && (NoOtherReason(c, s, now, e, between, turn, k) ==>
               (Followed(f.log, |s.log|, k) <==> !Masked(s, k, e.now)))
  {
    EnteredInv(c, s0, start);
    RunInv(c, s0, before, start, start);
    var s, now := Run(c, s0, before, start), Now(before, start);
    if !Masked(s, k, e.now) {
      UnmaskedIsFollowed(c, s, start, now, e, between, turn, k);
    } else if NoOtherReason(c, s, now, e, between, turn, k) {
      MaskedIsNotFollowed(c, s, start, now, e, between, turn, k);
    }
  }
}
