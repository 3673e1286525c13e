/** A run of a loaded controller in which an MQTT update of an output with an open window is missed by the next pass:
    it comes between the reading of the value and the end of its sending. */
module MissedUpdate {
  import opened Controller
  import opened ControllerConfig
  import opened ControllerRuns
  import opened Conventions
  import opened Resend
  import opened Wrappers

  const CHANNEL := "d/c"
  const JSON := ControllerConfig.Controller(10, None, Some([Sensor(CHANNEL, 1, None)]), None)

  /** The controller is loaded at reading 1 and enters its loop at reading 2. */
  const CLOCK: nat -> nat := (i: nat) => 1

  function Outputs(): seq<Channel> {
    seq(OUTPUT_MAX, i requires 0 <= i < OUTPUT_MAX => NO_CHANNEL)[0 := Channel("d", "c")]
  }

  function Loaded(): Config {
    Config(10, map[SensorKey(1) := Channel("d", "c")], map[CHANNEL := Timing(1, -1)], Outputs(), 2)
  }

  lemma LoadIt()
    ensures Load(JSON, CLOCK) == Ok(Loaded())
  {
    var s := Sensor(CHANNEL, 1, None);
    assert CHANNEL[0] == 'd' && CHANNEL[1] == '/' && CHANNEL[1..][0] == '/';
    assert FindSlash(CHANNEL[1..]) == 0 && FindSlash(CHANNEL) == 1;
    assert CHANNEL[..1] == "d" && CHANNEL[2..] == "c";
    assert FromString(CHANNEL) == Some(Channel("d", "c"));
    assert [s][..0] == [];
    assert AddSensors(EmptyConfig(10), [], CLOCK) == Ok(EmptyConfig(10));
    var r := AddSensor(EmptyConfig(10), s, 1);
    assert AddSensors(EmptyConfig(10), [s], CLOCK) == r;
    assert r == Ok(Loaded());
    assert AddParams(Loaded(), [], None, 1, CLOCK) == Ok(Loaded());
  }

  // ----- composing runs -----

  lemma Next(c: Config, s: State, e: Event, es: seq<Event>, now: nat)
    requires WellFormed(c, s) && Enabled(s, e) && now <= Time(e, now)
    requires WellFormed(c, Step(c, s, e)) && ValidRun(c, Step(c, s, e), es, Time(e, now))
    ensures ValidRun(c, s, [e] + es, now)
    ensures Run(c, s, [e] + es, now) == Run(c, Step(c, s, e), es, Time(e, now))
    ensures Now([e] + es, now) == Now(es, Time(e, now))
  {
    assert ([e] + es)[1..] == es;
  }

  lemma Two(c: Config, s: State, e: Event, f: Event, now: nat)
    requires WellFormed(c, s) && Enabled(s, e) && now <= Time(e, now) && WellFormed(c, Step(c, s, e))
    requires Enabled(Step(c, s, e), f) && Time(e, now) <= Time(f, Time(e, now)) &&
             WellFormed(c, Step(c, Step(c, s, e), f))
    ensures ValidRun(c, s, [e, f], now) && Now([e, f], now) == Time(f, Time(e, now))
    ensures Run(c, s, [e, f], now) == Step(c, Step(c, s, e), f)
  {
    Next(c, Step(c, s, e), f, [], Time(e, now));
    Next(c, s, e, [f], now);
    assert [e] + [f] == [e, f];
  }

  lemma {:induction false} RunConcat(c: Config, s: State, a: seq<Event>, b: seq<Event>, now: nat)
    requires WellFormed(c, s) && ValidRun(c, s, a, now) && ValidRun(c, Run(c, s, a, now), b, Now(a, now))
    ensures ValidRun(c, s, a + b, now)
    ensures Run(c, s, a + b, now) == Run(c, Run(c, s, a, now), b, Now(a, now))
    ensures Now(a + b, now) == Now(b, Now(a, now))
    decreases a
  {
    if a == [] {
      assert a + b == b;
    } else {
      assert (a + b)[1..] == a[1..] + b && (a + b)[0] == a[0];
      StepWellFormed(c, s, a[0]);
      RunConcat(c, Step(c, s, a[0]), a[1..], b, Time(a[0], now));
    }
  }

  /** The same state with some other records in its log. */
  ghost predicate SameBut(s: State, t: State) {
    t == s.(pc := t.pc, log := t.log)
  }

  /** The turns of the outputs from `j` on, none of them mapped. */
  lemma {:induction false} SkipTurns(c: Config, s: State, j: nat, now: nat) returns (es: seq<Event>)
    requires WellFormed(c, s) && 0 < j <= OUTPUT_MAX && s.pc == NextTurn(j - 1)
    requires forall k | 0 < k < OUTPUT_MAX :: !IsMapped(c, k)
    ensures ValidRun(c, s, es, now) && Now(es, now) == now && forall e | e in es :: e.CheckEnd?
    ensures var f := Run(c, s, es, now);
            f.pc.Beat? && SameBut(s, f) && s.log <= f.log && forall i | |s.log| <= i < |f.log| :: f.log[i].Checked?
    decreases OUTPUT_MAX - j
  {
    if j == OUTPUT_MAX {
      es := [];
    } else {
      var e := CheckEnd(now);
      var s' := Step(c, s, e);
      assert !IsMapped(c, j);
      var rest := SkipTurns(c, s', j + 1, now);
      Next(c, s, e, rest, now);
      es := [e] + rest;
      assert s'.log == s.log + [Checked(j, now)];
      var f := Run(c, s, es, now);
      forall i | |s.log| <= i < |f.log|
        ensures f.log[i].Checked?
      {
        assert i < |s'.log| ==> f.log[i] == s'.log[i];
      }
    }
  }

  // ----- up to the reading of the value -----

  /** Output 0 is the only one that is mapped, and its value never becomes stale. */
  ghost predicate OneOutput(c: Config, key: string) {
    && |c.outputs| == OUTPUT_MAX && IsMapped(c, 0) && ToString(c.outputs[0]) == key
    && (forall k | 0 < k < OUTPUT_MAX :: !IsMapped(c, k))
    && c.timing.Keys == {key} && c.timing[key].timeoutMin < 0 && c.timing[key].lastUpdate == 1
  }

  /** A request for output 0 of the controller. */
  ghost predicate AsksFor0(c: Config, frame: CanFrame) {
    && Header(frame.canId).programType == PT_CONTROLLER && Header(frame.canId).functionId == GET_OUTPUT_VALUE
    && frame.data[0] == c.programId && frame.data[1] == 0
  }

  lemma RequestSchedules(c: Config, key: string, lastUpdate: map<string, nat>, frame: CanFrame, t: nat, value: Int16)
    requires OneOutput(c, key) && AsksFor0(c, frame)
    ensures ActionFor(c, lastUpdate, frame, t, value) == Schedule(0, MappingPoint(c.programId, 0, 0))
  {
  }

  function Opening(frame: CanFrame): seq<Event> {
    [Receive(frame, 2), Handle(2, 0, 0), Extend(2), CheckEnd(2), SeeUpdate, CheckStale(2), ReadDriver(5)]
  }

  /** The value of the output has been read and will be sent. */
  ghost predicate AtGap(s: State, key: string) {
    && s.status.Running? && s.pc == Turn(0, Ready(Check(2, 1, None), 5))
    && s.hereTime == 2 && s.resetTime == 2 + CONNECTION_TIMEOUT
    && |s.channels| == OUTPUT_MAX && s.channels[0].sendEnd == 2 + SEND_MESSAGES_TIME && s.channels[0].lastSend == 0
    && key in s.lastUpdate
  }

  /** The request is taken note of, and the turn of output 0 begins. */
  ghost predicate AtTurn(c: Config, s: State, key: string) {
    && WellFormed(c, s) && s.status.Running? && s.pc == FIRST_TURN
    && s.hereTime == 2 && s.resetTime == 2 + CONNECTION_TIMEOUT
    && s.channels[0].sendEnd == 2 + SEND_MESSAGES_TIME && s.channels[0].lastSend == 0
    && key in s.lastUpdate && s.lastUpdate[key] == 1
  }

  const VALUE_READ := [CheckEnd(2), SeeUpdate, CheckStale(2), ReadDriver(5)]

  lemma ToTurn(c: Config, key: string, s: State, frame: CanFrame)
    requires OneOutput(c, key) && AsksFor0(c, frame) && Init(c, s, 2)
    ensures var es := [Receive(frame, 2), Handle(2, 0, 0), Extend(2)];
            ValidRun(c, s, es, 2) && Now(es, 2) == 2 && AtTurn(c, Run(c, s, es, 2), key)
  {
    RequestSchedules(c, key, s.lastUpdate, frame, 2, 0);
    var s1 := Step(c, s, Receive(frame, 2));
    var s2 := Step(c, s1, Handle(2, 0, 0));
    Next(c, s2, Extend(2), [], 2);
    Next(c, s1, Handle(2, 0, 0), [Extend(2)], 2);
    Next(c, s, Receive(frame, 2), [Handle(2, 0, 0), Extend(2)], 2);
  }

  lemma ToValue(c: Config, key: string, s: State)
    requires OneOutput(c, key) && AtTurn(c, s, key)
    ensures ValidRun(c, s, VALUE_READ, 2) && Now(VALUE_READ, 2) == 2 && AtGap(Run(c, s, VALUE_READ, 2), key)
  {
    var s1 := Step(c, s, CheckEnd(2));
    var s2 := Step(c, s1, SeeUpdate);
    var s3 := Step(c, s2, CheckStale(2));
    assert s1.pc == Turn(0, Open(2)) && s2.pc == Turn(0, Chosen(Check(2, 1, None)));
    assert s3.pc == Turn(0, Fresh(Check(2, 1, None), 2));
    Next(c, s3, ReadDriver(5), [], 2);
    Next(c, s2, CheckStale(2), [ReadDriver(5)], 2);
    Next(c, s1, SeeUpdate, [CheckStale(2), ReadDriver(5)], 2);
    Next(c, s, CheckEnd(2), [SeeUpdate, CheckStale(2), ReadDriver(5)], 2);
  }

  lemma ToGap(c: Config, key: string, s: State, frame: CanFrame)
    requires OneOutput(c, key) && AsksFor0(c, frame) && Init(c, s, 2)
    ensures ValidRun(c, s, Opening(frame), 2) && Now(Opening(frame), 2) == 2
    ensures AtGap(Run(c, s, Opening(frame), 2), key)
  {
    var es := [Receive(frame, 2), Handle(2, 0, 0), Extend(2)];
    ToTurn(c, key, s, frame);
    ToValue(c, key, Run(c, s, es, 2));
    RunConcat(c, s, es, VALUE_READ, 2);
    assert es + VALUE_READ == Opening(frame);
  }

  // ----- the update, the rest of the pass and the next turn -----

  /** The next turn of output 0 begins, and since position `n` of the log no value of it has been read. */
  ghost predicate NextPass(f: State, key: string, n: nat) {
    && f.pc == Turn(0, Start) && f.status.Running?
    && |f.channels| == OUTPUT_MAX && f.channels[0].sendTime == 4 + SEND_MESSAGES_INTERVAL
    && f.channels[0].lastSend == 4 && f.channels[0].sendEnd == 2 + SEND_MESSAGES_TIME
    && key in f.lastUpdate && f.lastUpdate[key] == 3 && n <= |f.log| && Lacks(f.log, n, AValue(0))
  }

  lemma LacksGrows(log: seq<Record>, all: seq<Record>, n: nat, kind: Kind)
    requires log <= all && Lacks(log, n, kind) && forall i | |log| <= i < |all| :: !Is(all[i], kind)
    ensures Lacks(all, n, kind)
  {
    forall i | n <= i < |all|
      ensures !Is(all[i], kind)
    {
      assert i < |log| ==> all[i] == log[i];
    }
  }

  /** The turn in which the update falls has ended. */
  ghost predicate TurnEnded(f: State, key: string, n: nat) {
    && f.pc == NextTurn(0) && f.status.Running? && f.hereTime == 2 && f.resetTime == 2 + CONNECTION_TIMEOUT
    && |f.channels| == OUTPUT_MAX && f.channels[0].sendTime == 4 + SEND_MESSAGES_INTERVAL
    && f.channels[0].lastSend == 4 && f.channels[0].sendEnd == 2 + SEND_MESSAGES_TIME
    && key in f.lastUpdate && f.lastUpdate[key] == 3 && n <= |f.log| && Lacks(f.log, n, AValue(0))
  }

  lemma EndOfTurn(c: Config, key: string, s: State)
    requires OneOutput(c, key) && AtGap(s, key) && WellFormed(c, s)
    ensures var t := Step(c, s, Update(key, 3));
            && WellFormed(c, t) && ValidRun(c, t, [Transmit(0), Postpone(4)], 3)
            && Now([Transmit(0), Postpone(4)], 3) == 4
            && TurnEnded(Run(c, t, [Transmit(0), Postpone(4)], 3), key, |s.log|)
  {
    var t := Step(c, s, Update(key, 3));
    var s1 := Step(c, t, Transmit(0));
    Two(c, t, Transmit(0), Postpone(4), 3);
    GapStates(c, key, s);
  }

  lemma GapStates(c: Config, key: string, s: State)
    requires OneOutput(c, key) && AtGap(s, key) && WellFormed(c, s)
    ensures var s1 := Step(c, Step(c, s, Update(key, 3)), Transmit(0));
            s1.pc == Turn(0, Sent) && TurnEnded(Step(c, s1, Postpone(4)), key, |s.log|)
  {
    var s2 := Step(c, Step(c, Step(c, s, Update(key, 3)), Transmit(0)), Postpone(4));
    assert |s2.log| == |s.log| + 3;
  }

  lemma EndOfPass(c: Config, key: string, s: State, n: nat) returns (es: seq<Event>)
    requires OneOutput(c, key) && WellFormed(c, s) && TurnEnded(s, key, n)
    ensures ValidRun(c, s, es, 4) && Now(es, 4) == 5 && forall e | e in es :: !e.Update?
    ensures NextPass(Run(c, s, es, 4), key, n)
  {
    var skips := SkipTurns(c, s, 1, 4);
    var s1 := Run(c, s, skips, 4);
    var end := [CheckHere(4), Speak(4, 0), Silence(5)];
    LacksGrows(s.log, s1.log, n, AValue(0));
    ToNextPass(c, s1);
    LacksGrows(s1.log, Run(c, s1, end, 4).log, n, AValue(0));
    RunConcat(c, s, skips, end, 4);
    es := skips + end;
  }

  lemma RestOfPass(c: Config, key: string, s: State) returns (es: seq<Event>)
    requires OneOutput(c, key) && AtGap(s, key) && WellFormed(c, s)
    ensures WellFormed(c, Step(c, s, Update(key, 3)))
    ensures ValidRun(c, Step(c, s, Update(key, 3)), es, 3) && Now(es, 3) == 5 && forall e | e in es :: !e.Update?
    ensures NextPass(Run(c, Step(c, s, Update(key, 3)), es, 3), key, |s.log|)
  {
    var t, end := Step(c, s, Update(key, 3)), [Transmit(0), Postpone(4)];
    EndOfTurn(c, key, s);
    var rest := EndOfPass(c, key, Run(c, t, end, 3), |s.log|);
    RunConcat(c, t, end, rest, 3);
    es := end + rest;
  }

  lemma ToNextPass(c: Config, s: State)
    requires WellFormed(c, s) && s.pc.Beat? && s.status.Running? && s.hereTime <= 4 && 5 < s.resetTime
    ensures var end := [CheckHere(4), Speak(4, 0), Silence(5)];
            && ValidRun(c, s, end, 4) && Now(end, 4) == 5
            && var f := Run(c, s, end, 4);
            && f.pc == Turn(0, Start) && f.status == s.status && f.channels == s.channels &&
               f.lastUpdate == s.lastUpdate
            && s.log <= f.log && forall i | |s.log| <= i < |f.log| :: f.log[i].BeatChecked? || f.log[i].Here?
  {
    var s1 := Step(c, s, CheckHere(4));
    var s2 := Step(c, s1, Speak(4, 0));
    Next(c, s2, Silence(5), [], 4);
    Next(c, s1, Speak(4, 0), [Silence(5)], 4);
    Next(c, s, CheckHere(4), [Speak(4, 0), Silence(5)], 4);
  }

  const TURN := [CheckEnd(6), SeeUpdate, CheckTime(7)]

  lemma SkippedTurn(c: Config, key: string, s: State, n: nat)
    requires OneOutput(c, key) && NextPass(s, key, n)
    ensures WellFormed(c, s) && ValidRun(c, s, TURN, 5) && InTurn(c, s, TURN, 0, 5) && Now(TURN, 5) == 7
    ensures !WasClosed(Run(c, s, TURN, 5), 0)
  {
    var s1 := Step(c, s, CheckEnd(6));
    var rest := [SeeUpdate, CheckTime(7)];
    SkippedStates(c, key, s, n);
    Two(c, s1, SeeUpdate, CheckTime(7), 6);
    Next(c, s, CheckEnd(6), rest, 5);
    TurnOfThree(c, s1);
    assert TURN == [CheckEnd(6)] + rest && TURN[1..] == rest;
  }

  lemma SkippedStates(c: Config, key: string, s: State, n: nat)
    requires OneOutput(c, key) && NextPass(s, key, n)
    ensures WellFormed(c, s) && Step(c, s, CheckEnd(6)).pc == Turn(0, Open(6))
    ensures var s1 := Step(c, s, CheckEnd(6));
            var s2 := Step(c, s1, SeeUpdate);
            && s2.pc == Turn(0, Unchanged(6, 3))
            && var s3 := Step(c, s2, CheckTime(7));
            && s3.pc == NextTurn(0) && !WasClosed(s3, 0)
  {
    LastAfter(s.log, Checked(0, 6));
  }

  lemma TurnOfThree(c: Config, s: State)
    requires WellFormed(c, s) && s.pc == Turn(0, Open(6)) && Step(c, s, SeeUpdate).pc == Turn(0, Unchanged(6, 3))
    requires Step(c, Step(c, s, SeeUpdate), CheckTime(7)).pc == NextTurn(0)
    ensures var rest := [SeeUpdate, CheckTime(7)]; ValidRun(c, s, rest, 6) && InTurn(c, s, rest, 0, 6)
  {
    var s2 := Step(c, s, SeeUpdate);
    Two(c, s, SeeUpdate, CheckTime(7), 6);
    assert [SeeUpdate, CheckTime(7)][1..] == [CheckTime(7)] && [CheckTime(7)][1..] == [];
    assert InTurn(c, Step(c, s2, CheckTime(7)), [], 0, 7);
    assert InTurn(c, s2, [CheckTime(7)], 0, 6);
  }

  lemma MissedFrom(c: Config, key: string, s: State) returns (between: seq<Event>)
    requires OneOutput(c, key) && AtGap(s, key) && Inv(c, s, 2, 2)
    ensures Scenario(c, s, 2, Update(key, 3), between, TURN, 0)
    ensures var f := TurnEnd(c, s, 2, Update(key, 3), between, TURN, 0);
            !WasClosed(f, 0) && !Followed(f.log, |s.log|, 0)
  {
    between := RestOfPass(c, key, s);
    var g := Run(c, Step(c, s, Update(key, 3)), between, 3);
    SkippedTurn(c, key, g, |s.log|);
    assert !HasUpdate(TURN, key) && !HasUpdate(between, key);
    MaskedIsNotFollowed(c, s, 2, 2, Update(key, 3), between, TURN, 0);
  }

  // ----- the loaded controller -----

  lemma LoadedHasOneOutput()
    ensures OneOutput(Loaded(), CHANNEL) && Loaded().programId == 10
  {
    assert ToString(Channel("d", "c")) == CHANNEL;
    var c := Loaded();
    assert c.outputs[0] == Channel("d", "c");
    forall k | 0 < k < OUTPUT_MAX
      ensures !IsMapped(c, k)
    {
      assert c.outputs[k] == NO_CHANNEL;
    }
  }

  /** The update of the output comes at reading 3, between the reading of its value and the postponement at reading 4.
      The next pass checks the output at reading 6, with its window open for ten minutes, and does not send it. */
  lemma UpdateMissed(c: Config, s0: State, frame: CanFrame) returns (between: seq<Event>)
    requires Load(JSON, CLOCK) == Ok(c) && Init(c, s0, 2) && AsksFor0(c, frame)
    ensures AtEntry(Load(JSON, CLOCK).value, c, 2) && Entered(c, s0, 2)
    ensures ValidRun(c, s0, Opening(frame), 2) && Now(Opening(frame), 2) == 2
    ensures var s := Run(c, s0, Opening(frame), 2);
            && Scenario(c, s, 2, Update(CHANNEL, 3), between, TURN, 0)
            && var f := TurnEnd(c, s, 2, Update(CHANNEL, 3), between, TURN, 0);
            !WasClosed(f, 0) && !Followed(f.log, |s.log|, 0)
  {
    LoadIt();
    LoadedHasOneOutput();
    LoadedBefore(JSON, CLOCK, 2);
    LoadedEnters(JSON, CLOCK, c, s0, 2);
    ToGap(c, CHANNEL, s0, frame);
    EnteredInv(c, s0, 2);
    RunInv(c, s0, Opening(frame), 2, 2);
    between := MissedFrom(c, CHANNEL, Run(c, s0, Opening(frame), 2));
  }
}
