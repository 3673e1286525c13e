/** The object `TMqttToSmartWebGateway`, whose loop is proved to run the step system of module
    Controller. Its history is kept in ghost fields: the state is always what a valid run made of the
    state in which the loop was entered. */
module ControllerGateway {
  import opened Controller
  import opened ControllerConfig
  import opened ControllerRuns
  import opened Conventions
  import opened Wrappers

  lemma {:induction false} RunSnoc(c: Config, s: State, es: seq<Event>, now: nat, e: Event)
    requires WellFormed(c, s) && ValidRun(c, s, es, now)
    requires Enabled(Run(c, s, es, now), e) && Now(es, now) <= Time(e, Now(es, now))
    ensures ValidRun(c, s, es + [e], now)
    ensures Run(c, s, es + [e], now) == Step(c, Run(c, s, es, now), e)
    ensures Now(es + [e], now) == Time(e, Now(es, now))
    decreases es
  {
    if es == [] {
      assert ([] + [e])[1..] == [];
    } else {
      assert (es + [e])[1..] == es[1..] + [e];
      StepWellFormed(c, s, es[0]);
      RunSnoc(c, Step(c, s, es[0]), es[1..], Time(es[0], now), e);
    }
  }

  /** The configuration with these update times. */
  function WithUpdates(c: Config, times: map<string, nat>): Config
    requires c.timing.Keys <= times.Keys
  {
    c.(timing := map key | key in c.timing :: Timing(times[key], c.timing[key].timeoutMin))
  }

  lemma StillRunnable(loaded: Config, c: Config, now: nat)
    requires Runnable(loaded) && AtEntry(loaded, c, now)
    ensures Runnable(c)
  {
  }

  /** The frames that are for this controller. */
  function Mine(c: Config, frames: seq<CanFrame>): seq<CanFrame> {
    if frames == [] then []
    else (if IsForMe(c, frames[0]) then [frames[0]] else []) + Mine(c, frames[1..])
  }

  lemma {:induction false} MineSnoc(c: Config, frames: seq<CanFrame>, frame: CanFrame)
    ensures Mine(c, frames + [frame]) == Mine(c, frames) + (if IsForMe(c, frame) then [frame] else [])
  {
    if frames == [] {
      assert ([] + [frame])[1..] == [];
    } else {
      assert (frames + [frame])[1..] == frames[1..] + [frame];
      MineSnoc(c, frames[1..], frame);
    }
  }

  class MqttToSmartWebGateway {
    const config: Config
    const outputMapping: array<Timers>
    var status: Status
    var sendIAmHereTime: nat
    var resetConnectionTime: nat
    var lastUpdate: map<string, nat>
    var canFrames: seq<CanFrame>
    var clock: nat
    ghost var pc: Pc
    ghost var log: seq<Record>
    ghost const initial: State
    ghost const start: nat
    ghost var trace: seq<Event>

    ghost function Abstract(): State
      reads this, outputMapping
    {
      State(status, pc, sendIAmHereTime, resetConnectionTime, outputMapping[..], lastUpdate, log)
    }

    /** The object is where a valid run from the start of the loop has brought it. */
    ghost predicate Valid()
      reads this, outputMapping
    {
      && Entered(config, initial, start)
      && ValidRun(config, initial, trace, start)
      && Abstract() == Run(config, initial, trace, start)
      && Now(trace, start) <= clock
      && (forall f | f in canFrames :: IsForMe(config, f))
    }

    /** The object when its loop is entered at the reading `now`. `times` are the times of the last updates by then,
        which the handler of MQTT value events may have moved on since `loaded` was loaded. */
    constructor (loaded: Config, times: map<string, nat>, now: nat)
      requires Runnable(loaded) && 0 < now && times.Keys == loaded.timing.Keys
      requires forall key | key in times :: loaded.timing[key].lastUpdate <= times[key] <= now
      ensures Valid() && config == WithUpdates(loaded, times) && AtEntry(loaded, config, now)
      ensures start == now && trace == [] && Init(config, Abstract(), now) && canFrames == [] && lastUpdate == times
      ensures fresh(outputMapping)
    {
      var c := WithUpdates(loaded, times);
      StillRunnable(loaded, c, now);
      config := c;
      var outputs := new Timers[OUTPUT_MAX](_ => Timers(0, 0, 0, MappingPoint(0, 0, 0)));
      outputMapping := outputs;
      status, sendIAmHereTime, resetConnectionTime := Idle, now, 0;
      lastUpdate := times;
      canFrames, clock, pc, log, trace := [], now, Waiting, [], [];
      start := now;
      initial := State(Idle, Waiting, now, 0, outputs[..], times, []);
    }

    /** `steady_clock::now()`: any reading that is not earlier than the last one. */
    method ReadClock() returns (t: nat)
      modifies this`clock
      ensures old(clock) <= t == clock
    {
      var passed: nat :| passed >= 0;
      clock := clock + passed;
      t := clock;
    }

    /** Account for the event that the fields have just been changed by. */
    ghost method Account(before: State, e: Event)
      requires Entered(config, initial, start)
      requires ValidRun(config, initial, trace, start) && before == Run(config, initial, trace, start)
      requires Enabled(before, e) && Now(trace, start) <= Time(e, Now(trace, start)) <= clock
      requires Abstract() == Step(config, before, e)
      requires forall f | f in canFrames :: IsForMe(config, f)
      modifies this`trace
      ensures Valid() && trace == old(trace) + [e]
    {
      RunSnoc(config, initial, trace, start, e);
      trace := trace + [e];
    }

    /** The handler of MQTT value events, called from another thread. */
    method OnControlValue(deviceControl: string)
      requires Valid()
      modifies this
      ensures Valid() && exists t :: trace == old(trace) + [Update(deviceControl, t)]
      ensures pc == old(pc) && status == old(status) && canFrames == old(canFrames)
    {
      ghost var before := Abstract();
      var t := ReadClock();
      if deviceControl in lastUpdate {
        lastUpdate := lastUpdate[deviceControl := t];
        log := log + [Updated(deviceControl, t)];
      }
      Account(before, Update(deviceControl, t));
    }

    /** `Handle`, called from the thread that listens to the bus. */
    method Handle(frame: CanFrame) returns (taken: bool)
      requires Valid()
      modifies this`canFrames
      ensures Valid() && taken == IsForMe(config, frame)
      ensures canFrames == if taken then old(canFrames) + [frame] else old(canFrames)
    {
      if !IsForMe(config, frame) {
        return false;
      }
      canFrames := canFrames + [frame];
      taken := true;
    }

    /** Any number of MQTT value events and of frames from the bus. */
    method OtherThreads()
      requires Valid()
      modifies this
      ensures Valid() && old(trace) <= trace && pc == old(pc) && status == old(status) && old(canFrames) <= canFrames
      ensures forall e | e in trace[|old(trace)|..] :: e.Update?
    {
      var n: nat :| n >= 0;
      for i := 0 to n
        invariant Valid() && old(trace) <= trace && pc == old(pc) && status == old(status)
        invariant old(canFrames) <= canFrames && forall e | e in trace[|old(trace)|..] :: e.Update?
      {
        var deviceControl: string, frame: CanFrame := *, *;
        OnControlValue(deviceControl);
        var _ := Handle(frame);
      }
    }

    lemma Promises()
      requires Valid()
      ensures Inv(config, Abstract(), start, Now(trace, start)) && HistoryOk(config, log)
    {
      EnteredInv(config, initial, start);
      RunInv(config, initial, trace, start, start);
    }

    /** What the bus delivers. */
    method HandleAll(frames: seq<CanFrame>)
      requires Valid()
      modifies this`canFrames
      ensures Valid() && canFrames == old(canFrames) + Mine(config, frames)
    {
      for i := 0 to |frames|
        invariant Valid() && canFrames == old(canFrames) + Mine(config, frames[..i])
      {
        var _ := Handle(frames[i]);
        MineSnoc(config, frames[..i], frames[i]);
        assert frames[..i + 1] == frames[..i] + [frames[i]];
      }
      assert frames[..|frames|] == frames;
    }

    /** `SelectTimeout`: the oldest frame of the queue. While the queue is empty the thread waits for up to a second,
        in which time the bus delivers `arrived`. It gets no frame if none of them is for this controller, or if the
        wait has `expired` by the time its mutex is back, even with frames in the queue. */
    method SelectTimeout(arrived: seq<CanFrame>, expired: bool) returns (frame: Option<CanFrame>)
      requires Valid() && pc.Waiting?
      modifies this`canFrames
      ensures Valid() && (frame.Some? ==> IsForMe(config, frame.value))
      ensures old(canFrames) != [] ==> frame == Some(old(canFrames)[0]) && canFrames == old(canFrames)[1..]
      ensures old(canFrames) == [] ==>
                var mine := Mine(config, arrived);
                if expired || mine == [] then frame == None && canFrames == mine
                else frame == Some(mine[0]) && canFrames == mine[1..]
    {
      if canFrames == [] {
        HandleAll(arrived);
        if expired || canFrames == [] {
          return None;
        }
      }
      frame := Some(canFrames[0]);
      canFrames := canFrames[1..];
    }

    method OnTimeout()
      requires Valid() && pc.Waiting?
      modifies this
      ensures Valid() && canFrames == old(canFrames) && exists t :: trace == old(trace) + [Silence(t)]
      ensures pc == if status.Running? then FIRST_TURN else Beat
    {
      ghost var before := Abstract();
      var t := ReadClock();
      if status != Idle && resetConnectionTime <= t {
        status := Idle;
        log := log + [Lost(t)];
      }
      pc := if status.Running? then FIRST_TURN else Beat;
      Account(before, Silence(t));
    }

    method OnFrame(frame: CanFrame)
      requires Valid() && pc.Waiting?
      modifies this
      ensures Valid() && canFrames == old(canFrames) && exists t :: trace == old(trace) + [Receive(frame, t)]
      ensures status.Running? && pc == Dispatch(frame)
    {
      ghost var before := Abstract();
      status := Running;
      var t := ReadClock();
      resetConnectionTime := t + CONNECTION_TIMEOUT;
      log := log + [Handled(t, frame)];
      pc := Dispatch(frame);
      Account(before, Receive(frame, t));
    }

    method PerformAction(a: Action, now: nat, unused: Bits3)
      requires outputMapping.Length == OUTPUT_MAX && IsPossible(a)
      modifies this`pc, this`log, this`sendIAmHereTime, outputMapping
      ensures Abstract() == Perform(config, old(Abstract()), a, now, unused)
    {
      match a {
        case Refuse =>
          pc := Waiting;
        case Answer(f) =>
          log := log + [Reply(status, now, f)];
          pc := FIRST_TURN;
        case SayHere =>
          sendIAmHereTime := now + KEEP_ALIVE_INTERVAL;
          log := log + [Here(false, now, now, HereFrame(config, unused))];
          pc := FIRST_TURN;
        case Schedule(k, point) =>
          ghost var before := outputMapping[..];
          outputMapping[k] := outputMapping[k].(sendTime := now);
          assert outputMapping[..] == before[k := outputMapping[k]];
          pc := Scheduling(k, point, now);
        case Ignore =>
          pc := FIRST_TURN;
      }
    }

    /** `handle_request`, up to its first clock reading. */
    method StartRequest(frame: CanFrame) returns (action: Action)
      requires Valid() && pc == Dispatch(frame) && status.Running?
      modifies this, outputMapping
      ensures Valid() && canFrames == old(canFrames) && status.Running?
      ensures exists t, value, unused :: trace == old(trace) + [Event.Handle(t, value, unused)]
      ensures match action
              case Refuse => pc.Waiting?
              case Schedule(k, point) => pc.Scheduling? && pc.k == k && pc.point == point
              case _ => pc == FIRST_TURN
    {
      ghost var before := Abstract();
      var now := ReadClock();
      var value: Int16, unused: Bits3 := *, *;
      action := ActionFor(config, lastUpdate, frame, now, value);
      PerformAction(action, now, unused);
      Account(before, Event.Handle(now, value, unused));
    }

    /** The end of `schedule_to_send`. */
    method ExtendWindow(k: nat, point: MappingPoint)
      requires Valid() && pc.Scheduling? && pc.k == k && pc.point == point && status.Running?
      modifies this, outputMapping
      ensures Valid() && canFrames == old(canFrames) && status.Running? && pc == FIRST_TURN
      ensures exists t :: trace == old(trace) + [Extend(t)]
    {
      ghost var before := Abstract();
      var now := ReadClock();
      outputMapping[k] := outputMapping[k].(sendEnd := now + SEND_MESSAGES_TIME, point := point);
      assert outputMapping[..] == before.channels[k := outputMapping[k]];
      log := log + [Requested(k, point, pc.t, now)];
      pc := FIRST_TURN;
      Account(before, Extend(now));
    }

    /** `handle_request`. A refused request logs nothing and ends the iteration. */
    method HandleRequest(frame: CanFrame) returns (threw: bool)
      requires Valid() && pc == Dispatch(frame) && status.Running?
      modifies this, outputMapping
      ensures Valid() && old(trace) < trace && old(canFrames) <= canFrames && status.Running?
      ensures pc == if threw then Waiting else FIRST_TURN
      ensures threw ==> exists t, value, unused :: trace == old(trace) + [Event.Handle(t, value, unused)]
    {
      var action := StartRequest(frame);
      threw := action == Refuse;
      if action.Schedule? {
        OtherThreads();
        ExtendWindow(action.k, action.point);
      }
    }

    // ----- the turn of an output -----

    method CompareWindow(k: nat) returns (open: bool)
      requires Valid() && pc == Turn(k, Start) && status.Running?
      modifies this
      ensures Valid() && old(trace) < trace && canFrames == old(canFrames) && status.Running?
      ensures if open then pc.Turn? && pc.k == k && pc.stage.Open? else pc == NextTurn(k)
    {
      ghost var before := Abstract();
      var channel, output := outputMapping[k], config.outputs[k];
      var now := ReadClock();
      open := channel.sendEnd >= now && output.device != "" && output.control != "";
      log := log + [Checked(k, now)];
      pc := if open then Turn(k, Open(now)) else NextTurn(k);
      Account(before, CheckEnd(now));
    }

    method SeeLastUpdate(k: nat) returns (changed: bool)
      requires Valid() && pc.Turn? && pc.k == k && pc.stage.Open? && status.Running?
      modifies this
      ensures Valid() && old(trace) < trace && canFrames == old(canFrames) && status.Running? && pc.Turn? && pc.k == k
      ensures if changed then pc.stage.Chosen? else pc.stage.Unchanged?
    {
      Promises();
      ghost var before := Abstract();
      assert IsTimed(config, config.outputs[k]);
      var seen := lastUpdate[ToString(config.outputs[k])];
      changed := outputMapping[k].lastSend < seen;
      pc := Turn(k, if changed then Chosen(Check(pc.stage.tEnd, seen, None)) else Unchanged(pc.stage.tEnd, seen));
      Account(before, SeeUpdate);
    }

    method CompareSendTime(k: nat) returns (due: bool)
      requires Valid() && pc.Turn? && pc.k == k && pc.stage.Unchanged? && status.Running?
      modifies this
      ensures Valid() && old(trace) < trace && canFrames == old(canFrames) && status.Running?
      ensures if due then pc.Turn? && pc.k == k && pc.stage.Chosen? else pc == NextTurn(k)
    {
      ghost var before := Abstract();
      var now := ReadClock();
      due := outputMapping[k].sendTime <= now;
      pc := if due then Turn(k, Chosen(Check(pc.stage.tEnd, pc.stage.seen, Some(now)))) else NextTurn(k);
      Account(before, CheckTime(now));
    }

    /** `read_mqtt_value`: its first half says whether the value is stale, ... */
    method IsTimedOut(k: nat) returns (stale: bool)
      requires Valid() && pc.Turn? && pc.k == k && pc.stage.Chosen? && status.Running?
      modifies this
      ensures Valid() && old(trace) < trace && canFrames == old(canFrames) && status.Running? && pc.Turn? && pc.k == k
      ensures if stale then pc.stage.Ready? && pc.stage.value == SENSOR_UNDEFINED else pc.stage.Fresh?
    {
      ghost var before := Abstract();
      var now := ReadClock();
      stale := StaleChannel(config, lastUpdate, config.outputs[k], now);
      if stale {
        log := log + [ValueRead(k, true, now, SENSOR_UNDEFINED)];
      }
      pc := Turn(k, if stale then Ready(pc.stage.check, SENSOR_UNDEFINED) else Fresh(pc.stage.check, now));
      Account(before, CheckStale(now));
    }

    /** ... its second half asks the driver. */
    method AskDriver(k: nat) returns (value: Int16)
      requires Valid() && pc.Turn? && pc.k == k && pc.stage.Fresh? && status.Running?
      modifies this
      ensures Valid() && old(trace) < trace && canFrames == old(canFrames) && status.Running?
      ensures pc.Turn? && pc.k == k && pc.stage.Ready? && pc.stage.value == value
    {
      ghost var before := Abstract();
      value := *;
      log := log + [ValueRead(k, false, pc.stage.t, value)];
      pc := Turn(k, Ready(pc.stage.check, value));
      Account(before, ReadDriver(value));
    }

    method SendOutputFrame(k: nat, value: Int16)
      requires Valid() && pc.Turn? && pc.k == k && pc.stage.Ready? && pc.stage.value == value && status.Running?
      modifies this
      ensures Valid() && old(trace) < trace && canFrames == old(canFrames) && status.Running? && pc == Turn(k, Sent)
    {
      ghost var before := Abstract();
      var unused: Bits3 := *;
      var frame := OutputFrame(config, outputMapping[k].point, value, unused);
      log := log + [SentOutput(k, status, frame, pc.stage.check)];
      pc := Turn(k, Sent);
      Account(before, Transmit(unused));
    }

    /** `postpone_send`. */
    method PostponeSend(k: nat)
      requires Valid() && pc == Turn(k, Sent) && status.Running?
      modifies this, outputMapping
      ensures Valid() && old(trace) < trace && canFrames == old(canFrames) && status.Running? && pc == NextTurn(k)
    {
      ghost var before := Abstract();
      var now := ReadClock();
      outputMapping[k] := outputMapping[k].(sendTime := now + SEND_MESSAGES_INTERVAL, lastSend := now);
      assert outputMapping[..] == before.channels[k := outputMapping[k]];
      log := log + [Postponed(k, now)];
      pc := NextTurn(k);
      Account(before, Postpone(now));
    }

    /** Whether the output is to be sent now. */
    method DecideOutput(k: nat) returns (chosen: bool)
      requires Valid() && pc == Turn(k, Start) && status.Running?
      modifies this
      ensures Valid() && old(trace) <= trace && old(canFrames) <= canFrames && status.Running?
      ensures if chosen then pc.Turn? && pc.k == k && pc.stage.Chosen? else pc == NextTurn(k)
    {
      var open := CompareWindow(k);
      if !open {
        return false;
      }
      OtherThreads();
      chosen := SeeLastUpdate(k);
      if !chosen {
        OtherThreads();
        chosen := CompareSendTime(k);
      }
    }

    method SendChosen(k: nat)
      requires Valid() && pc.Turn? && pc.k == k && pc.stage.Chosen? && status.Running?
      modifies this, outputMapping
      ensures Valid() && old(trace) <= trace && old(canFrames) <= canFrames && status.Running? && pc == NextTurn(k)
    {
      var value := SENSOR_UNDEFINED;
      OtherThreads();
      var stale := IsTimedOut(k);
      if !stale {
        OtherThreads();
        value := AskDriver(k);
      }
      OtherThreads();
      SendOutputFrame(k, value);
      OtherThreads();
      PostponeSend(k);
    }

    /** `send_scheduled_outputs`. At its end every mapped output whose window was open at its check is answered. */
    method SendScheduledOutputs()
      requires Valid() && pc == FIRST_TURN && status.Running?
      modifies this, outputMapping
      ensures Valid() && old(trace) <= trace && old(canFrames) <= canFrames && status.Running? && pc == Beat
      ensures forall k: nat | k < OUTPUT_MAX && k < |config.outputs| && k < outputMapping.Length ::
                CheckDone(config, Abstract(), k)
    {
      for k := 0 to OUTPUT_MAX
        invariant Valid() && old(trace) <= trace && old(canFrames) <= canFrames && status.Running?
        invariant pc == if k < OUTPUT_MAX then Turn(k, Start) else Beat
      {
        OtherThreads();
        var chosen := DecideOutput(k);
        if chosen {
          SendChosen(k);
        }
      }
      Promises();
    }

    /** `send_scheduled_i_am_here`. */
    method SendScheduledHere()
      requires Valid() && pc == Beat
      modifies this
      ensures Valid() && old(trace) < trace && old(canFrames) <= canFrames && pc.Waiting?
      ensures trace[|trace| - 1].CheckHere? || trace[|trace| - 1].Speak?
    {
      var due := CompareHere();
      if due {
        OtherThreads();
        SayHere();
      }
    }

    method CompareHere() returns (due: bool)
      requires Valid() && pc == Beat
      modifies this
      ensures Valid() && canFrames == old(canFrames) && exists t :: trace == old(trace) + [CheckHere(t)]
      ensures if due then pc.Speaking? else pc.Waiting?
    {
      ghost var before := Abstract();
      var now := ReadClock();
      due := sendIAmHereTime <= now;
      log := log + [BeatChecked(now)];
      pc := if due then Speaking(now) else Waiting;
      Account(before, CheckHere(now));
    }

    /** `i_am_here`. */
    method SayHere()
      requires Valid() && pc.Speaking?
      modifies this
      ensures Valid() && canFrames == old(canFrames) && pc.Waiting?
      ensures exists t, unused :: trace == old(trace) + [Speak(t, unused)]
    {
      ghost var before := Abstract();
      var now := ReadClock();
      var unused: Bits3 := *;
      sendIAmHereTime := now + KEEP_ALIVE_INTERVAL;
      log := log + [Here(true, pc.tCheck, now, HereFrame(config, unused))];
      pc := Waiting;
      Account(before, Speak(now, unused));
    }

    /** What an iteration ends with: the pass over the outputs while RUNNING, and the heartbeat. */
    method SendScheduled()
      requires Valid() && pc == if status.Running? then FIRST_TURN else Beat
      modifies this, outputMapping
      ensures Valid() && pc.Waiting? && old(trace) < trace && old(canFrames) <= canFrames
      ensures trace[|trace| - 1].CheckHere? || trace[|trace| - 1].Speak?
    {
      if status == Running {
        SendScheduledOutputs();
      }
      OtherThreads();
      SendScheduledHere();
    }

    /** One iteration of the loop in `TaskFn`: the timeout or the oldest frame, then, unless the request was
        refused, the pass over the outputs while RUNNING, and the heartbeat. */
    method Iterate(arrived: seq<CanFrame>, expired: bool) returns (threw: bool)
      requires Valid() && pc.Waiting?
      modifies this, outputMapping
      ensures Valid() && pc.Waiting? && old(trace) < trace
      ensures old(canFrames) != [] ==>
                && trace[|old(trace)|].Receive? && trace[|old(trace)|].frame == old(canFrames)[0]
                && old(canFrames)[1..] <= canFrames
      ensures old(canFrames) == [] && (expired || Mine(config, arrived) == []) ==> trace[|old(trace)|].Silence?
      ensures threw ==> trace[|old(trace)|].Receive? && NothingScheduled(trace[|old(trace)|..])
      ensures !threw ==> trace[|trace| - 1].CheckHere? || trace[|trace| - 1].Speak?
    {
      var frame := SelectTimeout(arrived, expired);
      threw := false;
      if frame.None? {
        OnTimeout();
      } else {
        threw := OneRequest(frame.value);
      }
      if !threw {
        SendScheduled();
      }
    }

    method OneRequest(frame: CanFrame) returns (threw: bool)
      requires Valid() && pc.Waiting?
      modifies this, outputMapping
      ensures Valid() && old(trace) < trace && old(canFrames) <= canFrames && status.Running?
      ensures trace[|old(trace)|].Receive? && trace[|old(trace)|].frame == frame
      ensures pc == if threw then Waiting else FIRST_TURN
      ensures threw ==> NothingScheduled(trace[|old(trace)|..])
    {
      OnFrame(frame);
      ghost var received := trace;
      OtherThreads();
      assert forall e | e in trace[|received|..] :: e.Update?;
      ghost var waited := trace;
      threw := HandleRequest(frame);
      if threw {
        assert trace[|old(trace)|..] == [trace[|old(trace)|]] + waited[|received|..] + trace[|waited|..];
      }
    }
  }

  /** None of the events checks or sends an output or a heartbeat. */
  ghost predicate NothingScheduled(es: seq<Event>) {
    forall e | e in es :: e.Receive? || e.Handle? || e.Update?
  }
}
