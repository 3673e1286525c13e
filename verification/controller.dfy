/** The virtual controller as a step system: the loop of `TaskFn` in `src/MqttToSmartWebGateway.cpp`. An event
    reads the clock at most once and shared state at most once, and sending an output frame is an event of its own.
    MQTT updates come from another thread and may fall between any two events. Clock readings are in
    nanoseconds. */
module Controller {
  import opened Conventions
  import opened ControllerConfig
  import opened Wrappers

  const SECOND: nat := 1_000_000_000
  const MINUTE: nat := 60 * SECOND

  const KEEP_ALIVE_INTERVAL: nat := 10 * SECOND
  const CONNECTION_TIMEOUT: nat := 10 * MINUTE
  const SEND_MESSAGES_TIME: nat := 10 * MINUTE
  const SEND_MESSAGES_INTERVAL: nat := 30 * SECOND

  const CONTROLLER_TYPE: Byte := 14

  type Int16 = v: int | -0x8000 <= v < 0x8000

  datatype Status = Idle | Running

  /** The timers and the mapping point of an output channel. */
  datatype Timers = Timers(sendTime: nat, sendEnd: nat, lastSend: nat, point: MappingPoint)

  /** Why an output is sent: the reading at which its window was open, the update time that was seen and, if that
      was not newer than the last frame, the reading at which the next frame was due. */
  datatype Check = Check(tEnd: nat, seen: nat, due: Option<nat>)

  /** How far the turn of an output has come. */
  datatype Stage =
    | Start                                    // the window is looked at next
    | Open(tEnd: nat)                          // then the time of the last update
    | Unchanged(tEnd: nat, seen: nat)          // then, without a new update, the send time
    | Chosen(check: Check)                     // then whether the value is stale
    | Fresh(check: Check, t: nat)              // then, if it is not, the value
    | Ready(check: Check, value: Int16)        // then the frame is sent
    | Sent                                     // then the next one is postponed

  /** Where the loop stands: waiting for a frame, handling it, finishing a request for an output, in the turn of an
      output, before the heartbeat check, saying I_AM_HERE; or terminated by an unexpected exception. */
  datatype Pc =
    | Waiting
    | Dispatch(frame: CanFrame)
    | Scheduling(k: nat, point: MappingPoint, t: nat)
    | Turn(k: nat, stage: Stage)
    | Beat
    | Speaking(tCheck: nat)
    | Dead

  /** What happened, in order. */
  datatype Record =
    | Updated(key: string, t: nat)
    | Handled(t: nat, frame: CanFrame)
    | Lost(t: nat)
    | Requested(k: nat, point: MappingPoint, t: nat, tEnd: nat)
    | Checked(k: nat, tEnd: nat)
    | ValueRead(k: nat, stale: bool, t: nat, value: Int16)
    | SentOutput(k: nat, status: Status, frame: CanFrame, check: Check)
    | Postponed(k: nat, t: nat)
    | BeatChecked(t: nat)
    | Here(scheduled: bool, tCheck: nat, t: nat, frame: CanFrame)
    | Reply(status: Status, t: nat, frame: CanFrame)

  datatype State = State(
    status: Status, pc: Pc, hereTime: nat, resetTime: nat, channels: seq<Timers>, lastUpdate: map<string, nat>,
    log: seq<Record>)

  datatype Event =
    | Update(key: string, now: nat)
    | Silence(now: nat)
    | Receive(frame: CanFrame, now: nat)
    | Handle(now: nat, value: Int16, unused: Bits3)
    | Extend(now: nat)
    | CheckEnd(now: nat)
    | SeeUpdate
    | CheckTime(now: nat)
    | CheckStale(now: nat)
    | ReadDriver(value: Int16)
    | Transmit(unused: Bits3)
    | Postpone(now: nat)
    | CheckHere(now: nat)
    | Speak(now: nat, unused: Bits3)

  // ----- frames -----

  /** `TMqttToSmartWebGateway::IsForMe`. */
  predicate IsForMe(c: Config, frame: CanFrame) {
    var h := Header(frame.canId);
    || h.programId == c.programId
    || (h.messageType == MT_MSG_REQUEST && h.programType == PT_CONTROLLER && h.functionId == GET_OUTPUT_VALUE
        && MappingOf(frame.data[0], frame.data[1]).hostId == c.programId)
  }

  /** The bits that the source leaves uninitialised in a header of its own are `unused`. */
  function OwnHeader(c: Config, functionId: Byte, unused: Bits3): CanHeader {
    CanHeader(PT_CONTROLLER, c.programId, functionId, MF_FORMAT_0, MT_MSG_RESPONSE, unused)
  }

  function HereFrame(c: Config, unused: Bits3): CanFrame {
    CanFrame(Extended(Raw(OwnHeader(c, I_AM_HERE, unused))), 1, Overlay(ZERO_DATA, [CONTROLLER_TYPE]))
  }

  /** An output frame: the mapping point of the request, then the value, high byte first. */
  function OutputFrame(c: Config, point: MappingPoint, value: Int16, unused: Bits3): CanFrame {
    CanFrame(Extended(Raw(OwnHeader(c, GET_OUTPUT_VALUE, unused))), 4,
             Overlay(ZERO_DATA, MappingBytes(point) + [value / 0x100 % 0x100, value % 0x100]))
  }

  /** `get_response_frame`; none if it throws. */
  function ResponseId(c: Config, h: CanHeader): Option<Word> {
    if h.messageType != MT_MSG_REQUEST || h.programId != c.programId then None
    else Some(Extended(Raw(h.(messageType := MT_MSG_RESPONSE))))
  }

  /** `is_timed_out` of the timing of a channel, one without timing counting as not stale. */
  predicate StaleChannel(c: Config, lastUpdate: map<string, nat>, channel: Channel, t: nat) {
    var key := ToString(channel);
    key in c.timing && key in lastUpdate && IsStale(c.timing[key].timeoutMin, lastUpdate[key], t)
  }

  /** `read_mqtt_value`: undefined if the value is stale, else whatever the driver answers. */
  function ReadValue(c: Config, lastUpdate: map<string, nat>, channel: Channel, t: nat, value: Int16): Int16 {
    if StaleChannel(c, lastUpdate, channel, t) then SENSOR_UNDEFINED else value
  }

  predicate IsStale(timeoutMin: int, lastUpdate: nat, t: nat) {
    timeoutMin >= 0 && t - lastUpdate > timeoutMin * MINUTE
  }

  // ----- requests -----

  datatype Action =
    | Refuse                                                  // throws
    | Answer(frame: CanFrame)
    | SayHere
    | Schedule(k: nat, point: MappingPoint)
    | Ignore                                                  // an output that is not mapped

  function AnswerWith(c: Config, h: CanHeader, bytes: seq<Byte>): Action
    requires |bytes| <= 8
  {
    match ResponseId(c, h)
    case None => Refuse
    case Some(id) => Answer(CanFrame(id, |bytes|, Overlay(ZERO_DATA, bytes)))
  }

  /** `handle_request`. */
  function ActionFor(c: Config, lastUpdate: map<string, nat>, frame: CanFrame, t: nat, value: Int16): (a: Action)
    requires |c.outputs| == OUTPUT_MAX
    ensures a.Schedule? ==> a.k < OUTPUT_MAX && IsInitialized(c.outputs[a.k])
    ensures a.Schedule? ==> a.point.hostId == c.programId && a.point.channelId == a.k
  {
    var h, d := Header(frame.canId), frame.data;
    if h.programType == PT_CONTROLLER then
      if h.functionId == GET_CHANNEL_NUMBER then
        AnswerWith(c, h, [ChannelNumber(c) % 0x100, ChannelNumber(c) / 0x100 % 0x100])
      else if h.functionId == GET_CONTROLLER_TYPE then AnswerWith(c, h, [CONTROLLER_TYPE])
      else if h.functionId == GET_OUTPUT_VALUE then
        var point := MappingOf(d[0], d[1]);
        if point.hostId != c.programId then Refuse
        else if IsInitialized(c.outputs[point.channelId]) then Schedule(point.channelId, point)
        else Ignore
      else if h.functionId == I_AM_HERE then SayHere
      else Refuse
    else if h.programType == PT_REMOTE_CONTROL then
      if h.functionId != GET_PARAMETER_VALUE || d[0] != PT_CONTROLLER then Refuse
      else
        var v: Int16 := if RawInfo(d) in c.mapping
            then ReadValue(c, lastUpdate, c.mapping[RawInfo(d)], t, value) else SENSOR_UNDEFINED;
        AnswerWith(c, h, [d[0], d[1], d[2], v % 0x100, v / 0x100 % 0x100])
    else Refuse
  }

  // ----- the loop -----

  function Log(s: State, r: Record): State {
    s.(log := s.log + [r])
  }

  function SendHere(c: Config, s: State, scheduled: bool, tCheck: nat, t: nat, unused: Bits3): State {
    Log(s.(hereTime := t + KEEP_ALIVE_INTERVAL), Here(scheduled, tCheck, t, HereFrame(c, unused)))
  }

  const FIRST_TURN := Turn(0, Start)

  function NextTurn(k: nat): Pc {
    if k + 1 < OUTPUT_MAX then Turn(k + 1, Start) else Beat
  }

  predicate WellFormed(c: Config, s: State) {
    && |c.outputs| == OUTPUT_MAX && |s.channels| == OUTPUT_MAX
    && (s.pc.Scheduling? || s.pc.Turn? ==> s.pc.k < OUTPUT_MAX)
  }

  predicate Enabled(s: State, e: Event) {
    match e
    case Update(_, _) => true
    case Silence(_) => s.pc.Waiting?
    case Receive(_, _) => s.pc.Waiting?
    case Handle(_, _, _) => s.pc.Dispatch?
    case Extend(_) => s.pc.Scheduling?
    case CheckEnd(_) => s.pc.Turn? && s.pc.stage.Start?
    case SeeUpdate => s.pc.Turn? && s.pc.stage.Open?
    case CheckTime(_) => s.pc.Turn? && s.pc.stage.Unchanged?
    case CheckStale(_) => s.pc.Turn? && s.pc.stage.Chosen?
    case ReadDriver(_) => s.pc.Turn? && s.pc.stage.Fresh?
    case Transmit(_) => s.pc.Turn? && s.pc.stage.Ready?
    case Postpone(_) => s.pc.Turn? && s.pc.stage.Sent?
    case CheckHere(_) => s.pc.Beat?
    case Speak(_, _) => s.pc.Speaking?
  }

  predicate IsPossible(a: Action) {
    a.Schedule? ==> a.k < OUTPUT_MAX
  }

  /** The effect of a request, as far as its first clock reading. A refusal has thrown and ends the iteration. */
  function Perform(c: Config, s: State, a: Action, now: nat, unused: Bits3): State
    requires |s.channels| == OUTPUT_MAX && IsPossible(a)
  {
    match a
    case Refuse => s.(pc := Waiting)
    case Answer(f) => Log(s, Reply(s.status, now, f)).(pc := FIRST_TURN)
    case SayHere => SendHere(c, s, false, now, now, unused).(pc := FIRST_TURN)
    case Schedule(k, point) =>
      s.(channels := s.channels[k := s.channels[k].(sendTime := now)], pc := Scheduling(k, point, now))
    case Ignore => s.(pc := FIRST_TURN)
  }

  /** The rest of `schedule_to_send`. */
  function DoExtend(s: State, now: nat): State
    requires |s.channels| == OUTPUT_MAX && s.pc.Scheduling? && s.pc.k < OUTPUT_MAX
  {
    var k := s.pc.k;
    var ch := s.channels[k].(sendEnd := now + SEND_MESSAGES_TIME, point := s.pc.point);
    Log(s.(channels := s.channels[k := ch]), Requested(k, s.pc.point, s.pc.t, now)).(pc := FIRST_TURN)
  }

  /** The body of the loop in `send_scheduled_outputs`. */
  function TurnStep(c: Config, s: State, e: Event): State
    requires WellFormed(c, s) && Enabled(s, e) && s.pc.Turn? && !e.Update?
  {
    var k, stage := s.pc.k, s.pc.stage;
    var ch, out := s.channels[k], c.outputs[k];
    match e
    case CheckEnd(now) =>
      var open := now <= ch.sendEnd && out.device != "" && out.control != "";
      Log(s, Checked(k, now)).(pc := if open then Turn(k, Open(now)) else NextTurn(k))
    case SeeUpdate =>
      if ToString(out) !in s.lastUpdate then s.(pc := Dead)
      else
        var seen := s.lastUpdate[ToString(out)];
        s.(pc := Turn(k, if seen <= ch.lastSend then Unchanged(stage.tEnd, seen)
                         else Chosen(Check(stage.tEnd, seen, None))))
    case CheckTime(now) =>
      s.(pc := if ch.sendTime > now then NextTurn(k)
               else Turn(k, Chosen(Check(stage.tEnd, stage.seen, Some(now)))))
    case CheckStale(now) =>
      if StaleChannel(c, s.lastUpdate, out, now)
      then Log(s, ValueRead(k, true, now, SENSOR_UNDEFINED)).(pc := Turn(k, Ready(stage.check, SENSOR_UNDEFINED)))
      else s.(pc := Turn(k, Fresh(stage.check, now)))
    case ReadDriver(value) =>
      Log(s, ValueRead(k, false, stage.t, value)).(pc := Turn(k, Ready(stage.check, value)))
    case Transmit(unused) =>
      Log(s, SentOutput(k, s.status, OutputFrame(c, ch.point, stage.value, unused), stage.check)).(pc := Turn(k, Sent))
    case Postpone(now) =>
      Log(s.(channels := s.channels[k := ch.(sendTime := now + SEND_MESSAGES_INTERVAL, lastSend := now)]),
          Postponed(k, now)).(pc := NextTurn(k))
  }

  function Step(c: Config, s: State, e: Event): State
    requires WellFormed(c, s) && Enabled(s, e)
  {
    match e
    case Update(key, now) =>
      if key in s.lastUpdate then Log(s.(lastUpdate := s.lastUpdate[key := now]), Updated(key, now)) else s
    case Silence(now) =>
      if s.status.Idle? then s.(pc := Beat)
      else if s.resetTime <= now then Log(s.(status := Idle), Lost(now)).(pc := Beat)
      else s.(pc := FIRST_TURN)
    case Receive(frame, now) =>
      Log(s.(status := Running, resetTime := now + CONNECTION_TIMEOUT), Handled(now, frame)).(pc := Dispatch(frame))
    case Handle(now, value, unused) =>
      Perform(c, s, ActionFor(c, s.lastUpdate, s.pc.frame, now, value), now, unused)
    case Extend(now) => DoExtend(s, now)
    case CheckHere(now) =>
      Log(s, BeatChecked(now)).(pc := if s.hereTime <= now then Speaking(now) else Waiting)
    case Speak(now, unused) => SendHere(c, s, true, s.pc.tCheck, now, unused).(pc := Waiting)
    case _ => TurnStep(c, s, e)
  }

  lemma StepWellFormed(c: Config, s: State, e: Event)
    requires WellFormed(c, s) && Enabled(s, e)
    ensures WellFormed(c, Step(c, s, e))
  {
  }

  // ----- runs -----

  /** The clock reading of an event, or the last one before it. */
  function Time(e: Event, now: nat): nat {
    match e
    case Update(_, t) => t
    case Silence(t) => t
    case Receive(_, t) => t
    case Handle(t, _, _) => t
    case Extend(t) => t
    case CheckEnd(t) => t
    case SeeUpdate => now
    case CheckTime(t) => t
    case CheckStale(t) => t
    case ReadDriver(_) => now
    case Transmit(_) => now
    case Postpone(t) => t
    case CheckHere(t) => t
    case Speak(t, _) => t
  }

  /** Every event is possible where it stands, and the clock never goes back from `now` on. */
  ghost predicate ValidRun(c: Config, s: State, es: seq<Event>, now: nat)
    requires WellFormed(c, s)
    decreases es
  {
    es != [] ==>
      && Enabled(s, es[0]) && now <= Time(es[0], now)
      && (StepWellFormed(c, s, es[0]); ValidRun(c, Step(c, s, es[0]), es[1..], Time(es[0], now)))
  }

  ghost function Run(c: Config, s: State, es: seq<Event>, now: nat): (f: State)
    requires WellFormed(c, s) && ValidRun(c, s, es, now)
    ensures WellFormed(c, f)
    decreases es
  {
    if es == [] then s else
      StepWellFormed(c, s, es[0]);
      Run(c, Step(c, s, es[0]), es[1..], Time(es[0], now))
  }

  /** The last clock reading. */
  function Now(es: seq<Event>, now: nat): nat
    decreases es
  {
    if es == [] then now else Now(es[1..], Time(es[0], now))
  }

  /** The configuration `c` as it stands when the loop is entered at the reading `start`: updates may have been taken
      note of since it was loaded, because their handler is registered before. */
  ghost predicate AtEntry(loaded: Config, c: Config, start: nat) {
    && c == loaded.(timing := c.timing) && c.timing.Keys == loaded.timing.Keys
    && forall key | key in c.timing ::
         && c.timing[key].timeoutMin == loaded.timing[key].timeoutMin
         && loaded.timing[key].lastUpdate <= c.timing[key].lastUpdate <= start
  }

  /** The state in which `TaskFn` enters its loop at the clock reading `start`. */
  ghost predicate Init(c: Config, s: State, start: nat) {
    && s.status.Idle? && s.pc.Waiting? && s.hereTime == start && s.log == []
    && |s.channels| == OUTPUT_MAX
    && (forall k | 0 <= k < OUTPUT_MAX ::
          s.channels[k].sendTime == s.channels[k].sendEnd == s.channels[k].lastSend == 0)
    && s.lastUpdate.Keys == c.timing.Keys
    && (forall key | key in c.timing :: s.lastUpdate[key] == c.timing[key].lastUpdate)
  }
}
