/** What holds over every run of the virtual controller, stated on the log of what happened. */
module ControllerRuns {
  import Codecs
  import opened Controller
  import opened ControllerConfig
  import opened Conventions
  import opened Wrappers

  // ----- looking back in the log -----

  datatype Kind =
    | AHandled | AConnection | AHere | ABeat | AnUpdate(key: string) | ARequest(k: nat) | APostponement(k: nat)
    | ARequestOrPostponement(k: nat) | ARequestOrFrame(k: nat) | ACheck(k: nat) | AValue(k: nat)

  ghost predicate Is(r: Record, kind: Kind) {
    match kind
    case AHandled => r.Handled?
    case AConnection => r.Handled? || r.Lost?
    case AHere => r.Here?
    case ABeat => r.BeatChecked?
    case AnUpdate(key) => r.Updated? && r.key == key
    case ARequest(k) => r.Requested? && r.k == k
    case APostponement(k) => r.Postponed? && r.k == k
    case ARequestOrPostponement(k) => (r.Requested? || r.Postponed?) && r.k == k
    case ARequestOrFrame(k) => (r.Requested? || r.SentOutput?) && r.k == k
    case ACheck(k) => r.Checked? && r.k == k
    case AValue(k) => r.ValueRead? && r.k == k
  }

  /** The last record of a kind. */
  ghost function LastOf(log: seq<Record>, kind: Kind): (r: Option<Record>)
    ensures r.Some? ==> Is(r.value, kind)
  {
    if log == [] then None
    else if Is(log[|log| - 1], kind) then Some(log[|log| - 1])
    else LastOf(log[..|log| - 1], kind)
  }

  lemma LastAfter(log: seq<Record>, r: Record)
    ensures forall kind :: LastOf(log + [r], kind) == if Is(r, kind) then Some(r) else LastOf(log, kind)
  {
    assert (log + [r])[..|log|] == log;
  }

  lemma {:induction false} LastIsIn(log: seq<Record>, kind: Kind)
    ensures LastOf(log, kind).Some? ==> LastOf(log, kind).value in log
  {
    if log != [] && !Is(log[|log| - 1], kind) {
      LastIsIn(log[..|log| - 1], kind);
    }
  }

  /** When the value of a channel last changed, as far as the log and the loading of the controller tell. */
  ghost function Latest(c: Config, log: seq<Record>, key: string): nat
    requires key in c.timing
  {
    match LastOf(log, AnUpdate(key))
    case None => c.timing[key].lastUpdate
    case Some(r) => r.t
  }

  // ----- the promises about single records -----

  ghost predicate IsMapped(c: Config, k: nat)
    requires k < |c.outputs|
  {
    c.outputs[k].device != "" && c.outputs[k].control != ""
  }

  /** A frame by which this controller gives the value of an output, for a mapping point. */
  ghost predicate IsOutputFrame(c: Config, f: CanFrame, point: MappingPoint, value: Int16) {
    var h := Header(f.canId);
    && IsExtended(f.canId)
    && h.programType == PT_CONTROLLER && h.programId == c.programId && h.functionId == GET_OUTPUT_VALUE
    && h.messageFormat == MF_FORMAT_0 && h.messageType == MT_MSG_RESPONSE
    && f.dlc == 4 && f.data[..2] == MappingBytes(point) && Codecs.DecodeInt([f.data[3], f.data[2]], true) == value
  }

  /** An output frame goes out while RUNNING, its window check is at most ten minutes after the latest
      request for the channel, and it carries that request's mapping point, which names this controller
      and this channel, and the value read last. A frame that is sent, without a new request, after another one
      has been sent is checked at least 30 s after the end of that sending, or saw an MQTT update later than it. */
  ghost predicate SentOk(c: Config, before: seq<Record>, r: Record)
    requires r.SentOutput?
  {
    && r.status.Running? && r.k < |c.outputs|
    && (match LastOf(before, ARequest(r.k))
        case None => false
        case Some(q) =>
          && r.check.tEnd <= q.tEnd + SEND_MESSAGES_TIME
          && q.point.hostId == c.programId && q.point.channelId == r.k
          && LastOf(before, AValue(r.k)).Some?
          && IsOutputFrame(c, r.frame, q.point, LastOf(before, AValue(r.k)).value.value))
    && (match LastOf(before, ARequestOrPostponement(r.k))
        case None => false
        case Some(q) =>
          q.Postponed? ==>
            match r.check.due
            case Some(t) => q.t + SEND_MESSAGES_INTERVAL <= t
            case None => q.t < r.check.seen && Updated(ToString(c.outputs[r.k]), r.check.seen) in before)
  }

  /** A value counts as stale exactly if, at the reading, the latest update is older than the timeout; a stale
      value is sent as undefined. */
  ghost predicate ValueOk(c: Config, before: seq<Record>, r: Record)
    requires r.ValueRead?
  {
    && r.k < |c.outputs| && ToString(c.outputs[r.k]) in c.timing
    && var key := ToString(c.outputs[r.k]);
    && (r.stale <==> IsStale(c.timing[key].timeoutMin, Latest(c, before, key), r.t))
    && (r.stale ==> r.value == SENSOR_UNDEFINED)
  }

  /** The frame asks this controller for output `k`: so it says in its header and its first two data bytes. */
  ghost predicate AsksOutput(c: Config, q: CanFrame, k: nat, point: MappingPoint) {
    var h := Header(q.canId);
    && h.programType == PT_CONTROLLER && h.functionId == GET_OUTPUT_VALUE
    && q.data[..2] == MappingBytes(point) && point.hostId == c.programId && point.channelId == k
    && k < |c.outputs| && IsInitialized(c.outputs[k])
  }

  /** A request for an output is made by the frame handled last, whose mapping point it is. */
  ghost predicate RequestedOk(c: Config, before: seq<Record>, r: Record)
    requires r.Requested?
  {
    LastOf(before, AHandled).Some? && AsksOutput(c, LastOf(before, AHandled).value.frame, r.k, r.point)
  }

  /** The frame turns a request to this controller into a response to it. */
  ghost predicate IsResponse(c: Config, q: CanFrame, f: CanFrame) {
    var h, g := Header(q.canId), Header(f.canId);
    && h.messageType == MT_MSG_REQUEST && h.programId == c.programId
    && IsExtended(f.canId) && g.messageType == MT_MSG_RESPONSE && g.programType == h.programType
    && g.programId == h.programId && g.functionId == h.functionId && g.messageFormat == h.messageFormat
  }

  ghost predicate AsksChannelNumber(q: CanFrame) {
    Header(q.canId).programType == PT_CONTROLLER && Header(q.canId).functionId == GET_CHANNEL_NUMBER
  }

  ghost predicate AsksType(q: CanFrame) {
    Header(q.canId).programType == PT_CONTROLLER && Header(q.canId).functionId == GET_CONTROLLER_TYPE
  }

  ghost predicate AsksHere(q: CanFrame) {
    Header(q.canId).programType == PT_CONTROLLER && Header(q.canId).functionId == I_AM_HERE
  }

  ghost predicate AsksParameter(q: CanFrame) {
    && Header(q.canId).programType == PT_REMOTE_CONTROL && Header(q.canId).functionId == GET_PARAMETER_VALUE
    && q.data[0] == PT_CONTROLLER
  }

  /** The number of channels, low byte first. */
  ghost predicate TellsChannelNumber(c: Config, f: CanFrame) {
    var low: int, high: int := f.data[0], f.data[1];
    f.dlc == 2 && low + 0x100 * high == ChannelNumber(c) % 0x1_0000
  }

  ghost predicate TellsType(f: CanFrame) {
    f.dlc == 1 && f.data[0] == CONTROLLER_TYPE
  }

  /** The triple echoed and a value behind it, low byte first. */
  ghost predicate TellsParameter(q: CanFrame, f: CanFrame, value: int) {
    f.dlc == 5 && f.data[..3] == q.data[..3] && Codecs.DecodeInt(f.data[3..5], true) == value
  }

  /** The triple asked for is mapped, but the latest update of its channel is older than the timeout. */
  ghost predicate IsStaleParameter(c: Config, before: seq<Record>, q: CanFrame, t: nat) {
    && RawInfo(q.data) in c.mapping
    && var key := ToString(c.mapping[RawInfo(q.data)]);
    key in c.timing && IsStale(c.timing[key].timeoutMin, Latest(c, before, key), t)
  }

  /** A reply responds to the frame handled last with what that asks for; a parameter that is not mapped or stale is
      undefined. */
  ghost predicate ReplyOk(c: Config, before: seq<Record>, r: Record)
    requires r.Reply?
  {
    && r.status.Running? && LastOf(before, AHandled).Some?
    && var q := LastOf(before, AHandled).value.frame;
    && IsResponse(c, q, r.frame)
    && (|| (AsksChannelNumber(q) && TellsChannelNumber(c, r.frame))
        || (AsksType(q) && TellsType(r.frame))
        || (AsksParameter(q)
            && exists value: Int16 ::
                 && TellsParameter(q, r.frame, value)
                 && (RawInfo(q.data) !in c.mapping || IsStaleParameter(c, before, q, r.t) ==>
                       value == SENSOR_UNDEFINED)))
  }

  /** The frame says I_AM_HERE for this controller. */
  ghost predicate SaysHere(c: Config, f: CanFrame) {
    var h := Header(f.canId);
    && IsExtended(f.canId) && h.programType == PT_CONTROLLER && h.programId == c.programId && h.functionId == I_AM_HERE
    && h.messageFormat == MF_FORMAT_0 && h.messageType == MT_MSG_RESPONSE
    && f.dlc == 1 && f.data[0] == CONTROLLER_TYPE
  }

  /** I_AM_HERE is said for this controller. A scheduled one is checked at least ten seconds after the previous one of
      either kind; any other one is asked for by the frame handled last. */
  ghost predicate HereOk(c: Config, before: seq<Record>, r: Record)
    requires r.Here?
  {
    && SaysHere(c, r.frame)
    && if r.scheduled then
         match LastOf(before, AHere)
         case None => true
         case Some(q) => q.t + KEEP_ALIVE_INTERVAL <= r.tCheck
       else LastOf(before, AHandled).Some? && AsksHere(LastOf(before, AHandled).value.frame)
  }

  /** The connection is lost only when no frame was handled for ten minutes. */
  ghost predicate LostOk(before: seq<Record>, r: Record)
    requires r.Lost?
  {
    match LastOf(before, AHandled)
    case None => false
    case Some(q) => q.t + CONNECTION_TIMEOUT <= r.t
  }

  ghost predicate RecordOk(c: Config, before: seq<Record>, r: Record) {
    && (r.SentOutput? ==> SentOk(c, before, r))
    && (r.ValueRead? ==> ValueOk(c, before, r))
    && (r.Here? ==> HereOk(c, before, r))
    && (r.Lost? ==> LostOk(before, r))
    && (r.Requested? ==> RequestedOk(c, before, r))
    && (r.Reply? ==> ReplyOk(c, before, r))
  }

  ghost predicate HistoryOk(c: Config, log: seq<Record>) {
    forall i | 0 <= i < |log| :: RecordOk(c, log[..i], log[i])
  }

  lemma HistoryAfter(c: Config, log: seq<Record>, r: Record)
    requires HistoryOk(c, log) && RecordOk(c, log, r)
    ensures HistoryOk(c, log + [r])
  {
    var all := log + [r];
    forall i | 0 <= i < |all|
      ensures RecordOk(c, all[..i], all[i])
    {
      assert all[..i] == if i < |log| then log[..i] else log;
    }
  }

  // ----- the invariant -----

  ghost predicate IsScheduling(s: State, k: nat) {
    s.pc.Scheduling? && s.pc.k == k
  }

  /** The timers of a channel are what the last request and the last postponement made them. */
  ghost predicate TimersOk(c: Config, s: State, k: nat, start: nat, now: nat)
    requires k < |s.channels|
  {
    var ch := s.channels[k];
    && ch.lastSend <= now
    && (match LastOf(s.log, ARequest(k))
        case None => ch.sendEnd == 0
        case Some(q) =>
          && ch.sendEnd == q.tEnd + SEND_MESSAGES_TIME && ch.point == q.point
          && q.point.hostId == c.programId && q.point.channelId == k)
    && (match LastOf(s.log, APostponement(k))
        case None => ch.lastSend == 0
        case Some(q) => ch.lastSend == q.t >= start)
    && (match LastOf(s.log, ARequestOrPostponement(k))
        case None => LastOf(s.log, ARequest(k)).None?
        case Some(q) =>
          && (q.Postponed? ==> ch.lastSend == q.t >= start && IsAnswered(s.log, k))
          && (IsScheduling(s, k) || ch.sendTime == if q.Requested? then q.t else q.t + SEND_MESSAGES_INTERVAL)
          && (q.Requested? ==> q.t <= now))
  }

  /** A frame was sent after the last request. */
  ghost predicate IsAnswered(log: seq<Record>, k: nat) {
    LastOf(log, ARequestOrFrame(k)).Some? && LastOf(log, ARequestOrFrame(k)).value.SentOutput?
  }

  ghost predicate KnownUpdates(c: Config, log: seq<Record>, lastUpdate: map<string, nat>, now: nat) {
    forall key | key in lastUpdate ::
      key in c.timing && lastUpdate[key] == Latest(c, log, key) && lastUpdate[key] <= now
  }

  /** The check of channel `k` in this pass is done: if the channel is mapped and its window was open, the
      latest request is answered and the next send is later than the check. */
  ghost predicate CheckDone(c: Config, s: State, k: nat)
    requires k < |s.channels| && k < |c.outputs|
  {
    match LastOf(s.log, ACheck(k))
    case None => false
    case Some(q) =>
      IsMapped(c, k) && q.tEnd <= s.channels[k].sendEnd ==>
        q.tEnd < s.channels[k].sendTime && IsAnswered(s.log, k)
  }

  ghost function Progress(s: State): nat {
    match s.pc
    case Turn(k, _) => k
    case Beat => if s.status.Running? then OUTPUT_MAX else 0
    case _ => 0
  }

  /** The window was open at the check of this turn. */
  ghost predicate OpenOk(c: Config, s: State, k: nat, tEnd: nat, now: nat)
    requires k < |s.channels| && k < |c.outputs|
  {
    && 0 < tEnd <= now && tEnd <= s.channels[k].sendEnd && IsMapped(c, k)
    && LastOf(s.log, ACheck(k)) == Some(Checked(k, tEnd))
  }

  ghost predicate SeenOk(c: Config, log: seq<Record>, k: nat, seen: nat, start: nat)
    requires k < |c.outputs|
  {
    seen <= start || Updated(ToString(c.outputs[k]), seen) in log
  }

  ghost predicate CheckOk(c: Config, s: State, k: nat, check: Check, start: nat, now: nat)
    requires k < |s.channels| && k < |c.outputs|
  {
    && OpenOk(c, s, k, check.tEnd, now) && SeenOk(c, s.log, k, check.seen, start)
    && (match check.due
        case Some(t) => s.channels[k].sendTime <= t
        case None => s.channels[k].lastSend < check.seen)
  }

  ghost predicate StageOk(c: Config, s: State, k: nat, stage: Stage, start: nat, now: nat)
    requires k < |s.channels| && k < |c.outputs|
  {
    match stage
    case Start => true
    case Open(tEnd) => OpenOk(c, s, k, tEnd, now)
    case Unchanged(tEnd, seen) => OpenOk(c, s, k, tEnd, now) && SeenOk(c, s.log, k, seen, start)
    case Chosen(check) => CheckOk(c, s, k, check, start, now)
    case Fresh(check, t) =>
      && CheckOk(c, s, k, check, start, now)
      && t <= now && !StaleChannel(c, s.lastUpdate, c.outputs[k], t)
    case Ready(check, value) =>
      && CheckOk(c, s, k, check, start, now)
      && LastOf(s.log, AValue(k)).Some? && LastOf(s.log, AValue(k)).value.value == value
    case Sent =>
      && LastOf(s.log, ACheck(k)).Some? && LastOf(s.log, ACheck(k)).value.tEnd <= now
      && IsAnswered(s.log, k) && LastOf(s.log, ARequest(k)).Some?
  }

  ghost predicate HeartbeatOk(s: State, start: nat, now: nat) {
    && (match LastOf(s.log, AHere)
        case None => s.hereTime == start
        case Some(q) => s.hereTime == q.t + KEEP_ALIVE_INTERVAL)
    && (if s.pc.Speaking?
        then s.hereTime <= s.pc.tCheck <= now && LastOf(s.log, ABeat) == Some(BeatChecked(s.pc.tCheck))
        else match LastOf(s.log, ABeat)
             case None => true
             case Some(b) => b.t <= now && b.t < s.hereTime && LastOf(s.log, AHere).Some?)
  }

  /** Status, connection and heartbeat. */
  ghost predicate ConnectionOk(s: State, start: nat, now: nat) {
    && !s.pc.Dead?
    && (s.pc.Dispatch? || s.pc.Scheduling? || s.pc.Turn? ==> s.status.Running?)
    && (s.status.Running? <==>
          LastOf(s.log, AConnection).Some? && LastOf(s.log, AConnection).value.Handled?)
    && (s.status.Running? ==>
          LastOf(s.log, AHandled).Some? && s.resetTime == LastOf(s.log, AHandled).value.t + CONNECTION_TIMEOUT)
    && HeartbeatOk(s, start, now)
  }

  ghost predicate LoopOk(c: Config, s: State, start: nat, now: nat)
    requires WellFormed(c, s)
  {
    && ConnectionOk(s, start, now)
    && (s.pc.Dispatch? ==> LastOf(s.log, AHandled).Some? && LastOf(s.log, AHandled).value.frame == s.pc.frame)
    && (s.pc.Scheduling? ==>
          && s.channels[s.pc.k].sendTime == s.pc.t <= now
          && s.pc.point.hostId == c.programId && s.pc.point.channelId == s.pc.k
          && LastOf(s.log, AHandled).Some? && AsksOutput(c, LastOf(s.log, AHandled).value.frame, s.pc.k, s.pc.point))
    && (s.pc.Turn? ==> StageOk(c, s, s.pc.k, s.pc.stage, start, now))
  }

  ghost predicate Inv(c: Config, s: State, start: nat, now: nat) {
    && WellFormed(c, s) && Runnable(c) && 0 < start <= now
    && s.lastUpdate.Keys == c.timing.Keys
    && (forall key | key in c.timing :: c.timing[key].lastUpdate <= start)
    && LoopOk(c, s, start, now)
    && (forall k | 0 <= k < OUTPUT_MAX :: TimersOk(c, s, k, start, now))
    && KnownUpdates(c, s.log, s.lastUpdate, now)
    && (forall k | 0 <= k < Progress(s) && k < OUTPUT_MAX :: CheckDone(c, s, k))
  }

  lemma InitInv(c: Config, s: State, start: nat)
    requires Runnable(c) && Init(c, s, start) && start > 0
    requires forall key | key in c.timing :: c.timing[key].lastUpdate <= start
    ensures Inv(c, s, start, start) && HistoryOk(c, s.log)
  {
  }

  // ----- what a step leaves alone -----

  ghost predicate Concerns(r: Record, k: int) {
    (r.Requested? || r.SentOutput? || r.Checked? || r.Postponed? || r.ValueRead?) && r.k == k
  }

  lemma SameLast(log: seq<Record>, rs: seq<Record>, k: nat)
    requires |rs| <= 1 && (|rs| == 1 ==> !Concerns(rs[0], k))
    ensures LastOf(log + rs, ARequest(k)) == LastOf(log, ARequest(k))
    ensures LastOf(log + rs, APostponement(k)) == LastOf(log, APostponement(k))
    ensures LastOf(log + rs, ARequestOrPostponement(k)) == LastOf(log, ARequestOrPostponement(k))
    ensures LastOf(log + rs, ARequestOrFrame(k)) == LastOf(log, ARequestOrFrame(k))
    ensures LastOf(log + rs, ACheck(k)) == LastOf(log, ACheck(k))
    ensures LastOf(log + rs, AValue(k)) == LastOf(log, AValue(k))
  {
    if rs == [] {
      assert log + rs == log;
    } else {
      assert rs == [rs[0]];
      LastAfter(log, rs[0]);
    }
  }

  /** A step that logs at most one record leaves every channel alone that neither it nor the record
      touches. */
  lemma ChannelFrame(c: Config, s: State, s': State, rs: seq<Record>, touched: int, start: nat, now: nat, now': nat)
    requires WellFormed(c, s) && WellFormed(c, s') && |rs| <= 1 && s'.log == s.log + rs && now <= now'
    requires forall k | 0 <= k < OUTPUT_MAX && k != touched ::
               s'.channels[k] == s.channels[k] && (IsScheduling(s, k) <==> IsScheduling(s', k))
    requires forall k | |rs| == 1 && Concerns(rs[0], k) :: k == touched
    requires forall k | 0 <= k < OUTPUT_MAX :: TimersOk(c, s, k, start, now)
    ensures forall k | 0 <= k < OUTPUT_MAX && k != touched :: TimersOk(c, s', k, start, now')
    ensures forall k | 0 <= k < OUTPUT_MAX && k != touched && CheckDone(c, s, k) :: CheckDone(c, s', k)
  {
    forall k | 0 <= k < OUTPUT_MAX && k != touched
      ensures TimersOk(c, s', k, start, now')
      ensures CheckDone(c, s, k) ==> CheckDone(c, s', k)
    {
      SameLast(s.log, rs, k);
      assert TimersOk(c, s, k, start, now);
    }
  }

  lemma KnownFrame(c: Config, log: seq<Record>, lastUpdate: map<string, nat>, rs: seq<Record>, now: nat, now': nat)
    requires KnownUpdates(c, log, lastUpdate, now) && now <= now'
    requires |rs| <= 1 && (|rs| == 1 ==> !rs[0].Updated?)
    ensures KnownUpdates(c, log + rs, lastUpdate, now')
  {
    if rs == [] {
      assert log + rs == log;
    } else {
      assert rs == [rs[0]];
      LastAfter(log, rs[0]);
    }
  }

  lemma KnownAfterUpdate(c: Config, log: seq<Record>, lastUpdate: map<string, nat>, key: string, now: nat, t: nat)
    requires KnownUpdates(c, log, lastUpdate, now) && now <= t && key in lastUpdate
    ensures KnownUpdates(c, log + [Updated(key, t)], lastUpdate[key := t], t)
  {
    LastAfter(log, Updated(key, t));
  }

  /** The loop part of the invariant follows where nothing it speaks of has changed. */
  lemma StageFrame(c: Config, s: State, s': State, k: nat, stage: Stage, rs: seq<Record>, start: nat, now: nat,
                   now': nat)
    requires k < |s.channels| && k < |c.outputs| && |s'.channels| == |s.channels| && now <= now'
    requires StageOk(c, s, k, stage, start, now) && s'.channels[k] == s.channels[k]
    requires |rs| <= 1 && (|rs| == 1 ==> !Concerns(rs[0], k)) && s'.log == s.log + rs
    requires forall t: nat | t <= now && !StaleChannel(c, s.lastUpdate, c.outputs[k], t) ::
               !StaleChannel(c, s'.lastUpdate, c.outputs[k], t)
    ensures StageOk(c, s', k, stage, start, now')
  {
    SameLast(s.log, rs, k);
  }

  /** The parts of the invariant put together again after a step that is no MQTT update. */
  lemma Assemble(c: Config, s: State, s': State, rs: seq<Record>, touched: int, start: nat, now: nat, now': nat)
    requires Inv(c, s, start, now) && WellFormed(c, s') && now <= now'
    requires |rs| <= 1 && s'.log == s.log + rs && (|rs| == 1 ==> !rs[0].Updated?) && s'.lastUpdate == s.lastUpdate
    requires forall k | 0 <= k < OUTPUT_MAX && k != touched ::
               s'.channels[k] == s.channels[k] && (IsScheduling(s, k) <==> IsScheduling(s', k))
    requires forall k | |rs| == 1 && Concerns(rs[0], k) :: k == touched
    requires LoopOk(c, s', start, now')
    requires 0 <= touched < OUTPUT_MAX ==> TimersOk(c, s', touched, start, now')
    requires 0 <= touched < OUTPUT_MAX && touched < Progress(s') ==> CheckDone(c, s', touched)
    requires Progress(s') <= Progress(s) || Progress(s') == touched + 1 == Progress(s) + 1
    ensures Inv(c, s', start, now')
  {
    ChannelFrame(c, s, s', rs, touched, start, now, now');
    KnownFrame(c, s.log, s.lastUpdate, rs, now, now');
  }

  // ----- the steps outside a turn -----

  lemma UpdateLoop(c: Config, s: State, e: Event, start: nat, now: nat)
    requires WellFormed(c, s) && LoopOk(c, s, start, now) && e.Update? && now <= e.now && e.key in s.lastUpdate
    ensures WellFormed(c, Step(c, s, e)) && LoopOk(c, Step(c, s, e), start, e.now)
  {
    if s.pc.Turn? {
      StageFrame(c, s, Step(c, s, e), s.pc.k, s.pc.stage, [Updated(e.key, e.now)], start, now, e.now);
    }
    UpdateConnection(s, Step(c, s, e), Updated(e.key, e.now), start, now, e.now);
  }

  lemma UpdateConnection(s: State, s': State, r: Record, start: nat, now: nat, now': nat)
    requires ConnectionOk(s, start, now) && now <= now' && r.Updated? && s'.log == s.log + [r]
    requires s'.pc == s.pc && s'.status == s.status && s'.hereTime == s.hereTime && s'.resetTime == s.resetTime
    ensures ConnectionOk(s', start, now')
  {
    LastAfter(s.log, r);
  }

  lemma LaterLoop(c: Config, s: State, start: nat, now: nat, now': nat)
    requires WellFormed(c, s) && LoopOk(c, s, start, now) && now <= now'
    ensures LoopOk(c, s, start, now')
  {
    if s.pc.Turn? {
      assert s.log == s.log + [];
      StageFrame(c, s, s, s.pc.k, s.pc.stage, [], start, now, now');
    }
  }

  lemma UpdateInv(c: Config, s: State, e: Event, start: nat, now: nat)
    requires Inv(c, s, start, now) && e.Update? && now <= e.now
    ensures Inv(c, Step(c, s, e), start, e.now)
  {
    if e.key in s.lastUpdate {
      UpdateLoop(c, s, e, start, now);
      ChannelFrame(c, s, Step(c, s, e), [Updated(e.key, e.now)], -1, start, now, e.now);
      KnownAfterUpdate(c, s.log, s.lastUpdate, e.key, now, e.now);
    } else {
      assert s.log == s.log + [];
      LaterLoop(c, s, start, now, e.now);
      Assemble(c, s, s, [], -1, start, now, e.now);
    }
  }

  lemma SilenceLoop(c: Config, s: State, e: Event, start: nat, now: nat)
    requires WellFormed(c, s) && LoopOk(c, s, start, now) && e.Silence? && Enabled(s, e) && now <= e.now
    ensures WellFormed(c, Step(c, s, e)) && LoopOk(c, Step(c, s, e), start, e.now)
    ensures Progress(Step(c, s, e)) == 0
  {
    LastAfter(s.log, Lost(e.now));
  }

  lemma SilenceInv(c: Config, s: State, e: Event, start: nat, now: nat)
    requires Inv(c, s, start, now) && e.Silence? && Enabled(s, e) && now <= e.now
    ensures Inv(c, Step(c, s, e), start, e.now)
  {
    var rs := if s.status.Running? && s.resetTime <= e.now then [Lost(e.now)] else [];
    SilenceLoop(c, s, e, start, now);
    assert Step(c, s, e).log == s.log + rs;
    Assemble(c, s, Step(c, s, e), rs, -1, start, now, e.now);
  }

  lemma ReceiveLoop(c: Config, s: State, e: Event, start: nat, now: nat)
    requires WellFormed(c, s) && LoopOk(c, s, start, now) && e.Receive? && Enabled(s, e) && now <= e.now
    ensures WellFormed(c, Step(c, s, e)) && LoopOk(c, Step(c, s, e), start, e.now)
  {
    LastAfter(s.log, Handled(e.now, e.frame));
  }

  lemma ReceiveInv(c: Config, s: State, e: Event, start: nat, now: nat)
    requires Inv(c, s, start, now) && e.Receive? && Enabled(s, e) && now <= e.now
    ensures Inv(c, Step(c, s, e), start, e.now)
  {
    ReceiveLoop(c, s, e, start, now);
    Assemble(c, s, Step(c, s, e), [Handled(e.now, e.frame)], -1, start, now, e.now);
  }

  /** What a request logs at its first clock reading. */
  ghost function AnswerRecords(c: Config, s: State, a: Action, now: nat, unused: Bits3): seq<Record> {
    if a.Answer? then [Reply(s.status, now, a.frame)]
    else if a.SayHere? then [Here(false, now, now, HereFrame(c, unused))]
    else []
  }

  ghost function ActionAt(c: Config, s: State, e: Event): Action
    requires |c.outputs| == OUTPUT_MAX && s.pc.Dispatch? && e.Handle?
  {
    ActionFor(c, s.lastUpdate, s.pc.frame, e.now, e.value)
  }

  lemma PerformLoop(c: Config, s: State, a: Action, start: nat, now: nat, now': nat, unused: Bits3)
    requires WellFormed(c, s) && LoopOk(c, s, start, now) && s.pc.Dispatch? && IsPossible(a) && now <= now'
    requires a.Schedule? ==> AsksOutput(c, s.pc.frame, a.k, a.point)
    ensures var s' := Perform(c, s, a, now', unused);
            && WellFormed(c, s') && LoopOk(c, s', start, now') && Progress(s') == 0
            && s'.log == s.log + AnswerRecords(c, s, a, now', unused)
            && s'.lastUpdate == s.lastUpdate && (!a.Schedule? ==> s'.channels == s.channels)
  {
    match a
    case Answer(f) => LastAfter(s.log, Reply(s.status, now', f));
    case SayHere => LastAfter(s.log, Here(false, now', now', HereFrame(c, unused)));
    case _ =>
  }

  lemma ScheduleTimers(c: Config, s: State, k: nat, point: MappingPoint, start: nat, now: nat, now': nat)
    requires WellFormed(c, s) && k < OUTPUT_MAX && TimersOk(c, s, k, start, now) && now <= now'
    ensures TimersOk(c, Perform(c, s, Schedule(k, point), now', 0), k, start, now')
  {
  }

  lemma HandleChannel(c: Config, s: State, a: Action, unused: Bits3, start: nat, now: nat, now': nat)
    requires Inv(c, s, start, now) && s.pc.Dispatch? && IsPossible(a) && now <= now'
    requires a.Schedule? ==> AsksOutput(c, s.pc.frame, a.k, a.point)
    ensures Inv(c, Perform(c, s, a, now', unused), start, now')
  {
    PerformLoop(c, s, a, start, now, now', unused);
    if a.Schedule? {
      assert TimersOk(c, s, a.k, start, now);
      ScheduleTimers(c, s, a.k, a.point, start, now, now');
    }
    Assemble(c, s, Perform(c, s, a, now', unused), AnswerRecords(c, s, a, now', unused),
             if a.Schedule? then a.k else -1, start, now, now');
  }

  lemma HandleInv(c: Config, s: State, e: Event, start: nat, now: nat)
    requires Inv(c, s, start, now) && e.Handle? && Enabled(s, e) && now <= e.now
    ensures Inv(c, Step(c, s, e), start, e.now)
  {
    var a := ActionAt(c, s, e);
    if a.Schedule? {
      ScheduledExactly(c, s.lastUpdate, s.pc.frame, e.now, e.value, a.k, a.point);
    }
    HandleChannel(c, s, a, e.unused, start, now, e.now);
  }

  lemma ExtendTimers(c: Config, s: State, s': State, k: nat, point: MappingPoint, t: nat, start: nat, now: nat,
                     tEnd: nat)
    requires k < |s.channels| && |s'.channels| == |s.channels| && TimersOk(c, s, k, start, now) && now <= tEnd
    requires s'.log == s.log + [Requested(k, point, t, tEnd)] && s.channels[k].sendTime == t <= now
    requires s'.channels[k] == s.channels[k].(sendEnd := tEnd + SEND_MESSAGES_TIME, point := point)
    requires point.hostId == c.programId && point.channelId == k && !s'.pc.Scheduling?
    ensures TimersOk(c, s', k, start, tEnd)
  {
    var r := Requested(k, point, t, tEnd);
    LastAfter(s.log, r);
    assert LastOf(s'.log, ARequest(k)) == Some(r);
    assert LastOf(s'.log, APostponement(k)) == LastOf(s.log, APostponement(k));
    assert LastOf(s'.log, ARequestOrPostponement(k)) == Some(r);
  }

  lemma ExtendParts(c: Config, s: State, e: Event, start: nat, now: nat)
    requires WellFormed(c, s) && LoopOk(c, s, start, now) && e.Extend? && Enabled(s, e) && now <= e.now
    requires TimersOk(c, s, s.pc.k, start, now)
    ensures WellFormed(c, Step(c, s, e)) && LoopOk(c, Step(c, s, e), start, e.now)
    ensures TimersOk(c, Step(c, s, e), s.pc.k, start, e.now)
  {
    LastAfter(s.log, Requested(s.pc.k, s.pc.point, s.pc.t, e.now));
    ExtendTimers(c, s, Step(c, s, e), s.pc.k, s.pc.point, s.pc.t, start, now, e.now);
  }

  lemma ExtendInv(c: Config, s: State, e: Event, start: nat, now: nat)
    requires Inv(c, s, start, now) && e.Extend? && Enabled(s, e) && now <= e.now
    ensures Inv(c, Step(c, s, e), start, e.now)
  {
    assert TimersOk(c, s, s.pc.k, start, now);
    ExtendParts(c, s, e, start, now);
    Assemble(c, s, Step(c, s, e), [Requested(s.pc.k, s.pc.point, s.pc.t, e.now)], s.pc.k, start, now, e.now);
  }

  lemma CheckHereLoop(c: Config, s: State, e: Event, start: nat, now: nat)
    requires WellFormed(c, s) && LoopOk(c, s, start, now) && e.CheckHere? && Enabled(s, e) && start <= now <= e.now
    ensures WellFormed(c, Step(c, s, e)) && LoopOk(c, Step(c, s, e), start, e.now)
  {
    LastAfter(s.log, BeatChecked(e.now));
  }

  lemma CheckHereInv(c: Config, s: State, e: Event, start: nat, now: nat)
    requires Inv(c, s, start, now) && e.CheckHere? && Enabled(s, e) && now <= e.now
    ensures Inv(c, Step(c, s, e), start, e.now)
  {
    CheckHereLoop(c, s, e, start, now);
    Assemble(c, s, Step(c, s, e), [BeatChecked(e.now)], -1, start, now, e.now);
  }

  lemma SpeakLoop(c: Config, s: State, e: Event, start: nat, now: nat)
    requires WellFormed(c, s) && LoopOk(c, s, start, now) && e.Speak? && Enabled(s, e) && now <= e.now
    ensures WellFormed(c, Step(c, s, e)) && LoopOk(c, Step(c, s, e), start, e.now)
  {
    LastAfter(s.log, Here(true, s.pc.tCheck, e.now, HereFrame(c, e.unused)));
  }

  lemma SpeakInv(c: Config, s: State, e: Event, start: nat, now: nat)
    requires Inv(c, s, start, now) && e.Speak? && Enabled(s, e) && now <= e.now
    ensures Inv(c, Step(c, s, e), start, e.now)
  {
    SpeakLoop(c, s, e, start, now);
    Assemble(c, s, Step(c, s, e), [Here(true, s.pc.tCheck, e.now, HereFrame(c, e.unused))], -1, start, now, e.now);
  }

  // ----- the turn of an output -----

  /** What a step of the turn of output `k` has to keep. */
  ghost predicate TurnOk(c: Config, s': State, k: nat, start: nat, now: nat)
    requires k < OUTPUT_MAX
  {
    && WellFormed(c, s') && LoopOk(c, s', start, now) && TimersOk(c, s', k, start, now)
    && (s'.pc == NextTurn(k) && s'.status.Running? ==> CheckDone(c, s', k))
    && (s'.pc == NextTurn(k) || (s'.pc.Turn? && s'.pc.k == k))
  }

  lemma TurnInv(c: Config, s: State, s': State, rs: seq<Record>, start: nat, now: nat, now': nat)
    requires Inv(c, s, start, now) && s.pc.Turn? && now <= now' && TurnOk(c, s', s.pc.k, start, now')
    requires |rs| <= 1 && s'.log == s.log + rs && (|rs| == 1 ==> !rs[0].Updated?) && s'.lastUpdate == s.lastUpdate
    requires forall k | 0 <= k < OUTPUT_MAX && k != s.pc.k :: s'.channels[k] == s.channels[k]
    requires forall k | |rs| == 1 && Concerns(rs[0], k) :: k == s.pc.k
    requires s'.status == s.status
    ensures Inv(c, s', start, now')
  {
    Assemble(c, s, s', rs, s.pc.k, start, now, now');
  }

  /** Most steps of a turn log nothing about the connection or the heartbeat. */
  lemma ConnectionFrame(s: State, s': State, rs: seq<Record>, start: nat, now: nat, now': nat)
    requires ConnectionOk(s, start, now) && s.pc.Turn? && (s'.pc.Turn? || s'.pc.Beat?) && now <= now'
    requires s'.status == s.status && s'.hereTime == s.hereTime && s'.resetTime == s.resetTime
    requires |rs| <= 1 && s'.log == s.log + rs
    requires |rs| == 1 ==> !rs[0].Handled? && !rs[0].Lost? && !rs[0].Here? && !rs[0].BeatChecked?
    ensures ConnectionOk(s', start, now')
  {
    if rs == [] {
      assert s'.log == s.log;
    } else {
      assert rs == [rs[0]];
      LastAfter(s.log, rs[0]);
    }
  }

  /** Checks and value readings say nothing about the timers. */
  lemma TimersFrame(c: Config, s: State, s': State, r: Record, k: nat, start: nat, now: nat, now': nat)
    requires k < |s.channels| && |s'.channels| == |s.channels| && TimersOk(c, s, k, start, now) && now <= now'
    requires (r.Checked? || r.ValueRead?) && s'.log == s.log + [r] && s'.channels[k] == s.channels[k]
    requires s.pc.Turn? && !s'.pc.Scheduling?
    ensures TimersOk(c, s', k, start, now')
  {
    LastAfter(s.log, r);
    assert LastOf(s'.log, ARequest(k)) == LastOf(s.log, ARequest(k));
    assert LastOf(s'.log, APostponement(k)) == LastOf(s.log, APostponement(k));
    assert LastOf(s'.log, ARequestOrPostponement(k)) == LastOf(s.log, ARequestOrPostponement(k));
    assert LastOf(s'.log, ARequestOrFrame(k)) == LastOf(s.log, ARequestOrFrame(k));
  }

  lemma CheckFrame(c: Config, s: State, s': State, r: Record, k: nat, check: Check, start: nat, now: nat, now': nat)
    requires k < |s.channels| && |s'.channels| == |s.channels| && k < |c.outputs| && now <= now'
    requires CheckOk(c, s, k, check, start, now) && r.ValueRead?
    requires s'.log == s.log + [r] && s'.channels[k] == s.channels[k]
    ensures CheckOk(c, s', k, check, start, now')
  {
    LastAfter(s.log, r);
    assert LastOf(s'.log, ACheck(k)) == LastOf(s.log, ACheck(k));
  }

  lemma CheckEndStep(c: Config, s: State, e: Event, start: nat, now: nat)
    requires WellFormed(c, s) && LoopOk(c, s, start, now) && e.CheckEnd? && Enabled(s, e) && 0 < now <= e.now
    requires TimersOk(c, s, s.pc.k, start, now)
    ensures TurnOk(c, Step(c, s, e), s.pc.k, start, e.now)
  {
    var r := Checked(s.pc.k, e.now);
    ConnectionFrame(s, Step(c, s, e), [r], start, now, e.now);
    TimersFrame(c, s, Step(c, s, e), r, s.pc.k, start, now, e.now);
    LastAfter(s.log, r);
    assert LastOf(Step(c, s, e).log, ACheck(s.pc.k)) == Some(r);
  }

  lemma SeenIsKnown(c: Config, s: State, start: nat, now: nat, k: nat)
    requires k < |c.outputs| && KnownUpdates(c, s.log, s.lastUpdate, now) && ToString(c.outputs[k]) in s.lastUpdate
    requires forall key | key in c.timing :: c.timing[key].lastUpdate <= start
    ensures SeenOk(c, s.log, k, s.lastUpdate[ToString(c.outputs[k])], start)
  {
    LastIsIn(s.log, AnUpdate(ToString(c.outputs[k])));
  }

  lemma SeeStep(c: Config, s: State, start: nat, now: nat)
    requires WellFormed(c, s) && LoopOk(c, s, start, now) && Enabled(s, SeeUpdate)
    requires TimersOk(c, s, s.pc.k, start, now)
    requires ToString(c.outputs[s.pc.k]) in s.lastUpdate
    requires SeenOk(c, s.log, s.pc.k, s.lastUpdate[ToString(c.outputs[s.pc.k])], start)
    ensures TurnOk(c, Step(c, s, SeeUpdate), s.pc.k, start, now)
  {
    assert s.log == s.log + [];
    ConnectionFrame(s, Step(c, s, SeeUpdate), [], start, now, now);
  }

  lemma CheckTimeStep(c: Config, s: State, e: Event, start: nat, now: nat)
    requires WellFormed(c, s) && LoopOk(c, s, start, now) && e.CheckTime? && Enabled(s, e) && now <= e.now
    requires TimersOk(c, s, s.pc.k, start, now)
    ensures TurnOk(c, Step(c, s, e), s.pc.k, start, e.now)
  {
    assert s.log == s.log + [];
    ConnectionFrame(s, Step(c, s, e), [], start, now, e.now);
  }

  lemma StaleStep(c: Config, s: State, e: Event, start: nat, now: nat)
    requires WellFormed(c, s) && LoopOk(c, s, start, now) && e.CheckStale? && Enabled(s, e) && now <= e.now
    requires TimersOk(c, s, s.pc.k, start, now) && StaleChannel(c, s.lastUpdate, c.outputs[s.pc.k], e.now)
    ensures TurnOk(c, Step(c, s, e), s.pc.k, start, e.now)
  {
    var k, s', r := s.pc.k, Step(c, s, e), ValueRead(s.pc.k, true, e.now, SENSOR_UNDEFINED);
    ConnectionFrame(s, s', [r], start, now, e.now);
    TimersFrame(c, s, s', r, k, start, now, e.now);
    CheckFrame(c, s, s', r, k, s.pc.stage.check, start, now, e.now);
    LastAfter(s.log, r);
    assert LastOf(s'.log, AValue(k)) == Some(r);
  }

  lemma FreshStep(c: Config, s: State, e: Event, start: nat, now: nat)
    requires WellFormed(c, s) && LoopOk(c, s, start, now) && e.CheckStale? && Enabled(s, e) && now <= e.now
    requires TimersOk(c, s, s.pc.k, start, now) && !StaleChannel(c, s.lastUpdate, c.outputs[s.pc.k], e.now)
    ensures TurnOk(c, Step(c, s, e), s.pc.k, start, e.now)
  {
    assert s.log == s.log + [];
    ConnectionFrame(s, Step(c, s, e), [], start, now, e.now);
  }

  lemma ReadDriverStep(c: Config, s: State, e: Event, start: nat, now: nat)
    requires WellFormed(c, s) && LoopOk(c, s, start, now) && e.ReadDriver? && Enabled(s, e)
    requires TimersOk(c, s, s.pc.k, start, now)
    ensures TurnOk(c, Step(c, s, e), s.pc.k, start, now)
  {
    var k, s', r := s.pc.k, Step(c, s, e), ValueRead(s.pc.k, false, s.pc.stage.t, e.value);
    ConnectionFrame(s, s', [r], start, now, now);
    TimersFrame(c, s, s', r, k, start, now, now);
    CheckFrame(c, s, s', r, k, s.pc.stage.check, start, now, now);
    LastAfter(s.log, r);
    assert LastOf(s'.log, AValue(k)) == Some(r);
  }

  ghost function SentRecord(c: Config, s: State, unused: Bits3): (r: Record)
    requires WellFormed(c, s) && s.pc.Turn? && s.pc.stage.Ready?
    ensures r.SentOutput?
  {
    var k := s.pc.k;
    SentOutput(k, s.status, OutputFrame(c, s.channels[k].point, s.pc.stage.value, unused), s.pc.stage.check)
  }

  lemma SentTimers(c: Config, s: State, s': State, r: Record, k: nat, start: nat, now: nat)
    requires k < |s.channels| && |s'.channels| == |s.channels| && TimersOk(c, s, k, start, now)
    requires r.SentOutput? && r.k == k && s'.log == s.log + [r] && s'.channels[k] == s.channels[k]
    requires s.pc.Turn? && s'.pc.Turn?
    ensures TimersOk(c, s', k, start, now) && IsAnswered(s'.log, k)
    ensures LastOf(s'.log, ACheck(k)) == LastOf(s.log, ACheck(k))
    ensures LastOf(s'.log, ARequest(k)) == LastOf(s.log, ARequest(k))
  {
    LastAfter(s.log, r);
    assert LastOf(s'.log, ARequest(k)) == LastOf(s.log, ARequest(k));
    assert LastOf(s'.log, APostponement(k)) == LastOf(s.log, APostponement(k));
    assert LastOf(s'.log, ARequestOrPostponement(k)) == LastOf(s.log, ARequestOrPostponement(k));
    assert LastOf(s'.log, ARequestOrFrame(k)) == Some(r);
  }

  lemma TransmitStep(c: Config, s: State, e: Event, start: nat, now: nat)
    requires WellFormed(c, s) && LoopOk(c, s, start, now) && e.Transmit? && Enabled(s, e)
    requires TimersOk(c, s, s.pc.k, start, now)
    ensures TurnOk(c, Step(c, s, e), s.pc.k, start, now)
  {
    var r := SentRecord(c, s, e.unused);
    ConnectionFrame(s, Step(c, s, e), [r], start, now, now);
    SentTimers(c, s, Step(c, s, e), r, s.pc.k, start, now);
  }

  lemma PostponedTimers(c: Config, s: State, s': State, k: nat, start: nat, now: nat, t: nat)
    requires k < |s.channels| && |s'.channels| == |s.channels| && TimersOk(c, s, k, start, now) && start <= now <= t
    requires s'.log == s.log + [Postponed(k, t)] && IsAnswered(s.log, k) && LastOf(s.log, ARequest(k)).Some?
    requires s'.channels[k] == s.channels[k].(sendTime := t + SEND_MESSAGES_INTERVAL, lastSend := t)
    requires s.pc.Turn? && !s'.pc.Scheduling?
    ensures TimersOk(c, s', k, start, t) && IsAnswered(s'.log, k)
    ensures LastOf(s'.log, ACheck(k)) == LastOf(s.log, ACheck(k))
  {
    var r := Postponed(k, t);
    LastAfter(s.log, r);
    assert LastOf(s'.log, ARequest(k)) == LastOf(s.log, ARequest(k));
    assert LastOf(s'.log, APostponement(k)) == Some(r);
    assert LastOf(s'.log, ARequestOrPostponement(k)) == Some(r);
    assert LastOf(s'.log, ARequestOrFrame(k)) == LastOf(s.log, ARequestOrFrame(k));
  }

  lemma PostponeStep(c: Config, s: State, e: Event, start: nat, now: nat)
    requires WellFormed(c, s) && LoopOk(c, s, start, now) && e.Postpone? && Enabled(s, e) && start <= now <= e.now
    requires TimersOk(c, s, s.pc.k, start, now)
    ensures TurnOk(c, Step(c, s, e), s.pc.k, start, e.now)
  {
    ConnectionFrame(s, Step(c, s, e), [Postponed(s.pc.k, e.now)], start, now, e.now);
    PostponedTimers(c, s, Step(c, s, e), s.pc.k, start, now, e.now);
  }

  /** What a step of a turn logs. */
  ghost function TurnRecords(c: Config, s: State, e: Event): seq<Record>
    requires WellFormed(c, s) && Enabled(s, e) && s.pc.Turn?
  {
    var k := s.pc.k;
    match e
    case CheckEnd(now) => [Checked(k, now)]
    case CheckStale(now) =>
      if StaleChannel(c, s.lastUpdate, c.outputs[k], now) then [ValueRead(k, true, now, SENSOR_UNDEFINED)] else []
    case ReadDriver(value) => [ValueRead(k, false, s.pc.stage.t, value)]
    case Transmit(unused) => [SentRecord(c, s, unused)]
    case Postpone(now) => [Postponed(k, now)]
    case _ => []
  }

  lemma TurnLogs(c: Config, s: State, e: Event)
    requires WellFormed(c, s) && Enabled(s, e) && s.pc.Turn? && !e.Update?
    ensures Step(c, s, e).log == s.log + TurnRecords(c, s, e)
    ensures Step(c, s, e).lastUpdate == s.lastUpdate && Step(c, s, e).status == s.status
    ensures forall k | 0 <= k < OUTPUT_MAX && k != s.pc.k :: Step(c, s, e).channels[k] == s.channels[k]
  {
    if e == SeeUpdate || e.CheckTime? || (e.CheckStale? && TurnRecords(c, s, e) == []) {
      assert s.log + [] == s.log;
    }
  }

  lemma TurnStepInv(c: Config, s: State, e: Event, start: nat, now: nat)
    requires Inv(c, s, start, now) && s.pc.Turn? && !e.Update? && Enabled(s, e) && now <= Time(e, now)
    ensures Inv(c, Step(c, s, e), start, Time(e, now))
  {
    assert TimersOk(c, s, s.pc.k, start, now);
    match e {
      case CheckEnd(_) => CheckEndStep(c, s, e, start, now);
      case SeeUpdate =>
        assert IsTimed(c, c.outputs[s.pc.k]);
        SeenIsKnown(c, s, start, now, s.pc.k);
        SeeStep(c, s, start, now);
      case CheckTime(_) => CheckTimeStep(c, s, e, start, now);
      case CheckStale(_) =>
        if StaleChannel(c, s.lastUpdate, c.outputs[s.pc.k], e.now) {
          StaleStep(c, s, e, start, now);
        } else {
          FreshStep(c, s, e, start, now);
        }
      case ReadDriver(_) => ReadDriverStep(c, s, e, start, now);
      case Transmit(_) => TransmitStep(c, s, e, start, now);
      case Postpone(_) => PostponeStep(c, s, e, start, now);
    }
    TurnLogs(c, s, e);
    TurnInv(c, s, Step(c, s, e), TurnRecords(c, s, e), start, now, Time(e, now));
  }

  lemma StepInv(c: Config, s: State, e: Event, start: nat, now: nat)
    requires Inv(c, s, start, now) && Enabled(s, e) && now <= Time(e, now)
    ensures Inv(c, Step(c, s, e), start, Time(e, now))
  {
    match e
    case Update(_, _) => UpdateInv(c, s, e, start, now);
    case Silence(_) => SilenceInv(c, s, e, start, now);
    case Receive(_, _) => ReceiveInv(c, s, e, start, now);
    case Handle(_, _, _) => HandleInv(c, s, e, start, now);
    case Extend(_) => ExtendInv(c, s, e, start, now);
    case CheckHere(_) => CheckHereInv(c, s, e, start, now);
    case Speak(_, _) => SpeakInv(c, s, e, start, now);
    case _ => TurnStepInv(c, s, e, start, now);
  }

  // ----- what a step logs -----

  ghost function Records(c: Config, s: State, e: Event): seq<Record>
    requires WellFormed(c, s) && Enabled(s, e)
  {
    match e
    case Update(key, now) => if key in s.lastUpdate then [Updated(key, now)] else []
    case Silence(now) => if s.status.Running? && s.resetTime <= now then [Lost(now)] else []
    case Receive(frame, now) => [Handled(now, frame)]
    case Handle(now, _, unused) => AnswerRecords(c, s, ActionAt(c, s, e), now, unused)
    case Extend(now) => [Requested(s.pc.k, s.pc.point, s.pc.t, now)]
    case CheckHere(now) => [BeatChecked(now)]
    case Speak(now, unused) => [Here(true, s.pc.tCheck, now, HereFrame(c, unused))]
    case _ => TurnRecords(c, s, e)
  }

  lemma StepLogs(c: Config, s: State, e: Event)
    requires WellFormed(c, s) && Enabled(s, e)
    ensures |Records(c, s, e)| <= 1 && Step(c, s, e).log == s.log + Records(c, s, e)
  {
    assert s.log + [] == s.log;
    if s.pc.Turn? && !e.Update? {
      TurnLogs(c, s, e);
    }
  }

  lemma SentRecordOk(c: Config, s: State, unused: Bits3, start: nat, now: nat)
    requires WellFormed(c, s) && LoopOk(c, s, start, now) && s.pc.Turn? && s.pc.stage.Ready?
    requires TimersOk(c, s, s.pc.k, start, now)
    ensures SentOk(c, s.log, SentRecord(c, s, unused))
  {
    OutputFrameMeans(c, s.channels[s.pc.k].point, s.pc.stage.value, unused);
  }

  lemma ValueRecordOk(c: Config, s: State, r: Record, now: nat)
    requires WellFormed(c, s) && KnownUpdates(c, s.log, s.lastUpdate, now) && r.ValueRead? && r.k < OUTPUT_MAX
    requires IsTimed(c, c.outputs[r.k]) && s.lastUpdate.Keys == c.timing.Keys
    requires r.stale <==> StaleChannel(c, s.lastUpdate, c.outputs[r.k], r.t)
    requires r.stale ==> r.value == SENSOR_UNDEFINED
    ensures ValueOk(c, s.log, r)
  {
  }

  lemma TurnRecordOk(c: Config, s: State, e: Event, start: nat, now: nat)
    requires Inv(c, s, start, now) && Enabled(s, e) && s.pc.Turn? && !e.Update?
    ensures forall r | r in TurnRecords(c, s, e) :: RecordOk(c, s.log, r)
  {
    assert TimersOk(c, s, s.pc.k, start, now);
    if e.Transmit? {
      SentRecordOk(c, s, e.unused, start, now);
    } else if e.ReadDriver? || e.CheckStale? {
      assert IsTimed(c, c.outputs[s.pc.k]);
      forall r | r in TurnRecords(c, s, e)
        ensures ValueOk(c, s.log, r)
      {
        ValueRecordOk(c, s, r, now);
      }
    }
  }

  lemma ReplyRecordOk(c: Config, s: State, e: Event, start: nat, now: nat)
    requires Inv(c, s, start, now) && e.Handle? && s.pc.Dispatch? && ActionAt(c, s, e).Answer?
    ensures ReplyOk(c, s.log, Reply(s.status, e.now, ActionAt(c, s, e).frame))
  {
    var q := s.pc.frame;
    if AsksChannelNumber(q) {
      ChannelNumberAnswer(c, s.lastUpdate, q, e.now, e.value);
    } else if AsksType(q) {
      TypeAnswer(c, s.lastUpdate, q, e.now, e.value);
    } else {
      ParameterAnswer(c, s.lastUpdate, q, e.now, e.value);
      if RawInfo(q.data) in c.mapping {
        UndefinedParameter(c, s, q, e.now, now);
      }
    }
  }

  lemma UndefinedParameter(c: Config, s: State, q: CanFrame, t: nat, now: nat)
    requires KnownUpdates(c, s.log, s.lastUpdate, now) && s.lastUpdate.Keys == c.timing.Keys
    requires RawInfo(q.data) in c.mapping
    ensures IsStaleParameter(c, s.log, q, t) <==> StaleChannel(c, s.lastUpdate, c.mapping[RawInfo(q.data)], t)
  {
  }

  lemma LoopRecordOk(c: Config, s: State, e: Event, start: nat, now: nat)
    requires Inv(c, s, start, now) && Enabled(s, e) && (e.Update? || !s.pc.Turn?)
    ensures forall r | r in Records(c, s, e) :: RecordOk(c, s.log, r)
  {
    if e.Handle? {
      if ActionAt(c, s, e).Answer? {
        ReplyRecordOk(c, s, e, start, now);
      } else if ActionAt(c, s, e).SayHere? {
        HereFrameMeans(c, e.unused);
      }
    } else if e.Speak? {
      HereFrameMeans(c, e.unused);
    }
  }

  lemma StepRecordOk(c: Config, s: State, e: Event, start: nat, now: nat)
    requires Inv(c, s, start, now) && Enabled(s, e)
    ensures forall r | r in Records(c, s, e) :: RecordOk(c, s.log, r)
  {
    if s.pc.Turn? && !e.Update? {
      TurnRecordOk(c, s, e, start, now);
    } else {
      LoopRecordOk(c, s, e, start, now);
    }
  }

  /** What a step adds to the log keeps the promises. */
  lemma StepHistory(c: Config, s: State, e: Event, start: nat, now: nat)
    requires Inv(c, s, start, now) && Enabled(s, e) && now <= Time(e, now)
    requires HistoryOk(c, s.log)
    ensures HistoryOk(c, Step(c, s, e).log)
  {
    var rs := Records(c, s, e);
    StepLogs(c, s, e);
    StepRecordOk(c, s, e, start, now);
    if rs == [] {
      assert s.log + rs == s.log;
    } else {
      assert rs == [rs[0]];
      HistoryAfter(c, s.log, rs[0]);
    }
  }

  lemma {:induction false} RunInv(c: Config, s: State, es: seq<Event>, start: nat, now: nat)
    requires Inv(c, s, start, now) && HistoryOk(c, s.log) && ValidRun(c, s, es, now)
    ensures Inv(c, Run(c, s, es, now), start, Now(es, now))
    ensures HistoryOk(c, Run(c, s, es, now).log)
    decreases es
  {
    if es != [] {
      StepInv(c, s, es[0], start, now);
      StepHistory(c, s, es[0], start, now);
      RunInv(c, Step(c, s, es[0]), es[1..], start, Time(es[0], now));
    }
  }

  // ----- entering the loop -----

  /** The state `s` in which the loop can be entered, at the reading `start`, with the configuration as it stands
      then. */
  ghost predicate Entered(c: Config, s: State, start: nat)
    ensures Entered(c, s, start) ==> WellFormed(c, s)
  {
    Runnable(c) && 0 < start && Init(c, s, start) && forall key | key in c.timing :: c.timing[key].lastUpdate <= start
  }

  lemma EnteredInv(c: Config, s: State, start: nat)
    requires Entered(c, s, start)
    ensures Inv(c, s, start, start) && HistoryOk(c, s.log)
  {
    InitInv(c, s, start);
  }

  /** A controller that was loaded, and perhaps updated since, can enter its loop: what follows holds of it. */
  lemma LoadedEnters(json: ControllerConfig.Controller, clock: nat -> nat, c: Config, s: State, start: nat)
    requires Load(json, clock).Ok? && AtEntry(Load(json, clock).value, c, start) && 0 < start && Init(c, s, start)
    ensures Entered(c, s, start)
  {
    AcceptedIsRunnable(json, clock);
    var loaded := Load(json, clock).value;
    assert forall key | key in loaded.mapping :: IsTimed(loaded, loaded.mapping[key]);
    assert forall k | 0 <= k < OUTPUT_MAX && IsInitialized(loaded.outputs[k]) :: IsTimed(loaded, loaded.outputs[k]);
  }

  lemma {:induction false} SensorTimes(c: Config, ss: seq<Sensor>, clock: nat -> nat, start: nat)
    requires |c.outputs| == OUTPUT_MAX && AddSensors(c, ss, clock).Ok? && forall i :: clock(i) <= start
    requires forall key | key in c.timing :: c.timing[key].lastUpdate <= start
    ensures var d := AddSensors(c, ss, clock).value; forall key | key in d.timing :: d.timing[key].lastUpdate <= start
  {
    if ss != [] {
      SensorTimes(c, ss[..|ss| - 1], clock, start);
    }
  }

  lemma {:induction false} ParamTimes(c: Config, ps: seq<Param>, timeoutMin: Option<int>, first: nat,
                                      clock: nat -> nat, start: nat)
    requires AddParams(c, ps, timeoutMin, first, clock).Ok? && forall i :: clock(i) <= start
    requires forall key | key in c.timing :: c.timing[key].lastUpdate <= start
    ensures var d := AddParams(c, ps, timeoutMin, first, clock).value; forall key | key in d.timing ::
            d.timing[key].lastUpdate <= start
  {
    if ps != [] {
      ParamTimes(c, ps[..|ps| - 1], timeoutMin, first, clock, start);
    }
  }

  /** If it was loaded before and not updated since, it is as it was loaded. */
  lemma LoadedBefore(json: ControllerConfig.Controller, clock: nat -> nat, start: nat)
    requires Load(json, clock).Ok? && forall i :: clock(i) <= start
    ensures AtEntry(Load(json, clock).value, Load(json, clock).value, start)
  {
    var sensors := OrEmpty(json.sensors);
    var c0 := EmptyConfig(json.controllerId);
    SensorTimes(c0, sensors, clock, start);
    ParamTimes(AddSensors(c0, sensors, clock).value, OrEmpty(json.parameters), json.timeoutMin, |sensors|,
               clock, start);
  }

  // ----- the promises over every run -----

  /** In every run of a controller that was loaded the lookup of a timing entry in the loop over the outputs
      succeeds. */
  lemma NeverDies(json: ControllerConfig.Controller, clock: nat -> nat, c: Config, s: State, start: nat, es: seq<Event>)
    requires Load(json, clock).Ok? && AtEntry(Load(json, clock).value, c, start) && 0 < start && Init(c, s, start)
    requires WellFormed(c, s) && ValidRun(c, s, es, start)
    ensures !Run(c, s, es, start).pc.Dead?
  {
    LoadedEnters(json, clock, c, s, start);
    EnteredInv(c, s, start);
    RunInv(c, s, es, start, start);
  }

  /** The output schedule: see `SentOk`. */
  lemma OutputSchedule(c: Config, s: State, start: nat, es: seq<Event>, i: nat)
    requires Entered(c, s, start) && ValidRun(c, s, es, start)
    requires var log := Run(c, s, es, start).log; i < |log| && log[i].SentOutput?
    ensures var log := Run(c, s, es, start).log; SentOk(c, log[..i], log[i])
  {
    EnteredInv(c, s, start);
    RunInv(c, s, es, start, start);
    assert RecordOk(c, Run(c, s, es, start).log[..i], Run(c, s, es, start).log[i]);
  }

  /** Requests for outputs are what the frames handled ask for: see `RequestedOk`. */
  lemma RequestsAreAsked(c: Config, s: State, start: nat, es: seq<Event>, i: nat)
    requires Entered(c, s, start) && ValidRun(c, s, es, start)
    requires var log := Run(c, s, es, start).log; i < |log| && log[i].Requested?
    ensures var log := Run(c, s, es, start).log; RequestedOk(c, log[..i], log[i])
  {
    EnteredInv(c, s, start);
    RunInv(c, s, es, start, start);
    assert RecordOk(c, Run(c, s, es, start).log[..i], Run(c, s, es, start).log[i]);
  }

  /** Replies answer the frame handled last: see `ReplyOk`. */
  lemma RepliesAnswer(c: Config, s: State, start: nat, es: seq<Event>, i: nat)
    requires Entered(c, s, start) && ValidRun(c, s, es, start)
    requires var log := Run(c, s, es, start).log; i < |log| && log[i].Reply?
    ensures var log := Run(c, s, es, start).log; ReplyOk(c, log[..i], log[i])
  {
    EnteredInv(c, s, start);
    RunInv(c, s, es, start, start);
    assert RecordOk(c, Run(c, s, es, start).log[..i], Run(c, s, es, start).log[i]);
  }

  /** The value in an output frame is the one read last before it, and that one is undefined if at its reading the
      latest update of the channel was older than the channel's timeout. */
  lemma StaleIsUndefined(c: Config, s: State, start: nat, es: seq<Event>, i: nat)
    returns (j: nat)
    requires Entered(c, s, start) && ValidRun(c, s, es, start)
    requires var log := Run(c, s, es, start).log; i < |log| && log[i].SentOutput?
    ensures var log := Run(c, s, es, start).log;
            && j < i && Is(log[j], AValue(log[i].k)) && (forall m | j < m < i :: !Is(log[m], AValue(log[i].k)))
            && Codecs.DecodeInt([log[i].frame.data[3], log[i].frame.data[2]], true) == log[j].value
            && ValueOk(c, log[..j], log[j])
  {
    EnteredInv(c, s, start);
    RunInv(c, s, es, start, start);
    var log := Run(c, s, es, start).log;
    var k := log[i].k;
    assert RecordOk(c, log[..i], log[i]);
    j := LastIndex(log[..i], AValue(k));
    assert log[..i][j] == log[j];
    forall m | j < m < i
      ensures !Is(log[m], AValue(k))
    {
      assert log[..i][m] == log[m];
    }
    assert RecordOk(c, log[..j], log[j]);
  }

  lemma {:induction false} LastIndex(log: seq<Record>, kind: Kind) returns (i: nat)
    requires LastOf(log, kind).Some?
    ensures i < |log| && LastOf(log, kind) == Some(log[i]) && forall m | i < m < |log| :: !Is(log[m], kind)
  {
    i := |log| - 1;
    if !Is(log[i], kind) {
      i := LastIndex(log[..i], kind);
    }
  }

  /** The connection machine: RUNNING from a handled frame to the next loss; while RUNNING the deadline is ten
      minutes after the last handled frame; a lost connection was silent for ten minutes; outside RUNNING nothing but
      I_AM_HERE is emitted. */
  lemma ConnectionMachine(c: Config, s: State, start: nat, es: seq<Event>)
    requires Entered(c, s, start) && ValidRun(c, s, es, start)
    ensures var f := Run(c, s, es, start);
            && (f.status.Running? <==> LastOf(f.log, AConnection).Some? && LastOf(f.log, AConnection).value.Handled?)
            && (f.status.Running? ==>
                  LastOf(f.log, AHandled).Some? && f.resetTime == LastOf(f.log, AHandled).value.t + CONNECTION_TIMEOUT)
            && (forall i | 0 <= i < |f.log| && f.log[i].Lost? :: LostOk(f.log[..i], f.log[i]))
            && (forall i | 0 <= i < |f.log| && (f.log[i].SentOutput? || f.log[i].Reply?) :: f.log[i].status.Running?)
  {
    EnteredInv(c, s, start);
    RunInv(c, s, es, start, start);
    var f := Run(c, s, es, start);
    forall i | 0 <= i < |f.log|
      ensures f.log[i].Lost? ==> LostOk(f.log[..i], f.log[i])
      ensures f.log[i].SentOutput? || f.log[i].Reply? ==> f.log[i].status.Running?
    {
      assert RecordOk(c, f.log[..i], f.log[i]);
    }
  }

  /** Every scheduled I_AM_HERE comes at least ten seconds after the previous one of either kind. */
  lemma HeartbeatSpacing(c: Config, s: State, start: nat, es: seq<Event>, i: nat)
    requires Entered(c, s, start) && ValidRun(c, s, es, start)
    requires var log := Run(c, s, es, start).log; i < |log| && log[i].Here?
    ensures var log := Run(c, s, es, start).log; HereOk(c, log[..i], log[i])
  {
    EnteredInv(c, s, start);
    RunInv(c, s, es, start, start);
    assert RecordOk(c, Run(c, s, es, start).log[..i], Run(c, s, es, start).log[i]);
  }

  /** No heartbeat lapses: whenever I_AM_HERE is not being sent, the next deadline is later than the last heartbeat
      check, and ten seconds after an I_AM_HERE that was sent. */
  lemma HeartbeatKept(c: Config, s: State, start: nat, es: seq<Event>)
    requires Entered(c, s, start) && ValidRun(c, s, es, start)
    ensures var f := Run(c, s, es, start);
            !f.pc.Speaking? && LastOf(f.log, ABeat).Some? ==>
              && LastOf(f.log, ABeat).value.t < f.hereTime
              && LastOf(f.log, AHere).Some? && f.hereTime == LastOf(f.log, AHere).value.t + KEEP_ALIVE_INTERVAL
  {
    EnteredInv(c, s, start);
    RunInv(c, s, es, start, start);
  }

  /** When a pass over the outputs is complete, every mapped channel whose window was open at its check is
      answered, as far as it was ever requested, and its next send is later than that check. */
  lemma PassAnswers(c: Config, s: State, start: nat, es: seq<Event>, k: nat)
    requires Entered(c, s, start) && ValidRun(c, s, es, start) && k < OUTPUT_MAX
    requires var f := Run(c, s, es, start); f.pc.Beat? && f.status.Running?
    ensures CheckDone(c, Run(c, s, es, start), k)
  {
    EnteredInv(c, s, start);
    RunInv(c, s, es, start, start);
    assert k < Progress(Run(c, s, es, start));
  }

  // ----- a request is answered in its own iteration -----

  lemma {:induction false} LastIsLater(log: seq<Record>, kind: Kind, j: nat) returns (i: nat)
    requires j < |log| && Is(log[j], kind)
    ensures j <= i < |log| && LastOf(log, kind) == Some(log[i])
  {
    i := |log| - 1;
    if !Is(log[i], kind) {
      i := LastIsLater(log[..i], kind, j);
    }
  }

  lemma SameRequest(c: Config, s: State, e: Event, k: nat)
    requires WellFormed(c, s) && Enabled(s, e) && !e.Extend?
    ensures s.log <= Step(c, s, e).log && LastOf(Step(c, s, e).log, ARequest(k)) == LastOf(s.log, ARequest(k))
  {
    var rs := Records(c, s, e);
    StepLogs(c, s, e);
    if rs != [] {
      assert rs == [rs[0]];
      LastAfter(s.log, rs[0]);
    } else {
      assert s.log + rs == s.log;
    }
  }

  ghost predicate HasExtend(es: seq<Event>) {
    es != [] && (es[0].Extend? || HasExtend(es[1..]))
  }

  lemma {:induction false} SameRequests(c: Config, s: State, es: seq<Event>, k: nat, now: nat)
    requires WellFormed(c, s) && ValidRun(c, s, es, now) && !HasExtend(es)
    ensures var f := Run(c, s, es, now); s.log <= f.log && LastOf(f.log, ARequest(k)) == LastOf(s.log, ARequest(k))
    decreases es
  {
    if es != [] {
      SameRequest(c, s, es[0], k);
      SameRequests(c, Step(c, s, es[0]), es[1..], k, Time(es[0], now));
    }
  }

  /** At the end of a pass the latest request is answered if the check was in its window. */
  lemma AnsweredAtBeat(c: Config, f: State, k: nat, j: nat, r: Record, start: nat, now: nat) returns (i: nat)
    requires Inv(c, f, start, now) && k < OUTPUT_MAX && IsMapped(c, k) && f.pc.Beat? && f.status.Running?
    requires j < |f.log| && f.log[j] == r && Is(r, ARequest(k)) && LastOf(f.log, ARequest(k)) == Some(r)
    requires LastOf(f.log, ACheck(k)).Some? && LastOf(f.log, ACheck(k)).value.tEnd <= r.tEnd + SEND_MESSAGES_TIME
    ensures j < i < |f.log| && f.log[i].SentOutput? && f.log[i].k == k
  {
    assert TimersOk(c, f, k, start, now);
    assert k < Progress(f) && CheckDone(c, f, k);
    i := LastIsLater(f.log, ARequestOrFrame(k), j);
  }

  lemma AnsweredInPass(c: Config, s: State, e: Event, es: seq<Event>, k: nat, start: nat, now: nat) returns (i: nat)
    requires Inv(c, s, start, now) && HistoryOk(c, s.log) && IsScheduling(s, k) && IsMapped(c, k)
    requires e.Extend? && now <= e.now
    requires ValidRun(c, Step(c, s, e), es, e.now) && !HasExtend(es)
    requires var f := Run(c, Step(c, s, e), es, e.now);
             && f.pc.Beat? && f.status.Running?
             && LastOf(f.log, ACheck(k)).Some? && LastOf(f.log, ACheck(k)).value.tEnd <= e.now + SEND_MESSAGES_TIME
    ensures var f := Run(c, Step(c, s, e), es, e.now);
            |s.log| < i < |f.log| && f.log[i].SentOutput? && f.log[i].k == k
  {
    var s', r := Step(c, s, e), Requested(k, s.pc.point, s.pc.t, e.now);
    StepInv(c, s, e, start, now);
    StepHistory(c, s, e, start, now);
    RequestIsLogged(c, s, e, k);
    SameRequests(c, s', es, k, e.now);
    RunInv(c, s', es, start, e.now);
    i := AnsweredAtBeat(c, Run(c, s', es, e.now), k, |s.log|, r, start, Now(es, e.now));
  }

  lemma RequestIsLogged(c: Config, s: State, e: Event, k: nat)
    requires WellFormed(c, s) && IsScheduling(s, k) && e.Extend?
    ensures var s', r := Step(c, s, e), Requested(k, s.pc.point, s.pc.t, e.now);
            && |s'.log| == |s.log| + 1 && s'.log[|s.log|] == r && LastOf(s'.log, ARequest(k)) == Some(r)
  {
    LastAfter(s.log, Requested(k, s.pc.point, s.pc.t, e.now));
  }

  /** Every request for a mapped output is answered before the pass over the outputs ends: when the loop
      comes to its heartbeat without having scheduled another request, a frame of that channel has been sent
      after the request, unless the check came more than ten minutes late. */
  lemma RequestAnswered(c: Config, s0: State, start: nat, before: seq<Event>, e: Event, es: seq<Event>, k: nat)
    returns (i: nat)
    requires Entered(c, s0, start) && ValidRun(c, s0, before, start)
    requires var s, now := Run(c, s0, before, start), Now(before, start);
             && IsScheduling(s, k) && IsMapped(c, k) && e.Extend? && now <= e.now
             && ValidRun(c, Step(c, s, e), es, e.now) && !HasExtend(es)
    requires var f := Run(c, Step(c, Run(c, s0, before, start), e), es, e.now);
             && f.pc.Beat? && f.status.Running?
             && LastOf(f.log, ACheck(k)).Some? && LastOf(f.log, ACheck(k)).value.tEnd <= e.now + SEND_MESSAGES_TIME
    ensures var s := Run(c, s0, before, start);
            var f := Run(c, Step(c, s, e), es, e.now);
            |s.log| < i < |f.log| && f.log[i].SentOutput? && f.log[i].k == k
  {
    EnteredInv(c, s0, start);
    RunInv(c, s0, before, start, start);
    i := AnsweredInPass(c, Run(c, s0, before, start), e, es, k, start, Now(before, start));
  }

  /** Which frames schedule an output. */
  lemma ScheduledExactly(c: Config, lastUpdate: map<string, nat>, frame: CanFrame, t: nat, value: Int16, k: nat,
                         point: MappingPoint)
    requires |c.outputs| == OUTPUT_MAX
    ensures ActionFor(c, lastUpdate, frame, t, value) == Schedule(k, point) <==> AsksOutput(c, frame, k, point)
  {
    PointOfBytes(frame.data, point);
  }

  lemma PointOfBytes(d: Data, point: MappingPoint)
    ensures MappingOf(d[0], d[1]) == point <==> d[..2] == MappingBytes(point)
  {
    MappingRoundTrip(d[0], d[1]);
    assert d[..2] == [d[0], d[1]];
    assert MappingOf(MappingBytes(point)[0], MappingBytes(point)[1]) == point;
  }

  // ----- what a channel sends and a request gets -----

  /** A frame of the controller's own, as it is received. */
  lemma OwnFields(c: Config, functionId: Byte, unused: Bits3)
    ensures var raw := Extended(Raw(OwnHeader(c, functionId, unused)));
            var h := Header(raw);
            && IsExtended(raw)
            && h.programType == PT_CONTROLLER && h.programId == c.programId && h.functionId == functionId
            && h.messageFormat == MF_FORMAT_0 && h.messageType == MT_MSG_RESPONSE
  {
    HeaderOfExtended(OwnHeader(c, functionId, unused));
  }

  lemma HereFrameMeans(c: Config, unused: Bits3)
    ensures SaysHere(c, HereFrame(c, unused))
  {
    var f := HereFrame(c, unused);
    OwnFields(c, I_AM_HERE, unused);
    assert f.data[..1][0] == f.data[0];
  }

  /** Two bytes hold a 16-bit value, low byte first. */
  lemma WordBytes(v: Int16)
    ensures Codecs.DecodeInt([v % 0x100, v / 0x100 % 0x100], true) == v
  {
    var high: int := v / 0x100;
    assert Codecs.LittleEndian(high, 1) == [high % 0x100] + Codecs.LittleEndian(high / 0x100, 0);
    assert Codecs.LittleEndian(v, 2) == [v % 0x100] + Codecs.LittleEndian(high, 1);
    assert [v % 0x100, v / 0x100 % 0x100] == Codecs.LittleEndian(v, 2);
    assert Codecs.Pow256(1) == 0x100 * Codecs.Pow256(0) && Codecs.Pow256(2) == 0x100 * Codecs.Pow256(1);
    Codecs.DecodeEncodeInt(v, 2, true);
  }

  /** Whoever receives an output frame reads from it the sender, the mapping point of the request and the
      value, high byte first. */
  lemma OutputFrameMeans(c: Config, point: MappingPoint, v: Int16, unused: Bits3)
    ensures var f := OutputFrame(c, point, v, unused);
            var h := Header(f.canId);
            && IsExtended(f.canId)
            && h.programType == PT_CONTROLLER && h.programId == c.programId && h.functionId == GET_OUTPUT_VALUE
            && h.messageFormat == MF_FORMAT_0 && h.messageType == MT_MSG_RESPONSE
            && f.dlc == 4 && f.data[..2] == MappingBytes(point) && MappingOf(f.data[0], f.data[1]) == point
            && Codecs.DecodeInt([f.data[3], f.data[2]], true) == v
  {
    var d := OutputFrame(c, point, v, unused).data;
    OwnFields(c, GET_OUTPUT_VALUE, unused);
    assert d[..4][..2] == d[..2];
    assert d[..4][0] == d[0] && d[..4][1] == d[1] && d[..4][2] == d[2] && d[..4][3] == d[3];
    WordBytes(v);
  }

  // ----- what a request gets -----

  ghost predicate IsRequestHere(c: Config, q: CanFrame) {
    Header(q.canId).messageType == MT_MSG_REQUEST && Header(q.canId).programId == c.programId
  }

  lemma ResponseFields(c: Config, q: CanFrame, f: CanFrame)
    requires ResponseId(c, Header(q.canId)).Some? && ResponseId(c, Header(q.canId)).value == f.canId
    ensures IsResponse(c, q, f)
  {
    HeaderOfExtended(Header(q.canId).(messageType := MT_MSG_RESPONSE));
  }

  lemma NumberBytes(n: nat)
    ensures (n % 0x100) + 0x100 * (n / 0x100 % 0x100) == n % 0x1_0000
  {
    var m := n / 0x100;
    var low, middle, high := n % 0x100, m % 0x100, m / 0x100;
    assert n == low + 0x100 * m && m == middle + 0x100 * high;
    Modulo(low + 0x100 * middle, high, n);
  }

  lemma Modulo(r: nat, q: nat, n: nat)
    requires n == r + 0x1_0000 * q && r < 0x1_0000
    ensures n % 0x1_0000 == r
  {
  }

  lemma ChannelNumberAnswer(c: Config, lastUpdate: map<string, nat>, q: CanFrame, t: nat, value: Int16)
    requires |c.outputs| == OUTPUT_MAX && AsksChannelNumber(q)
    ensures var a := ActionFor(c, lastUpdate, q, t, value);
            && (a.Answer? <==> IsRequestHere(c, q)) && (a.Refuse? <==> !a.Answer?)
            && (a.Answer? ==> IsResponse(c, q, a.frame) && TellsChannelNumber(c, a.frame))
  {
    var a := ActionFor(c, lastUpdate, q, t, value);
    if a.Answer? {
      ResponseFields(c, q, a.frame);
      NumberBytes(ChannelNumber(c));
      assert a.frame.data[..2][0] == a.frame.data[0] && a.frame.data[..2][1] == a.frame.data[1];
    }
  }

  lemma TypeAnswer(c: Config, lastUpdate: map<string, nat>, q: CanFrame, t: nat, value: Int16)
    requires |c.outputs| == OUTPUT_MAX && AsksType(q)
    ensures var a := ActionFor(c, lastUpdate, q, t, value);
            && (a.Answer? <==> IsRequestHere(c, q)) && (a.Refuse? <==> !a.Answer?)
            && (a.Answer? ==> IsResponse(c, q, a.frame) && TellsType(a.frame))
  {
    var a := ActionFor(c, lastUpdate, q, t, value);
    if a.Answer? {
      ResponseFields(c, q, a.frame);
      assert a.frame.data[..1][0] == a.frame.data[0];
    }
  }

  /** A request for a parameter of this controller is answered in RESPONSE to the same program with the
      triple echoed and the value behind it, low byte first: undefined if the triple is not mapped or stale. */
  lemma ParameterAnswer(c: Config, lastUpdate: map<string, nat>, q: CanFrame, t: nat, value: Int16)
    requires |c.outputs| == OUTPUT_MAX && AsksParameter(q)
    ensures var a := ActionFor(c, lastUpdate, q, t, value);
            && (a.Answer? <==> IsRequestHere(c, q)) && (a.Refuse? <==> !a.Answer?)
            && (a.Answer? ==>
                  && IsResponse(c, q, a.frame)
                  && TellsParameter(q, a.frame,
                       if RawInfo(q.data) !in c.mapping || StaleChannel(c, lastUpdate, c.mapping[RawInfo(q.data)], t)
                       then SENSOR_UNDEFINED else value))
  {
    var a, d := ActionFor(c, lastUpdate, q, t, value), q.data;
    if a.Answer? {
      ResponseFields(c, q, a.frame);
      var v: Int16 := if RawInfo(d) in c.mapping
        then ReadValue(c, lastUpdate, c.mapping[RawInfo(d)], t, value) else SENSOR_UNDEFINED;
      AnswerBytes(d, v);
    }
  }

  /** What handling a frame does, by what the frame says. A request for the channel number, the type or a parameter is
      replied to; one for an output schedules it if it is mapped; I_AM_HERE is said to whoever asks; and anything else
      is refused, which leaves no trace but ends the iteration. */
  lemma RequestHandled(c: Config, s: State, e: Event, start: nat, now: nat)
    requires Inv(c, s, start, now) && s.pc.Dispatch? && e.Handle? && now <= e.now
    ensures var q, f := s.pc.frame, Step(c, s, e);
            && (AsksHere(q) ==>
                  && f.pc == Turn(0, Start) && f.hereTime == e.now + KEEP_ALIVE_INTERVAL
                  && |f.log| == |s.log| + 1 && s.log <= f.log && f.log[|s.log|].Here? && !f.log[|s.log|].scheduled)
            && (IsRequestHere(c, q) && (AsksChannelNumber(q) || AsksType(q) || AsksParameter(q)) ==>
                  && f.pc == Turn(0, Start) && |f.log| == |s.log| + 1 && s.log <= f.log
                  && f.log[|s.log|].Reply? && ReplyOk(c, s.log, f.log[|s.log|]))
            && (IsRequestHere(c, q) && AsksParameter(q) ==>
                  TellsParameter(q, f.log[|s.log|].frame,
                    if RawInfo(q.data) !in c.mapping || StaleChannel(c, s.lastUpdate, c.mapping[RawInfo(q.data)], e.now)
                    then SENSOR_UNDEFINED else e.value))
            && (forall k: nat, point | AsksOutput(c, q, k, point) ::
                  f.pc == Scheduling(k, point, e.now) && f.channels[k].sendTime == e.now && f.log == s.log)
            && (AsksUnmapped(c, q) ==> f == s.(pc := Turn(0, Start)))
            && (f.pc.Waiting? ==> f == s.(pc := Waiting))
            && (f.pc.Waiting? <==> IsRefused(c, q))
  {
    var q := s.pc.frame;
    StepLogs(c, s, e);
    StepRecordOk(c, s, e, start, now);
    HandledActions(c, s, q, e);
    if ActionAt(c, s, e).Answer? {
      assert Step(c, s, e).log[|s.log|] in Records(c, s, e);
    }
    if AsksParameter(q) {
      ParameterAnswer(c, s.lastUpdate, q, e.now, e.value);
    }
  }

  /** It asks for an output of this controller that is not mapped. */
  ghost predicate AsksUnmapped(c: Config, q: CanFrame)
    requires |c.outputs| == OUTPUT_MAX
  {
    && Header(q.canId).programType == PT_CONTROLLER && Header(q.canId).functionId == GET_OUTPUT_VALUE
    && q.data[0] == c.programId && !IsInitialized(c.outputs[q.data[1] % 0x20])
  }

  /** It asks for an output of this controller. */
  ghost predicate AsksOwnOutput(c: Config, q: CanFrame) {
    && Header(q.canId).programType == PT_CONTROLLER && Header(q.canId).functionId == GET_OUTPUT_VALUE
    && q.data[0] == c.programId
  }

  /** It asks for nothing that this controller gives. */
  ghost predicate IsRefused(c: Config, q: CanFrame) {
    && !AsksHere(q) && !AsksOwnOutput(c, q)
    && !(IsRequestHere(c, q) && (AsksChannelNumber(q) || AsksType(q) || AsksParameter(q)))
  }

  lemma HandledActions(c: Config, s: State, q: CanFrame, e: Event)
    requires |c.outputs| == OUTPUT_MAX && s.pc == Dispatch(q) && e.Handle?
    ensures var a := ActionAt(c, s, e);
            && (AsksHere(q) <==> a.SayHere?)
            && (IsRequestHere(c, q) && (AsksChannelNumber(q) || AsksType(q) || AsksParameter(q)) <==> a.Answer?)
            && (forall k: nat, point :: AsksOutput(c, q, k, point) <==> a == Schedule(k, point))
            && (AsksUnmapped(c, q) <==> a.Ignore?)
            && (IsRefused(c, q) <==> a.Refuse?)
  {
    forall k: nat, point
      ensures AsksOutput(c, q, k, point) <==> ActionAt(c, s, e) == Schedule(k, point)
    {
      ScheduledExactly(c, s.lastUpdate, q, e.now, e.value, k, point);
    }
    if AsksChannelNumber(q) {
      ChannelNumberAnswer(c, s.lastUpdate, q, e.now, e.value);
    } else if AsksType(q) {
      TypeAnswer(c, s.lastUpdate, q, e.now, e.value);
    } else if AsksParameter(q) {
      ParameterAnswer(c, s.lastUpdate, q, e.now, e.value);
    }
  }

  lemma AnswerBytes(d: Data, v: Int16)
    ensures var r := Overlay(ZERO_DATA, [d[0], d[1], d[2], v % 0x100, v / 0x100 % 0x100]);
            r[..3] == d[..3] && Codecs.DecodeInt(r[3..5], true) == v
  {
    var bytes := [d[0], d[1], d[2], v % 0x100, v / 0x100 % 0x100];
    var r := Overlay(ZERO_DATA, bytes);
    assert r[..3] == r[..5][..3] == d[..3];
    assert r[3..5] == r[..5][3..] == [v % 0x100, v / 0x100 % 0x100];
    WordBytes(v);
  }

  // ----- readings of the clock and of the driver -----

  /** The times in the log, and those carried along to later steps, are the clock readings of the steps that put them
      there. */
  lemma ReadingsAreKept(c: Config, s: State, e: Event)
    requires WellFormed(c, s) && Enabled(s, e)
    ensures forall r | r in Records(c, s, e) ::
              match r
              case Updated(key, t) => e == Update(key, t)
              case Handled(t, frame) => e == Receive(frame, t)
              case Lost(t) => e == Silence(t)
              case Requested(_, _, t, tEnd) => e == Extend(tEnd) && s.pc.Scheduling? && t == s.pc.t
              case Checked(_, tEnd) => e == CheckEnd(tEnd)
              case ValueRead(_, stale, t, value) =>
                if stale then e == CheckStale(t)
                else e == ReadDriver(value) && s.pc.Turn? && s.pc.stage.Fresh? && t == s.pc.stage.t
              case SentOutput(_, _, _, check) =>
                e.Transmit? && s.pc.Turn? && s.pc.stage.Ready? && check == s.pc.stage.check
              case Postponed(_, t) => e == Postpone(t)
              case BeatChecked(t) => e == CheckHere(t)
              case Here(scheduled, tCheck, t, _) =>
                if scheduled then e.Speak? && t == e.now && s.pc.Speaking? && tCheck == s.pc.tCheck
                else e.Handle? && t == e.now
              case Reply(_, t, _) => e.Handle? && t == e.now
    ensures var f := Step(c, s, e);
            match e
            case Handle(now, _, _) => f.pc.Scheduling? ==> f.pc.t == now
            case CheckEnd(now) => f.pc.Turn? && f.pc.stage.Open? ==> f.pc.stage.tEnd == now
            case CheckTime(now) => f.pc.Turn? && f.pc.stage.Chosen? ==> f.pc.stage.check.due == Some(now)
            case CheckStale(now) => f.pc.Turn? && f.pc.stage.Fresh? ==> f.pc.stage.t == now
            case CheckHere(now) => f.pc.Speaking? ==> f.pc.tCheck == now
            case _ => true
  {
  }

  ghost predicate AreUpdates(es: seq<Event>) {
    forall e | e in es :: e.Update?
  }

  lemma {:induction false} UpdatesKeep(c: Config, s: State, es: seq<Event>, now: nat)
    requires WellFormed(c, s) && ValidRun(c, s, es, now) && AreUpdates(es)
    ensures var f := Run(c, s, es, now); f == s.(lastUpdate := f.lastUpdate, log := f.log)
    decreases es
  {
    if es != [] {
      assert es[0] in es && forall e | e in es[1..] :: e in es;
      StepWellFormed(c, s, es[0]);
      UpdatesKeep(c, Step(c, s, es[0]), es[1..], Time(es[0], now));
    }
  }

  /** What the driver answers for a value that is not stale is what is sent, whatever is updated meanwhile. */
  lemma DriverValueSent(c: Config, s: State, value: Int16, es: seq<Event>, now: nat, unused: Bits3)
    requires WellFormed(c, s) && Enabled(s, ReadDriver(value)) && AreUpdates(es)
    requires WellFormed(c, Step(c, s, ReadDriver(value))) && ValidRun(c, Step(c, s, ReadDriver(value)), es, now)
    ensures var g := Run(c, Step(c, s, ReadDriver(value)), es, now);
            && Enabled(g, Transmit(unused))
            && var f := Step(c, g, Transmit(unused));
            && |f.log| == |g.log| + 1 && f.log[|g.log|].SentOutput? && f.log[|g.log|].k == s.pc.k
            && IsOutputFrame(c, f.log[|g.log|].frame, s.channels[s.pc.k].point, value)
  {
    UpdatesKeep(c, Step(c, s, ReadDriver(value)), es, now);
    OutputFrameMeans(c, s.channels[s.pc.k].point, value, unused);
  }

  // ----- which frames are taken, and when a value is stale -----

  /** The frames that a controller takes, field by field: those with its id, and every request for one of its
      outputs. */
  lemma TakenExactly(c: Config, programType: Byte, programId: Byte, functionId: Byte, format: Bits3, kind: Bits2,
                     unused: Bits3, dlc: Byte, data: Data)
    ensures var h := CanHeader(programType, programId, functionId, format, kind, unused);
            IsForMe(c, CanFrame(Raw(h), dlc, data)) <==>
              || programId == c.programId
              || (kind == MT_MSG_REQUEST && programType == PT_CONTROLLER && functionId == GET_OUTPUT_VALUE
                  && data[0] == c.programId)
  {
    HeaderOfRaw(CanHeader(programType, programId, functionId, format, kind, unused));
    MappingLayout(data[0], data[1]);
  }

  /** A value is stale from one reading behind its timeout on, and never without a timeout. */
  lemma StaleFrom(timeoutMin: int, lastUpdate: nat, t: nat)
    ensures timeoutMin < 0 ==> !IsStale(timeoutMin, lastUpdate, t)
    ensures timeoutMin >= 0 ==> (IsStale(timeoutMin, lastUpdate, t) <==> lastUpdate + timeoutMin * MINUTE + 1 <= t)
  {
  }
}
