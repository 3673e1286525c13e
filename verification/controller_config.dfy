/** Loading of a virtual controller, `LoadMqttToSmartWebController` and `LoadTiming` of
    `src/config_parser.cpp` and the channel names of `src/MqttToSmartWebGateway.cpp`. The bounds that
    the JSON schema enforces are types here. */
module ControllerConfig {
  import opened Conventions
  import opened Wrappers

  const OUTPUT_MAX := 32

  /** `TMqttChannel`; empty names until it is initialised. */
  datatype Channel = Channel(device: string, control: string)

  const NO_CHANNEL := Channel("", "")

  /** `TMqttChannelTiming`: when the value last changed, and after how many minutes it is stale. */
  datatype Timing = Timing(lastUpdate: nat, timeoutMin: int)

  datatype Config = Config(
    programId: Byte, mapping: map<Word, Channel>, timing: map<string, Timing>, outputs: seq<Channel>,
      parameterCount: Byte)

  type SensorIndex = i: int | 1 <= i <= 32 witness 1

  datatype Sensor = Sensor(channel: string, index: SensorIndex, timeoutMin: Option<int>)

  datatype Param = Param(channel: string, programType: Byte, parameterId: Byte, index: Byte)

  datatype Controller = Controller(
    controllerId: Byte, timeoutMin: Option<int>, sensors: Option<seq<Sensor>>, parameters: Option<seq<Param>>)

  datatype Error = DuplicateSensor | DuplicateOutput | DuplicateParameter | BadChannel | NoMapping

  // ----- channel names -----

  /** The position of the first slash, or the length. */
  function FindSlash(s: string): (i: nat)
    ensures i <= |s| && (i < |s| ==> s[i] == '/') && '/' !in s[..i]
  {
    if s == [] || s[0] == '/' then 0 else 1 + FindSlash(s[1..])
  }

  /** `from_string`; none if it throws. */
  function FromString(s: string): Option<Channel> {
    var i := FindSlash(s);
    if i == |s| || s[..i] == "" || s[i + 1..] == "" then None else Some(Channel(s[..i], s[i + 1..]))
  }

  function ToString(c: Channel): string {
    c.device + "/" + c.control
  }

  predicate IsInitialized(c: Channel) {
    c.device != "" || c.control != ""
  }

  /** Splitting a name at its first slash and joining it again gives the same name. */
  lemma JoinOfSplit(s: string)
    requires FromString(s).Some?
    ensures ToString(FromString(s).value) == s
    ensures FromString(s).value.device != "" && FromString(s).value.control != "" && '/' !in FromString(s).value.device
  {
    var i := FindSlash(s);
    assert s == s[..i] + [s[i]] + s[i + 1..];
  }

  /** Splitting a joined name gives the parts back exactly if the device has no slash and none is empty. */
  lemma SplitOfJoin(c: Channel)
    ensures FromString(ToString(c)) == Some(c) <==> c.device != "" && c.control != "" && '/' !in c.device
  {
    var s := ToString(c);
    assert s[|c.device|] == '/' && s[..|c.device|] == c.device && s[|c.device| + 1..] == c.control;
    if '/' !in c.device {
      FirstSlash(s, |c.device|);
    } else if FromString(s) == Some(c) {
      JoinOfSplit(s);
    }
  }

  lemma {:induction false} FirstSlash(s: string, i: nat)
    requires i < |s| && s[i] == '/' && '/' !in s[..i]
    ensures FindSlash(s) == i
  {
    var j := FindSlash(s);
    assert forall k | 0 <= k < i :: s[k] == s[..i][k];
    assert forall k | 0 <= k < j :: s[k] == s[..j][k];
  }

  // ----- the loops over sensors and parameters -----

  function Touched(timing: map<string, Timing>, channel: string, timeoutMin: Option<int>,
                   now: nat): map<string, Timing> {
    var minutes := if channel in timing then timing[channel].timeoutMin else -1;
    timing[channel := Timing(now, if timeoutMin.Some? then timeoutMin.value else minutes)]
  }

  function CountAfter(count: Byte, index: Byte): Byte {
    var byte: Byte := (index + 1) % 0x100;
    if count < byte then byte else count
  }

  function SensorKey(index: Byte): Word {
    ParameterKey(PT_CONTROLLER, SENSOR, index)
  }

  function ParamKey(p: Param): Word {
    ParameterKey(p.programType, p.parameterId, p.index)
  }

  function AddSensor(c: Config, s: Sensor, now: nat): Result<Config, Error>
    requires |c.outputs| == OUTPUT_MAX
  {
    var key := SensorKey(s.index);
    if key in c.mapping then Err(DuplicateSensor)
    else if FromString(s.channel).None? then Err(BadChannel)
    else if IsInitialized(c.outputs[s.index - 1]) then Err(DuplicateOutput)
    else
      var channel := FromString(s.channel).value;
      Ok(c.(timing := Touched(c.timing, s.channel, s.timeoutMin, now),
            mapping := c.mapping[key := channel],
            parameterCount := CountAfter(c.parameterCount, s.index),
            outputs := c.outputs[s.index - 1 := channel]))
  }

  /** The timing of a parameter takes the timeout of the whole controller, not its own. */
  function AddParam(c: Config, p: Param, timeoutMin: Option<int>, now: nat): Result<Config, Error> {
    if ParamKey(p) in c.mapping then Err(DuplicateParameter)
    else if FromString(p.channel).None? then Err(BadChannel)
    else
      Ok(c.(timing := Touched(c.timing, p.channel, timeoutMin, now),
            mapping := c.mapping[ParamKey(p) := FromString(p.channel).value],
            parameterCount := CountAfter(c.parameterCount, p.index)))
  }

  function AddSensors(c: Config, ss: seq<Sensor>, clock: nat -> nat): (r: Result<Config, Error>)
    requires |c.outputs| == OUTPUT_MAX
    ensures r.Ok? ==> |r.value.outputs| == OUTPUT_MAX
  {
    if ss == [] then Ok(c)
    else
      match AddSensors(c, ss[..|ss| - 1], clock)
      case Err(e) => Err(e)
      case Ok(d) => AddSensor(d, ss[|ss| - 1], clock(|ss| - 1))
  }

  function AddParams(c: Config, ps: seq<Param>, timeoutMin: Option<int>, first: nat,
                     clock: nat -> nat): (r: Result<Config, Error>)
    ensures r.Ok? ==> r.value.outputs == c.outputs
  {
    if ps == [] then Ok(c)
    else
      match AddParams(c, ps[..|ps| - 1], timeoutMin, first, clock)
      case Err(e) => Err(e)
      case Ok(d) => AddParam(d, ps[|ps| - 1], timeoutMin, clock(first + |ps| - 1))
  }

  function OrEmpty<T>(o: Option<seq<T>>): seq<T> {
    if o.Some? then o.value else []
  }

  function EmptyConfig(id: Byte): Config {
    Config(id, map[], map[], seq(OUTPUT_MAX, i requires 0 <= i < OUTPUT_MAX => NO_CHANNEL), 0)
  }

  /** `clock(i)` is the reading of the clock when the i-th entry is loaded. */
  function Load(json: Controller, clock: nat -> nat): (r: Result<Config, Error>)
    ensures r.Ok? ==> |r.value.outputs| == OUTPUT_MAX
  {
    var sensors, params := OrEmpty(json.sensors), OrEmpty(json.parameters);
    match AddSensors(EmptyConfig(json.controllerId), sensors, clock)
    case Err(e) => Err(e)
    case Ok(c) =>
      match AddParams(c, params, json.timeoutMin, |sensors|, clock)
      case Err(e) => Err(e)
      case Ok(d) => if json.sensors.None? && json.parameters.None? then Err(NoMapping) else Ok(d)
  }

  lemma {:induction false} SensorErrorStays(c: Config, ss: seq<Sensor>, n: nat, clock: nat -> nat)
    requires |c.outputs| == OUTPUT_MAX && n <= |ss| && AddSensors(c, ss[..n], clock).Err?
    ensures AddSensors(c, ss, clock) == AddSensors(c, ss[..n], clock)
    decreases |ss|
  {
    if n < |ss| {
      assert ss[..|ss| - 1][..n] == ss[..n];
      SensorErrorStays(c, ss[..|ss| - 1], n, clock);
    } else {
      assert ss[..n] == ss;
    }
  }

  lemma {:induction false} ParamErrorStays(c: Config, ps: seq<Param>, timeoutMin: Option<int>, first: nat, n: nat,
                                           clock: nat -> nat)
    requires n <= |ps| && AddParams(c, ps[..n], timeoutMin, first, clock).Err?
    ensures AddParams(c, ps, timeoutMin, first, clock) == AddParams(c, ps[..n], timeoutMin, first, clock)
    decreases |ps|
  {
    if n < |ps| {
      assert ps[..|ps| - 1][..n] == ps[..n];
      ParamErrorStays(c, ps[..|ps| - 1], timeoutMin, first, n, clock);
    } else {
      assert ps[..n] == ps;
    }
  }

  /** One more entry is loaded. */
  lemma NextSensor(init: Config, sensors: seq<Sensor>, i: nat, res: Config, clock: nat -> nat)
    requires |init.outputs| == OUTPUT_MAX && |res.outputs| == OUTPUT_MAX && i < |sensors|
    requires AddSensors(init, sensors[..i], clock) == Ok(res)
    ensures AddSensors(init, sensors[..i + 1], clock) == AddSensor(res, sensors[i], clock(i))
  {
    var ss := sensors[..i + 1];
    assert ss[..i] == sensors[..i];
    assert |ss| - 1 == i && ss[i] == sensors[i];
  }

  lemma NextParam(init: Config, front: seq<Param>, p: Param, res: Config, timeoutMin: Option<int>, first: nat,
                  clock: nat -> nat)
    requires AddParams(init, front, timeoutMin, first, clock) == Ok(res)
    ensures AddParams(init, front + [p], timeoutMin, first, clock) ==
            AddParam(res, p, timeoutMin, clock(first + |front|))
  {
    var ps := front + [p];
    assert ps[..|ps| - 1] == front && ps[|ps| - 1] == p && |ps| - 1 == |front|;
  }

  lemma NextParamAt(init: Config, params: seq<Param>, i: nat, res: Config, timeoutMin: Option<int>, first: nat,
                    clock: nat -> nat)
    requires i < |params| && AddParams(init, params[..i], timeoutMin, first, clock) == Ok(res)
    ensures AddParams(init, params[..i + 1], timeoutMin, first, clock) ==
            AddParam(res, params[i], timeoutMin, clock(first + i))
  {
    NextParam(init, params[..i], params[i], res, timeoutMin, first, clock);
    assert params[..i + 1] == params[..i] + [params[i]];
  }

  method LoadSensors(init: Config, sensors: seq<Sensor>, clock: nat -> nat) returns (r: Result<Config, Error>)
    requires |init.outputs| == OUTPUT_MAX
    ensures r == AddSensors(init, sensors, clock)
  {
    var res := init;
    for i := 0 to |sensors|
      invariant |res.outputs| == OUTPUT_MAX
      invariant AddSensors(init, sensors[..i], clock) == Ok(res)
    {
      NextSensor(init, sensors, i, res, clock);
      var next := LoadSensor(res, sensors[i], clock(i));
      if next.Err? {
        SensorErrorStays(init, sensors, i + 1, clock);
        return next;
      }
      res := next.value;
    }
    assert sensors[..|sensors|] == sensors;
    r := Ok(res);
  }

  /** The body of the loop over the sensors. */
  method LoadSensor(init: Config, s: Sensor, now: nat) returns (r: Result<Config, Error>)
    requires |init.outputs| == OUTPUT_MAX
    ensures r == AddSensor(init, s, now)
  {
    var res := init.(timing := Touched(init.timing, s.channel, s.timeoutMin, now));
    var key := SensorKey(s.index);
    if key in res.mapping {
      return Err(DuplicateSensor);
    }
    var channel := FromString(s.channel);
    if channel.None? {
      return Err(BadChannel);
    }
    res := res.(mapping := res.mapping[key := channel.value],
        parameterCount := CountAfter(res.parameterCount, s.index));
    if IsInitialized(res.outputs[s.index - 1]) {
      return Err(DuplicateOutput);
    }
    r := Ok(res.(outputs := res.outputs[s.index - 1 := channel.value]));
  }

  method LoadParams(init: Config, params: seq<Param>, timeoutMin: Option<int>, first: nat, clock: nat -> nat)
    returns (r: Result<Config, Error>)
    ensures r == AddParams(init, params, timeoutMin, first, clock)
  {
    var res := init;
    for i := 0 to |params|
      invariant AddParams(init, params[..i], timeoutMin, first, clock) == Ok(res)
    {
      NextParamAt(init, params, i, res, timeoutMin, first, clock);
      var next := LoadParam(res, params[i], timeoutMin, clock(first + i));
      if next.Err? {
        ParamErrorStays(init, params, timeoutMin, first, i + 1, clock);
        return next;
      }
      res := next.value;
    }
    assert params[..|params|] == params;
    r := Ok(res);
  }

  /** The body of the loop over the parameters. */
  method LoadParam(init: Config, p: Param, timeoutMin: Option<int>, now: nat) returns (r: Result<Config, Error>)
    ensures r == AddParam(init, p, timeoutMin, now)
  {
    var res := init.(timing := Touched(init.timing, p.channel, timeoutMin, now));
    if ParamKey(p) in res.mapping {
      return Err(DuplicateParameter);
    }
    var channel := FromString(p.channel);
    if channel.None? {
      return Err(BadChannel);
    }
    r := Ok(res.(mapping := res.mapping[ParamKey(p) := channel.value],
        parameterCount := CountAfter(res.parameterCount, p.index)));
  }

  /** `LoadMqttToSmartWebController`. */
  method LoadController(json: Controller, clock: nat -> nat) returns (r: Result<Config, Error>)
    ensures r == Load(json, clock)
  {
    var sensors, params := OrEmpty(json.sensors), OrEmpty(json.parameters);
    r := LoadSensors(EmptyConfig(json.controllerId), sensors, clock);
    if r.Ok? {
      r := LoadParams(r.value, params, json.timeoutMin, |sensors|, clock);
      if r.Ok? && json.sensors.None? && json.parameters.None? {
        r := Err(NoMapping);
      }
    }
  }

  // ----- which controllers are accepted -----

  /** A sensor or parameter of the description: the triple it maps and the channel it maps it to. */
  datatype Entry = Entry(programType: Byte, parameterId: Byte, index: Byte, channel: string) {
    function Key(): Word {
      ParameterKey(programType, parameterId, index)
    }
  }

  function SensorEntry(s: Sensor): Entry {
    Entry(PT_CONTROLLER, SENSOR, s.index, s.channel)
  }

  function SensorEntries(ss: seq<Sensor>): seq<Entry> {
    seq(|ss|, i requires 0 <= i < |ss| => SensorEntry(ss[i]))
  }

  function EntryOf(p: Param): Entry {
    Entry(p.programType, p.parameterId, p.index, p.channel)
  }

  function ParamEntries(ps: seq<Param>): seq<Entry> {
    seq(|ps|, i requires 0 <= i < |ps| => EntryOf(ps[i]))
  }

  function Entries(json: Controller): seq<Entry> {
    SensorEntries(OrEmpty(json.sensors)) + ParamEntries(OrEmpty(json.parameters))
  }

  predicate SameTriple(a: Entry, b: Entry) {
    a.programType == b.programType && a.parameterId == b.parameterId && a.index == b.index
  }

  ghost predicate Repeats(es: seq<Entry>, i: nat)
    requires i < |es|
  {
    exists j :: 0 <= j < i && SameTriple(es[j], es[i])
  }

  ghost predicate Good(es: seq<Entry>, i: nat)
    requires i < |es|
  {
    FromString(es[i].channel).Some? && !Repeats(es, i)
  }

  ghost predicate AllGood(es: seq<Entry>) {
    forall i | 0 <= i < |es| :: Good(es, i)
  }

  ghost predicate FirstBad(es: seq<Entry>, i: nat) {
    i < |es| && !Good(es, i) && forall j | 0 <= j < i :: Good(es, j)
  }

  /** What the loaded configuration knows about the entries loaded so far. */
  ghost predicate Reflects(c: Config, es: seq<Entry>) {
    && |c.outputs| == OUTPUT_MAX
    && (forall i | 0 <= i < |es| :: MappedAs(c, es[i]))
    && (forall key | key in c.mapping :: exists i :: 0 <= i < |es| && es[i].Key() == key)
    && (forall k | 0 <= k < OUTPUT_MAX && IsInitialized(c.outputs[k]) :: OutputIsSensor(c, k))
  }

  ghost predicate MappedAs(c: Config, e: Entry) {
    && e.Key() in c.mapping && FromString(e.channel) == Some(c.mapping[e.Key()])
    && e.channel in c.timing
    && (e.index <= 254 ==> e.index < c.parameterCount)
  }

  ghost predicate OutputIsSensor(c: Config, k: nat)
    requires k < |c.outputs| && k < OUTPUT_MAX
  {
    SensorKey(k + 1) in c.mapping && c.outputs[k] == c.mapping[SensorKey(k + 1)]
  }

  lemma InMappingIffRepeats(c: Config, es: seq<Entry>, e: Entry)
    requires Reflects(c, es)
    ensures e.Key() in c.mapping <==> Repeats(es + [e], |es|)
  {
    var all := es + [e];
    if e.Key() in c.mapping {
      var i :| 0 <= i < |es| && es[i].Key() == e.Key();
      KeyInjective(es[i].programType, es[i].parameterId, es[i].index, e.programType, e.parameterId, e.index);
      assert SameTriple(all[i], all[|es|]);
    }
    if Repeats(all, |es|) {
      var j :| 0 <= j < |es| && SameTriple(all[j], all[|es|]);
      assert all[j] == es[j] && MappedAs(c, es[j]);
    }
  }

  /** The step common to both loops, once the entry is new and its channel well formed. */
  lemma MapEntry(c: Config, d: Config, es: seq<Entry>, e: Entry, timeoutMin: Option<int>, now: nat)
    requires Reflects(c, es) && e.Key() !in c.mapping && FromString(e.channel).Some?
    requires d.mapping == c.mapping[e.Key() := FromString(e.channel).value]
    requires d.timing == Touched(c.timing, e.channel, timeoutMin, now)
    requires d.parameterCount == CountAfter(c.parameterCount, e.index)
    requires |d.outputs| == OUTPUT_MAX
    requires forall k | 0 <= k < OUTPUT_MAX && IsInitialized(d.outputs[k]) ::
               d.outputs[k] == c.outputs[k] ||
                 (e.Key() == SensorKey(k + 1) && d.outputs[k] == FromString(e.channel).value)
    ensures Reflects(d, es + [e])
  {
    MapEntryEntries(c, d, es, e, timeoutMin, now);
    MapEntryKeys(c, d, es, e);
    forall k | 0 <= k < OUTPUT_MAX && IsInitialized(d.outputs[k])
      ensures OutputIsSensor(d, k)
    {
      if d.outputs[k] == c.outputs[k] {
        assert OutputIsSensor(c, k);
      }
    }
  }

  lemma MapEntryEntries(c: Config, d: Config, es: seq<Entry>, e: Entry, timeoutMin: Option<int>, now: nat)
    requires forall i | 0 <= i < |es| :: MappedAs(c, es[i])
    requires e.Key() !in c.mapping && FromString(e.channel).Some?
    requires d.mapping == c.mapping[e.Key() := FromString(e.channel).value]
    requires d.timing == Touched(c.timing, e.channel, timeoutMin, now)
    requires d.parameterCount == CountAfter(c.parameterCount, e.index)
    ensures forall i | 0 <= i < |es + [e]| :: MappedAs(d, (es + [e])[i])
  {
    var all := es + [e];
    forall i | 0 <= i < |all|
      ensures MappedAs(d, all[i])
    {
      if i < |es| {
        assert MappedAs(c, es[i]);
      }
    }
  }

  lemma MapEntryKeys(c: Config, d: Config, es: seq<Entry>, e: Entry)
    requires forall key | key in c.mapping :: exists i :: 0 <= i < |es| && es[i].Key() == key
    requires d.mapping.Keys == c.mapping.Keys + {e.Key()}
    ensures forall key | key in d.mapping :: exists i :: 0 <= i < |es + [e]| && (es + [e])[i].Key() == key
  {
    var all := es + [e];
    forall key | key in d.mapping
      ensures exists i :: 0 <= i < |all| && all[i].Key() == key
    {
      if key in c.mapping {
        var i :| 0 <= i < |es| && es[i].Key() == key;
        assert all[i].Key() == key;
      } else {
        assert all[|es|].Key() == key;
      }
    }
  }

  lemma SensorStep(c: Config, es: seq<Entry>, s: Sensor, now: nat)
    requires Reflects(c, es)
    ensures var e := SensorEntry(s);
            var all, r := es + [e], AddSensor(c, s, now);
            && (Good(all, |es|) ==>
                  && r.Ok? && Reflects(r.value, all)
                  && FromString(s.channel) == Some(r.value.outputs[s.index - 1])
                  && (forall k | 0 <= k < OUTPUT_MAX && k + 1 != s.index :: r.value.outputs[k] == c.outputs[k]))
            && (!Good(all, |es|) ==> r == Err(if Repeats(all, |es|) then DuplicateSensor else BadChannel))
  {
    var e := SensorEntry(s);
    InMappingIffRepeats(c, es, e);
    assert IsInitialized(c.outputs[s.index - 1]) ==> OutputIsSensor(c, s.index - 1);
    if Good(es + [e], |es|) {
      var d := AddSensor(c, s, now).value;
      MapEntry(c, d, es, e, s.timeoutMin, now);
      OneOutputAdded(c, s, now);
    }
  }

  lemma OneOutputAdded(c: Config, s: Sensor, now: nat)
    requires |c.outputs| == OUTPUT_MAX && AddSensor(c, s, now).Ok?
    ensures var d := AddSensor(c, s, now).value;
            && FromString(s.channel) == Some(d.outputs[s.index - 1])
            && (forall k | 0 <= k < OUTPUT_MAX && k + 1 != s.index :: d.outputs[k] == c.outputs[k])
  {
  }

  lemma ParamStep(c: Config, es: seq<Entry>, p: Param, timeoutMin: Option<int>, now: nat)
    requires Reflects(c, es)
    ensures var e := EntryOf(p);
            var all, r := es + [e], AddParam(c, p, timeoutMin, now);
            && (Good(all, |es|) ==> r.Ok? && Reflects(r.value, all) && r.value.outputs == c.outputs)
            && (!Good(all, |es|) ==> r == Err(if Repeats(all, |es|) then DuplicateParameter else BadChannel))
  {
    var e := EntryOf(p);
    InMappingIffRepeats(c, es, e);
    if Good(es + [e], |es|) {
      MapEntry(c, AddParam(c, p, timeoutMin, now).value, es, e, timeoutMin, now);
    }
  }

  lemma GoodPrefix(es: seq<Entry>, fs: seq<Entry>, i: nat)
    requires i < |es|
    ensures Good(es + fs, i) <==> Good(es, i)
    ensures Repeats(es + fs, i) <==> Repeats(es, i)
  {
    var all := es + fs;
    assert forall j | 0 <= j <= i :: all[j] == es[j];
    if Repeats(es, i) {
      var j :| 0 <= j < i && SameTriple(es[j], es[i]);
      assert SameTriple(all[j], all[i]);
    }
    if Repeats(all, i) {
      var j :| 0 <= j < i && SameTriple(all[j], all[i]);
      assert SameTriple(es[j], es[i]);
    }
  }

  lemma FirstBadPrefix(es: seq<Entry>, fs: seq<Entry>)
    ensures AllGood(es + fs) ==> AllGood(es)
    ensures forall i | 0 <= i < |es| :: FirstBad(es + fs, i) <==> FirstBad(es, i)
    ensures forall i | 0 <= i < |es| :: Repeats(es + fs, i) <==> Repeats(es, i)
    ensures forall i: nat | FirstBad(es + fs, i) && |es| <= i :: AllGood(es)
  {
    var all := es + fs;
    forall i | 0 <= i < |es|
      ensures (Good(all, i) <==> Good(es, i)) && (Repeats(all, i) <==> Repeats(es, i))
    {
      GoodPrefix(es, fs, i);
    }
  }

  /** The outcome of a loop: everything loaded, or the error of the first bad entry. */
  ghost predicate Outcome(r: Result<Config, Error>, es: seq<Entry>, duplicate: Error, from: nat) {
    && (AllGood(es) ==> r.Ok? && Reflects(r.value, es))
    && (!AllGood(es) ==> r.Err?)
    && (forall i: nat | FirstBad(es, i) && from <= i :: r == Err(if Repeats(es, i) then duplicate else BadChannel))
  }

  lemma AllGoodSnoc(es: seq<Entry>, e: Entry)
    ensures AllGood(es + [e]) <==> AllGood(es) && Good(es + [e], |es|)
  {
    var all := es + [e];
    forall i | 0 <= i < |es|
      ensures Good(all, i) <==> Good(es, i)
    {
      GoodPrefix(es, [e], i);
    }
    if AllGood(all) {
      assert Good(all, |es|);
    }
  }

  lemma FirstBadSnoc(es: seq<Entry>, e: Entry, i: nat)
    requires FirstBad(es + [e], i)
    ensures if i < |es| then FirstBad(es, i) && (Repeats(es + [e], i) <==> Repeats(es, i)) else i == |es| && AllGood(es)
  {
    var all := es + [e];
    forall j | 0 <= j < |es|
      ensures (Good(all, j) <==> Good(es, j)) && (Repeats(all, j) <==> Repeats(es, j))
    {
      GoodPrefix(es, [e], j);
    }
  }

  lemma OutcomeStep(before: Result<Config, Error>, after: Result<Config, Error>, es: seq<Entry>, e: Entry,
                    duplicate: Error, from: nat)
    requires Outcome(before, es, duplicate, from) && from <= |es|
    requires before.Err? ==> after == before
    requires before.Ok? && Good(es + [e], |es|) ==> after.Ok? && Reflects(after.value, es + [e])
    requires before.Ok? && !Good(es + [e], |es|) ==>
               after == Err(if Repeats(es + [e], |es|) then duplicate else BadChannel)
    ensures Outcome(after, es + [e], duplicate, from)
  {
    AllGoodSnoc(es, e);
    forall i: nat | FirstBad(es + [e], i) && from <= i
      ensures after == Err(if Repeats(es + [e], i) then duplicate else BadChannel)
    {
      FirstBadSnoc(es, e, i);
    }
  }

  lemma SensorOutcomeStep(c: Config, es: seq<Entry>, ss: seq<Sensor>, clock: nat -> nat)
    requires ss != [] && |c.outputs| == OUTPUT_MAX
    requires Outcome(AddSensors(c, ss[..|ss| - 1], clock), es, DuplicateSensor, 0)
    ensures Outcome(AddSensors(c, ss, clock), es + [SensorEntry(ss[|ss| - 1])], DuplicateSensor, 0)
  {
    var before := AddSensors(c, ss[..|ss| - 1], clock);
    if before.Ok? {
      SensorStep(before.value, es, ss[|ss| - 1], clock(|ss| - 1));
    }
    OutcomeStep(before, AddSensors(c, ss, clock), es, SensorEntry(ss[|ss| - 1]), DuplicateSensor, 0);
  }

  lemma OutcomeOfNothing(c: Config, duplicate: Error)
    requires Reflects(c, [])
    ensures Outcome(Ok(c), [], duplicate, 0)
  {
  }

  lemma SensorEntriesSnoc(ss: seq<Sensor>)
    requires ss != []
    ensures SensorEntries(ss) == SensorEntries(ss[..|ss| - 1]) + [SensorEntry(ss[|ss| - 1])]
  {
  }

  lemma {:induction false} SensorsOutcome(c: Config, ss: seq<Sensor>, clock: nat -> nat)
    requires Reflects(c, [])
    ensures Outcome(AddSensors(c, ss, clock), SensorEntries(ss), DuplicateSensor, 0)
  {
    if ss == [] {
      OutcomeOfNothing(c, DuplicateSensor);
      assert SensorEntries(ss) == [];
    } else {
      SensorsOutcome(c, ss[..|ss| - 1], clock);
      SensorOutcomeStep(c, SensorEntries(ss[..|ss| - 1]), ss, clock);
      SensorEntriesSnoc(ss);
    }
  }

  lemma ParamOutcomeStep(c: Config, es: seq<Entry>, ps: seq<Param>, timeoutMin: Option<int>, first: nat, from: nat,
                         clock: nat -> nat)
    requires ps != [] && from <= |es|
    requires Outcome(AddParams(c, ps[..|ps| - 1], timeoutMin, first, clock), es, DuplicateParameter, from)
    ensures Outcome(AddParams(c, ps, timeoutMin, first, clock), es + [EntryOf(ps[|ps| - 1])], DuplicateParameter, from)
  {
    var before := AddParams(c, ps[..|ps| - 1], timeoutMin, first, clock);
    if before.Ok? {
      ParamStep(before.value, es, ps[|ps| - 1], timeoutMin, clock(first + |ps| - 1));
    }
    OutcomeStep(before, AddParams(c, ps, timeoutMin, first, clock), es, EntryOf(ps[|ps| - 1]), DuplicateParameter,
        from);
  }

  lemma ParamEntriesSnoc(sensors: seq<Entry>, ps: seq<Param>)
    requires ps != []
    ensures sensors + ParamEntries(ps) == sensors + ParamEntries(ps[..|ps| - 1]) + [EntryOf(ps[|ps| - 1])]
  {
  }

  lemma {:induction false} ParamsOutcome(c: Config, sensors: seq<Entry>, ps: seq<Param>, timeoutMin: Option<int>,
                                         first: nat, clock: nat -> nat)
    requires Reflects(c, sensors) && AllGood(sensors)
    ensures Outcome(AddParams(c, ps, timeoutMin, first, clock), sensors + ParamEntries(ps), DuplicateParameter,
                    |sensors|)
  {
    if ps == [] {
      assert sensors + ParamEntries(ps) == sensors;
    } else {
      var es := sensors + ParamEntries(ps[..|ps| - 1]);
      ParamsOutcome(c, sensors, ps[..|ps| - 1], timeoutMin, first, clock);
      ParamOutcomeStep(c, es, ps, timeoutMin, first, |sensors|, clock);
      ParamEntriesSnoc(sensors, ps);
    }
  }

  lemma LoadOutcome(json: Controller, clock: nat -> nat)
    ensures var es, r := Entries(json), Load(json, clock);
            && (r.Ok? <==> (json.sensors.Some? || json.parameters.Some?) && AllGood(es))
            && (r.Ok? ==> Reflects(r.value, es))
            && (forall i: nat | FirstBad(es, i) :: r ==
                  if !Repeats(es, i) then Err(BadChannel)
                  else if i < |OrEmpty(json.sensors)| then Err(DuplicateSensor) else Err(DuplicateParameter))
  {
    var sensors, params := OrEmpty(json.sensors), OrEmpty(json.parameters);
    var ss, ps := SensorEntries(sensors), ParamEntries(params);
    var c0 := EmptyConfig(json.controllerId);
    SensorsOutcome(c0, sensors, clock);
    FirstBadPrefix(ss, ps);
    var r := AddSensors(c0, sensors, clock);
    if r.Ok? {
      ParamsOutcome(r.value, ss, params, json.timeoutMin, |sensors|, clock);
    }
  }

  // ----- the outputs of an accepted controller -----

  /** Every sensor is an output, at its index less one, and nothing else is. */
  ghost predicate SensorsAreOutputs(c: Config, ss: seq<Sensor>) {
    && |c.outputs| == OUTPUT_MAX
    && (forall i | 0 <= i < |ss| :: FromString(ss[i].channel) == Some(c.outputs[ss[i].index - 1]))
    && (forall k | 0 <= k < OUTPUT_MAX :: IsInitialized(c.outputs[k]) <==> IsSensorIndex(ss, k + 1))
  }

  ghost predicate IsSensorIndex(ss: seq<Sensor>, index: int) {
    exists i :: 0 <= i < |ss| && ss[i].index == index
  }

  lemma SensorIndexSnoc(ss: seq<Sensor>, index: int)
    requires ss != []
    ensures IsSensorIndex(ss, index) <==> IsSensorIndex(ss[..|ss| - 1], index) || ss[|ss| - 1].index == index
  {
    var front := ss[..|ss| - 1];
    if i :| 0 <= i < |front| && front[i].index == index {
      assert ss[i].index == index;
    }
    if i :| 0 <= i < |ss| && ss[i].index == index {
      assert i < |front| ==> front[i].index == index;
    }
  }

  lemma OutputAdded(c: Config, d: Config, ss: seq<Sensor>, s: Sensor, now: nat)
    requires SensorsAreOutputs(c, ss) && AddSensor(c, s, now) == Ok(d)
    ensures SensorsAreOutputs(d, ss + [s])
  {
    OneOutputAdded(c, s, now);
    AddedIsInitialized(c, d, ss, s);
    AddedIsChannel(c, d, ss, s);
  }

  lemma AddedIsInitialized(c: Config, d: Config, ss: seq<Sensor>, s: Sensor)
    requires SensorsAreOutputs(c, ss) && |d.outputs| == OUTPUT_MAX
    requires FromString(s.channel) == Some(d.outputs[s.index - 1])
    requires forall k | 0 <= k < OUTPUT_MAX && k + 1 != s.index :: d.outputs[k] == c.outputs[k]
    ensures forall k | 0 <= k < OUTPUT_MAX :: IsInitialized(d.outputs[k]) <==> IsSensorIndex(ss + [s], k + 1)
  {
    JoinOfSplit(s.channel);
    forall k | 0 <= k < OUTPUT_MAX
      ensures IsInitialized(d.outputs[k]) <==> IsSensorIndex(ss + [s], k + 1)
    {
      SensorIndexSnoc(ss + [s], k + 1);
      assert (ss + [s])[..|ss + [s]| - 1] == ss;
    }
  }

  lemma AddedIsChannel(c: Config, d: Config, ss: seq<Sensor>, s: Sensor)
    requires SensorsAreOutputs(c, ss) && |d.outputs| == OUTPUT_MAX && !IsInitialized(c.outputs[s.index - 1])
    requires FromString(s.channel) == Some(d.outputs[s.index - 1])
    requires forall k | 0 <= k < OUTPUT_MAX && k + 1 != s.index :: d.outputs[k] == c.outputs[k]
    ensures forall i | 0 <= i < |ss + [s]| ::
              FromString((ss + [s])[i].channel) == Some(d.outputs[(ss + [s])[i].index - 1])
  {
    forall i | 0 <= i < |ss|
      ensures FromString(ss[i].channel) == Some(d.outputs[ss[i].index - 1])
    {
      assert IsSensorIndex(ss, ss[i].index) && IsInitialized(c.outputs[ss[i].index - 1]);
    }
  }

  lemma {:induction false} OutputsLoaded(c: Config, ss: seq<Sensor>, clock: nat -> nat)
    requires SensorsAreOutputs(c, []) && AddSensors(c, ss, clock).Ok?
    ensures SensorsAreOutputs(AddSensors(c, ss, clock).value, ss)
  {
    if ss != [] {
      var front, s := ss[..|ss| - 1], ss[|ss| - 1];
      OutputsLoaded(c, front, clock);
      OutputAdded(AddSensors(c, front, clock).value, AddSensors(c, ss, clock).value, front, s, clock(|ss| - 1));
      assert ss == front + [s];
    }
  }

  // ----- its timing -----

  /** A use of a channel: by which entry, and with which timeout if one is given. The timeout of a parameter is the
      one of the controller. */
  datatype Use = Use(channel: string, timeoutMin: Option<int>)

  function SensorUses(ss: seq<Sensor>): seq<Use> {
    seq(|ss|, i requires 0 <= i < |ss| => Use(ss[i].channel, ss[i].timeoutMin))
  }

  function ParamUses(ps: seq<Param>, timeoutMin: Option<int>): seq<Use> {
    seq(|ps|, i requires 0 <= i < |ps| => Use(ps[i].channel, timeoutMin))
  }

  function Uses(json: Controller): seq<Use> {
    SensorUses(OrEmpty(json.sensors)) + ParamUses(OrEmpty(json.parameters), json.timeoutMin)
  }

  ghost predicate IsLastUse(us: seq<Use>, i: nat) {
    i < |us| && forall j | i < j < |us| :: us[j].channel != us[i].channel
  }

  ghost predicate IsLastGiven(us: seq<Use>, i: nat) {
    && i < |us| && us[i].timeoutMin.Some?
    && forall j | i < j < |us| && us[j].channel == us[i].channel :: us[j].timeoutMin.None?
  }

  ghost predicate IsUsed(us: seq<Use>, channel: string) {
    exists i :: 0 <= i < |us| && us[i].channel == channel
  }

  ghost predicate IsGiven(us: seq<Use>, channel: string) {
    exists i :: 0 <= i < |us| && us[i].channel == channel && us[i].timeoutMin.Some?
  }

  ghost predicate UsedAreTimed(timing: map<string, Timing>, us: seq<Use>) {
    forall channel :: channel in timing <==> IsUsed(us, channel)
  }

  ghost predicate TimedSince(timing: map<string, Timing>, us: seq<Use>, clock: nat -> nat) {
    forall i: nat | IsLastUse(us, i) :: us[i].channel in timing && timing[us[i].channel].lastUpdate == clock(i)
  }

  ghost predicate TimeoutsGiven(timing: map<string, Timing>, us: seq<Use>) {
    forall i: nat | IsLastGiven(us, i) ::
      us[i].channel in timing && timing[us[i].channel].timeoutMin == us[i].timeoutMin.value
  }

  ghost predicate NoOtherTimeouts(timing: map<string, Timing>, us: seq<Use>) {
    forall channel | channel in timing && !IsGiven(us, channel) :: timing[channel].timeoutMin == -1
  }

  /** The channels in use, and no others, are timed: since the loading of their last use, and with the last timeout that
      is given for them, or none. */
  ghost predicate TimedAs(timing: map<string, Timing>, us: seq<Use>, clock: nat -> nat) {
    && UsedAreTimed(timing, us) && TimedSince(timing, us, clock)
    && TimeoutsGiven(timing, us) && NoOtherTimeouts(timing, us)
  }

  lemma LastsBefore(us: seq<Use>, u: Use, i: nat)
    requires i < |us|
    ensures IsLastUse(us + [u], i) ==> IsLastUse(us, i) && u.channel != us[i].channel
    ensures IsLastGiven(us + [u], i) ==> IsLastGiven(us, i) && (u.channel == us[i].channel ==> u.timeoutMin.None?)
  {
    var all := us + [u];
    assert all[|us|] == u;
    assert forall j | 0 <= j < |us| :: all[j] == us[j];
  }

  lemma UsedSnoc(us: seq<Use>, u: Use, channel: string)
    ensures IsUsed(us + [u], channel) <==> IsUsed(us, channel) || u.channel == channel
    ensures IsGiven(us + [u], channel) <==> IsGiven(us, channel) || (u.channel == channel && u.timeoutMin.Some?)
  {
    var all := us + [u];
    assert all[|us|] == u;
    assert forall j | 0 <= j < |us| :: all[j] == us[j];
  }

  lemma TouchedUsed(timing: map<string, Timing>, us: seq<Use>, u: Use, now: nat)
    requires UsedAreTimed(timing, us) && NoOtherTimeouts(timing, us)
    ensures UsedAreTimed(Touched(timing, u.channel, u.timeoutMin, now), us + [u])
    ensures NoOtherTimeouts(Touched(timing, u.channel, u.timeoutMin, now), us + [u])
  {
    var t := Touched(timing, u.channel, u.timeoutMin, now);
    forall channel
      ensures channel in t <==> IsUsed(us + [u], channel)
      ensures channel in t && !IsGiven(us + [u], channel) ==> t[channel].timeoutMin == -1
    {
      UsedSnoc(us, u, channel);
    }
  }

  lemma TouchedSince(timing: map<string, Timing>, us: seq<Use>, u: Use, clock: nat -> nat)
    requires TimedSince(timing, us, clock)
    ensures TimedSince(Touched(timing, u.channel, u.timeoutMin, clock(|us|)), us + [u], clock)
  {
    var all, t := us + [u], Touched(timing, u.channel, u.timeoutMin, clock(|us|));
    forall i: nat | IsLastUse(all, i)
      ensures all[i].channel in t && t[all[i].channel].lastUpdate == clock(i)
    {
      if i < |us| {
        LastsBefore(us, u, i);
        assert all[i] == us[i];
      }
    }
  }

  lemma TouchedGiven(timing: map<string, Timing>, us: seq<Use>, u: Use, now: nat)
    requires TimeoutsGiven(timing, us)
    ensures TimeoutsGiven(Touched(timing, u.channel, u.timeoutMin, now), us + [u])
  {
    var all, t := us + [u], Touched(timing, u.channel, u.timeoutMin, now);
    forall i: nat | IsLastGiven(all, i)
      ensures all[i].channel in t && t[all[i].channel].timeoutMin == all[i].timeoutMin.value
    {
      if i < |us| {
        LastsBefore(us, u, i);
        assert all[i] == us[i];
      }
    }
  }

  lemma TouchedTimes(timing: map<string, Timing>, us: seq<Use>, u: Use, clock: nat -> nat)
    requires TimedAs(timing, us, clock)
    ensures TimedAs(Touched(timing, u.channel, u.timeoutMin, clock(|us|)), us + [u], clock)
  {
    TouchedUsed(timing, us, u, clock(|us|));
    TouchedSince(timing, us, u, clock);
    TouchedGiven(timing, us, u, clock(|us|));
  }

  lemma SensorUsesSnoc(ss: seq<Sensor>)
    requires ss != []
    ensures SensorUses(ss) == SensorUses(ss[..|ss| - 1]) + [Use(ss[|ss| - 1].channel, ss[|ss| - 1].timeoutMin)]
  {
  }

  lemma AddSensorTimes(c: Config, s: Sensor, us: seq<Use>, clock: nat -> nat)
    requires |c.outputs| == OUTPUT_MAX && TimedAs(c.timing, us, clock) && AddSensor(c, s, clock(|us|)).Ok?
    ensures TimedAs(AddSensor(c, s, clock(|us|)).value.timing, us + [Use(s.channel, s.timeoutMin)], clock)
  {
    TouchedTimes(c.timing, us, Use(s.channel, s.timeoutMin), clock);
  }

  lemma {:induction false} SensorTiming(c: Config, ss: seq<Sensor>, clock: nat -> nat)
    requires |c.outputs| == OUTPUT_MAX && TimedAs(c.timing, [], clock) && AddSensors(c, ss, clock).Ok?
    ensures TimedAs(AddSensors(c, ss, clock).value.timing, SensorUses(ss), clock)
  {
    if ss == [] {
      assert SensorUses(ss) == [];
    } else {
      var front := ss[..|ss| - 1];
      SensorTiming(c, front, clock);
      assert |SensorUses(front)| == |ss| - 1;
      AddSensorTimes(AddSensors(c, front, clock).value, ss[|ss| - 1], SensorUses(front), clock);
      SensorUsesSnoc(ss);
    }
  }

  lemma ParamUsesSnoc(us: seq<Use>, ps: seq<Param>, timeoutMin: Option<int>)
    requires ps != []
    ensures us + ParamUses(ps, timeoutMin) ==
            us + ParamUses(ps[..|ps| - 1], timeoutMin) + [Use(ps[|ps| - 1].channel, timeoutMin)]
  {
  }

  lemma AddParamTimes(c: Config, p: Param, us: seq<Use>, timeoutMin: Option<int>, clock: nat -> nat)
    requires TimedAs(c.timing, us, clock) && AddParam(c, p, timeoutMin, clock(|us|)).Ok?
    ensures TimedAs(AddParam(c, p, timeoutMin, clock(|us|)).value.timing, us + [Use(p.channel, timeoutMin)], clock)
  {
    TouchedTimes(c.timing, us, Use(p.channel, timeoutMin), clock);
  }

  lemma {:induction false} ParamTiming(c: Config, us: seq<Use>, ps: seq<Param>, timeoutMin: Option<int>,
                                       clock: nat -> nat)
    requires TimedAs(c.timing, us, clock) && AddParams(c, ps, timeoutMin, |us|, clock).Ok?
    ensures TimedAs(AddParams(c, ps, timeoutMin, |us|, clock).value.timing, us + ParamUses(ps, timeoutMin), clock)
  {
    if ps == [] {
      assert us + ParamUses(ps, timeoutMin) == us;
    } else {
      var front := ps[..|ps| - 1];
      var before := us + ParamUses(front, timeoutMin);
      ParamTiming(c, us, front, timeoutMin, clock);
      var d := AddParams(c, front, timeoutMin, |us|, clock).value;
      assert |before| == |us| + |ps| - 1;
      AddParamTimes(d, ps[|ps| - 1], before, timeoutMin, clock);
      ParamUsesSnoc(us, ps, timeoutMin);
    }
  }

  // ----- its numbers -----

  /** How many triples are mapped, and the largest index plus one as a byte. */
  ghost predicate CountedAs(c: Config, es: seq<Entry>) {
    |c.mapping| == |es| && ByteIsLargest(c.parameterCount, es)
  }

  ghost predicate ByteIsLargest(count: Byte, es: seq<Entry>) {
    && (forall i | 0 <= i < |es| :: (es[i].index + 1) % 0x100 <= count)
    && (count == 0 || exists i :: 0 <= i < |es| && count == (es[i].index + 1) % 0x100)
  }

  lemma ByteCounted(before: Byte, after: Byte, es: seq<Entry>, e: Entry)
    requires after == CountAfter(before, e.index) && ByteIsLargest(before, es)
    ensures ByteIsLargest(after, es + [e])
  {
    var all := es + [e];
    assert all[|es|] == e && forall i | 0 <= i < |es| :: all[i] == es[i];
    if after == before && before != 0 {
      var i :| 0 <= i < |es| && before == (es[i].index + 1) % 0x100;
      assert all[i] == es[i];
    } else if after != before {
      assert after == (all[|es|].index + 1) % 0x100;
    }
  }

  lemma EntryCounted(c: Config, d: Config, es: seq<Entry>, e: Entry, channel: Channel)
    requires CountedAs(c, es) && e.Key() !in c.mapping && d.mapping == c.mapping[e.Key() := channel]
    requires d.parameterCount == CountAfter(c.parameterCount, e.index)
    ensures CountedAs(d, es + [e])
  {
    ByteCounted(c.parameterCount, d.parameterCount, es, e);
    KeyCounted(c.mapping, e.Key(), channel);
  }

  lemma KeyCounted(mapping: map<Word, Channel>, key: Word, channel: Channel)
    requires key !in mapping
    ensures |mapping[key := channel]| == |mapping| + 1
  {
    assert mapping[key := channel].Keys == mapping.Keys + {key};
  }

  lemma {:induction false} SensorsCounted(c: Config, ss: seq<Sensor>, clock: nat -> nat)
    requires CountedAs(c, []) && |c.outputs| == OUTPUT_MAX && AddSensors(c, ss, clock).Ok?
    ensures CountedAs(AddSensors(c, ss, clock).value, SensorEntries(ss))
    ensures AddSensors(c, ss, clock).value.programId == c.programId
  {
    if ss != [] {
      var front, s := ss[..|ss| - 1], ss[|ss| - 1];
      SensorsCounted(c, front, clock);
      EntryCounted(AddSensors(c, front, clock).value, AddSensors(c, ss, clock).value, SensorEntries(front),
                   SensorEntry(s), FromString(s.channel).value);
      SensorEntriesSnoc(ss);
    }
  }

  lemma {:induction false} ParamsCounted(c: Config, es: seq<Entry>, ps: seq<Param>, timeoutMin: Option<int>, first: nat,
                                         clock: nat -> nat)
    requires CountedAs(c, es) && AddParams(c, ps, timeoutMin, first, clock).Ok?
    ensures CountedAs(AddParams(c, ps, timeoutMin, first, clock).value, es + ParamEntries(ps))
    ensures AddParams(c, ps, timeoutMin, first, clock).value.programId == c.programId
  {
    if ps == [] {
      assert es + ParamEntries(ps) == es;
    } else {
      var front, p := ps[..|ps| - 1], ps[|ps| - 1];
      ParamsCounted(c, es, front, timeoutMin, first, clock);
      var d, f := AddParams(c, front, timeoutMin, first, clock).value, AddParams(c, ps, timeoutMin, first, clock).value;
      EntryCounted(d, f, es + ParamEntries(front), EntryOf(p), FromString(p.channel).value);
      ParamEntriesSnoc(es, ps);
    }
  }

  // ----- all of it -----

  /** What an accepted description becomes. */
  ghost predicate IsLoaded(c: Config, json: Controller, clock: nat -> nat) {
    && c.programId == json.controllerId
    && SensorsAreOutputs(c, OrEmpty(json.sensors))
    && TimedAs(c.timing, Uses(json), clock)
    && CountedAs(c, Entries(json))
  }

  lemma LoadedOutputs(json: Controller, clock: nat -> nat)
    requires Load(json, clock).Ok?
    ensures SensorsAreOutputs(Load(json, clock).value, OrEmpty(json.sensors))
  {
    OutputsLoaded(EmptyConfig(json.controllerId), OrEmpty(json.sensors), clock);
  }

  lemma LoadedTiming(json: Controller, clock: nat -> nat)
    requires Load(json, clock).Ok?
    ensures TimedAs(Load(json, clock).value.timing, Uses(json), clock)
  {
    var sensors := OrEmpty(json.sensors);
    var c0 := EmptyConfig(json.controllerId);
    SensorTiming(c0, sensors, clock);
    ParamTiming(AddSensors(c0, sensors, clock).value, SensorUses(sensors), OrEmpty(json.parameters), json.timeoutMin,
                clock);
  }

  lemma LoadedCounts(json: Controller, clock: nat -> nat)
    requires Load(json, clock).Ok?
    ensures CountedAs(Load(json, clock).value, Entries(json)) && Load(json, clock).value.programId == json.controllerId
  {
    var sensors := OrEmpty(json.sensors);
    var c0 := EmptyConfig(json.controllerId);
    SensorsCounted(c0, sensors, clock);
    ParamsCounted(AddSensors(c0, sensors, clock).value, SensorEntries(sensors), OrEmpty(json.parameters),
                  json.timeoutMin, |sensors|, clock);
  }

  lemma LoadedIs(json: Controller, clock: nat -> nat)
    requires Load(json, clock).Ok?
    ensures IsLoaded(Load(json, clock).value, json, clock)
  {
    LoadedOutputs(json, clock);
    LoadedTiming(json, clock);
    LoadedCounts(json, clock);
  }

  /** A description is accepted exactly if it has a section and all its entries have well-formed channels
      and pairwise different triples, and is then loaded as `IsLoaded` says: with exactly its sensors as outputs, its
      channels timed and its entries counted and mapped. Otherwise the first bad entry decides the error: duplicate
      exactly if an earlier entry has the same triple. */
  lemma LoadExact(json: Controller, clock: nat -> nat)
    ensures var es, r := Entries(json), Load(json, clock);
            && (r.Ok? <==> (json.sensors.Some? || json.parameters.Some?) && AllGood(es))
            && (r.Ok? ==> Reflects(r.value, es) && IsLoaded(r.value, json, clock))
            && (forall i: nat | FirstBad(es, i) :: r ==
                  if !Repeats(es, i) then Err(BadChannel)
                  else if i < |OrEmpty(json.sensors)| then Err(DuplicateSensor) else Err(DuplicateParameter))
  {
    LoadOutcome(json, clock);
    if Load(json, clock).Ok? {
      LoadedIs(json, clock);
    }
  }

  lemma {:induction false} HasFirstBad(es: seq<Entry>, n: nat) returns (i: nat)
    requires n <= |es| && exists j :: 0 <= j < n && !Good(es, j)
    ensures FirstBad(es, i) && i < n
  {
    if j :| 0 <= j < n - 1 && !Good(es, j) {
      i := HasFirstBad(es, n - 1);
    } else {
      i := n - 1;
    }
  }

  /** The error "duplicate output" cannot happen. */
  lemma NoDuplicateOutput(json: Controller, clock: nat -> nat)
    ensures Load(json, clock) != Err(DuplicateOutput)
  {
    LoadOutcome(json, clock);
    var es := Entries(json);
    if !AllGood(es) {
      var i := HasFirstBad(es, |es|);
    } else if json.sensors.None? && json.parameters.None? {
      assert Load(json, clock) == Err(NoMapping);
    }
  }

  // ----- what an accepted controller offers -----

  ghost predicate IsTimed(c: Config, channel: Channel) {
    channel.device != "" && channel.control != "" && ToString(channel) in c.timing
  }

  /** The facts the running controller relies on. */
  ghost predicate Runnable(c: Config) {
    && |c.outputs| == OUTPUT_MAX
    && (forall k | 0 <= k < OUTPUT_MAX && IsInitialized(c.outputs[k]) :: IsTimed(c, c.outputs[k]))
    && (forall key | key in c.mapping :: IsTimed(c, c.mapping[key]))
  }

  /** In every accepted controller each initialised output and each mapped parameter has both names and
      a timing entry under the joined name. */
  lemma AcceptedIsRunnable(json: Controller, clock: nat -> nat)
    requires Load(json, clock).Ok?
    ensures Runnable(Load(json, clock).value)
  {
    LoadOutcome(json, clock);
    var c, es := Load(json, clock).value, Entries(json);
    forall key | key in c.mapping
      ensures IsTimed(c, c.mapping[key])
    {
      var i :| 0 <= i < |es| && es[i].Key() == key;
      assert MappedAs(c, es[i]);
      JoinOfSplit(es[i].channel);
    }
    forall k | 0 <= k < OUTPUT_MAX && IsInitialized(c.outputs[k])
      ensures IsTimed(c, c.outputs[k])
    {
      assert OutputIsSensor(c, k);
    }
  }

  /** `GET_CHANNEL_NUMBER`. */
  function ChannelNumber(c: Config): nat {
    if |c.mapping| < c.parameterCount then c.parameterCount else |c.mapping|
  }

  /** The number of channels is the larger of the number of entries and, if no index is 255, the largest index plus
      one; an index of 255 counts as none, because the sum is a byte. */
  lemma ChannelNumberExact(json: Controller, clock: nat -> nat)
    requires Load(json, clock).Ok?
    ensures IsChannelNumber(ChannelNumber(Load(json, clock).value), Entries(json))
  {
    LoadedCounts(json, clock);
    CountedNumber(Load(json, clock).value, Entries(json));
  }

  ghost predicate IsChannelNumber(n: nat, es: seq<Entry>) {
    && |es| <= n && (forall i | 0 <= i < |es| && es[i].index <= 254 :: es[i].index < n)
    && (n == |es| || exists i :: 0 <= i < |es| && es[i].index <= 254 && n == es[i].index + 1)
  }

  lemma CountedNumber(c: Config, es: seq<Entry>)
    requires CountedAs(c, es)
    ensures IsChannelNumber(ChannelNumber(c), es)
  {
    forall i | 0 <= i < |es| && es[i].index <= 254
      ensures es[i].index < ChannelNumber(c)
    {
      assert (es[i].index + 1) % 0x100 == es[i].index + 1;
    }
    if ChannelNumber(c) != |es| {
      var i :| 0 <= i < |es| && c.parameterCount == (es[i].index + 1) % 0x100;
      assert es[i].index <= 254 && c.parameterCount == es[i].index + 1;
    }
  }

  lemma EntryOnWire(c: Config, e: Entry, data: Data)
    requires MappedAs(c, e)
    requires data[0] == e.programType && data[1] == e.parameterId && data[2] == e.index && data[3] == 0
    ensures RawInfo(data) in c.mapping && FromString(e.channel) == Some(c.mapping[RawInfo(data)])
  {
    RawInfoIsKey(data, e.programType, e.parameterId, e.index);
  }

  lemma LoadedEntry(json: Controller, clock: nat -> nat, i: nat)
    requires Load(json, clock).Ok? && i < |Entries(json)|
    ensures MappedAs(Load(json, clock).value, Entries(json)[i])
  {
    LoadOutcome(json, clock);
  }

  /** A request for the parameter of a sensor, by its four bytes on the wire, finds the sensor's channel, ... */
  lemma SensorOnWire(json: Controller, clock: nat -> nat, i: nat, data: Data)
    requires Load(json, clock).Ok? && i < |OrEmpty(json.sensors)|
    requires data[0] == PT_CONTROLLER && data[1] == SENSOR && data[2] == OrEmpty(json.sensors)[i].index && data[3] == 0
    ensures var c, s := Load(json, clock).value, OrEmpty(json.sensors)[i];
            RawInfo(data) in c.mapping && FromString(s.channel) == Some(c.mapping[RawInfo(data)])
  {
    var e := SensorEntry(OrEmpty(json.sensors)[i]);
    assert Entries(json)[i] == e;
    LoadedEntry(json, clock, i);
    EntryOnWire(Load(json, clock).value, e, data);
  }

  /** ... and a request for another parameter the channel of that. */
  lemma ParamOnWire(json: Controller, clock: nat -> nat, i: nat, data: Data)
    requires Load(json, clock).Ok? && i < |OrEmpty(json.parameters)|
    requires var p := OrEmpty(json.parameters)[i];
             data[0] == p.programType && data[1] == p.parameterId && data[2] == p.index && data[3] == 0
    ensures var c, p := Load(json, clock).value, OrEmpty(json.parameters)[i];
            RawInfo(data) in c.mapping && FromString(p.channel) == Some(c.mapping[RawInfo(data)])
  {
    var e, j := EntryOf(OrEmpty(json.parameters)[i]), |OrEmpty(json.sensors)| + i;
    assert Entries(json)[j] == e;
    LoadedEntry(json, clock, j);
    EntryOnWire(Load(json, clock).value, e, data);
  }

  /** A lookup with the first four bytes of a request finds something exactly if the first three are a
      mapped triple and the fourth is zero, and then it finds that entry's channel; every mapped index
      up to 254 is below the reported number of channels. */
  lemma WireLookup(json: Controller, clock: nat -> nat, data: Data)
    requires Load(json, clock).Ok?
    ensures var c, es := Load(json, clock).value, Entries(json);
            && (RawInfo(data) in c.mapping <==>
                  && data[3] == 0
                  && exists i ::
                       0 <= i < |es| && SameTriple(es[i], Entry(data[0], data[1], data[2], es[i].channel)))
            && (forall i | 0 <= i < |es| && RawInfo(data) == es[i].Key() ::
                  RawInfo(data) in c.mapping && FromString(es[i].channel) == Some(c.mapping[RawInfo(data)]))
            && (forall i | 0 <= i < |es| && es[i].index <= 254 :: es[i].index < ChannelNumber(c))
  {
    LoadOutcome(json, clock);
    var c, es := Load(json, clock).value, Entries(json);
    forall i | 0 <= i < |es|
      ensures RawInfo(data) == es[i].Key() <==>
              data[3] == 0 && SameTriple(es[i], Entry(data[0], data[1], data[2], es[i].channel))
      ensures MappedAs(c, es[i])
    {
      RawInfoIsKey(data, es[i].programType, es[i].parameterId, es[i].index);
    }
  }
}
