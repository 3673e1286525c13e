/** How answers find the parameter that was polled: `AcceptFrame`, `HandleGetValueResponse` and the
    lookup in `SetParameter`, `src/SmartWebToMqttGateway.cpp`. */
module Routing {
  import opened Classes
  import opened Conventions
  import opened Inheritance
  import opened OrderedKeys
  import opened Requests
  import opened Wrappers

  datatype Table = Inputs | Outputs | Parameters

  /** A parameter object: the class that owns it, the table it is in and its key there. */
  datatype Target = Target(classKey: Byte, table: Table, id: nat)

  /** Where an answer goes and from which data byte on the codec reads it. */
  datatype Routed = Routed(target: Target, offset: nat)

  function TableOf(cl: SwClass, table: Table): map<nat, Parameter> {
    match table
    case Inputs => cl.inputs
    case Outputs => cl.outputs
    case Parameters => cl.parameters
  }

  predicate IsAnnouncement(h: CanHeader) {
    h.programType == PT_PROGRAM && h.functionId == I_AM_PROGRAM
  }

  predicate IsValueAnswer(h: CanHeader) {
    h.programType == PT_REMOTE_CONTROL && h.functionId == GET_PARAMETER_VALUE
  }

  /** `AcceptFrame`. */
  predicate Accepts(frame: CanFrame) {
    var h := Header(frame.canId);
    IsExtended(frame.canId) && h.messageType == MT_MSG_RESPONSE && (IsAnnouncement(h) || IsValueAnswer(h))
  }

  /** Which frames are accepted, field by field: extended responses in which a program announces itself or the value of
      a parameter is given. */
  lemma AcceptsExactly(programType: Byte, programId: Byte, functionId: Byte, format: Bits3, kind: Bits2, unused: Bits3,
                       dlc: Byte, data: Data)
    ensures var h := CanHeader(programType, programId, functionId, format, kind, unused);
            Accepts(CanFrame(Raw(h), dlc, data)) <==>
              && unused >= 4 && kind == MT_MSG_RESPONSE
              && (|| (programType == PT_PROGRAM && functionId == I_AM_PROGRAM)
                  || (programType == PT_REMOTE_CONTROL && functionId == GET_PARAMETER_VALUE))
  {
    var h := CanHeader(programType, programId, functionId, format, kind, unused);
    HeaderOfRaw(h);
    ExtendedHeader(Raw(h));
  }

  function Find(classes: ClassTable, key: Byte, table: Table, id: Byte, offset: nat): Option<Routed>
    requires key in classes.byType
  {
    if id in TableOf(classes.byType[key], table) then Some(Routed(Target(key, table, id), offset)) else None
  }

  /** `HandleGetValueResponse`. Answers about inputs and outputs are looked up in the class of the
      program itself, answers about parameters in the class the answer names. */
  function Route(classes: ClassTable, known: map<Byte, Byte>, frame: CanFrame): Option<Routed>
    requires forall k | k in known :: known[k] in classes.byType
  {
    var programId := Header(frame.canId).programId;
    var d := frame.data;
    if programId !in known then None
    else if d[0] == PT_PROGRAM then
      if d[1] == SENSOR then Find(classes, known[programId], Inputs, d[2], 3)
      else if d[1] == OUTPUT then Find(classes, known[programId], Outputs, d[2], 3)
      else None
    else if d[0] in classes.byType then Find(classes, d[0], Parameters, d[1], 2)
    else None
  }

  /** The request by which a class polls one of its parameters. */
  function RequestOf(cl: SwClass, table: Table, programId: Byte, id: nat): CanFrame {
    match table
    case Inputs => IndexedRequest(SENSOR, programId, id)
    case Outputs => IndexedRequest(OUTPUT, programId, id)
    case Parameters => ParameterRequest(cl, programId, id)
  }

  /** `frame` answers `request`: the same header turned into a response, the same leading data. */
  predicate Answers(frame: CanFrame, request: CanFrame)
    requires request.dlc <= 8
  {
    && Header(frame.canId) == Header(request.canId).(messageType := MT_MSG_RESPONSE)
    && frame.data[..request.dlc] == request.data[..request.dlc]
  }

  /** The answer to `request` whose remaining bytes are those of `rest`. */
  function AnswerTo(request: CanFrame, dlc: Byte, rest: Data): CanFrame
    requires request.dlc <= 8
  {
    CanFrame(Raw(Header(request.canId).(messageType := MT_MSG_RESPONSE)), dlc,
        Overlay(rest, request.data[..request.dlc]))
  }

  /** These are all the answers there are. */
  lemma AnswersAreAnswerTo(frame: CanFrame, request: CanFrame)
    requires request.dlc <= 8
    ensures Answers(frame, request) <==> frame == AnswerTo(request, frame.dlc, frame.data)
  {
    var h := Header(request.canId).(messageType := MT_MSG_RESPONSE);
    HeaderOfRaw(h);
    RawOfHeader(frame.canId);
    SameHead(frame.data, request.data[..request.dlc]);
  }

  lemma SameHead(data: Data, head: seq<Byte>)
    requires |head| <= 8
    ensures data[..|head|] == head <==> data == Overlay(data, head)
  {
    assert data == data[..|head|] + data[|head|..];
  }

  // ----- every request has an origin -----

  /** The class at the end of the path has the parameter. */
  ghost predicate Has(classes: ClassTable, cl: SwClass, p: seq<nat>, table: Table, id: nat) {
    IsPath(classes, cl, p) && id in TableOf(End(classes, cl, p), table)
  }

  ghost predicate Polls(classes: ClassTable, cl: SwClass, programId: Byte, r: CanFrame, p: seq<nat>, table: Table,
                        id: nat) {
    Has(classes, cl, p, table, id) && r == RequestOf(End(classes, cl, p), table, programId, id)
  }

  lemma IndexedOrigin(parameterId: Byte, programId: Byte, ids: seq<nat>, r: CanFrame) returns (id: nat)
    requires r in IndexedRequests(parameterId, programId, ids)
    ensures id in ids && r == IndexedRequest(parameterId, programId, id)
  {
    var all := IndexedRequests(parameterId, programId, ids);
    var i :| 0 <= i < |all| && r == all[i];
    id := ids[i];
  }

  lemma ParameterOrigin(cl: SwClass, programId: Byte, ids: seq<nat>, r: CanFrame) returns (id: nat)
    requires r in ParameterRequests(cl, programId, ids)
    ensures id in ids && r == ParameterRequest(cl, programId, id)
  {
    var all := ParameterRequests(cl, programId, ids);
    var i :| 0 <= i < |all| && r == all[i];
    id := ids[i];
  }

  lemma OwnParts(cl: SwClass, programId: Byte, r: CanFrame)
    requires r in Own(cl, programId)
    ensures || r in IndexedRequests(SENSOR, programId, SortedKeys(cl.inputs.Keys))
            || r in IndexedRequests(OUTPUT, programId, SortedKeys(cl.outputs.Keys))
            || r in ParameterRequests(cl, programId, SortedKeys(cl.parameters.Keys))
  {
  }

  lemma OwnOrigin(cl: SwClass, programId: Byte, r: CanFrame) returns (table: Table, id: nat)
    requires r in Own(cl, programId)
    ensures id in TableOf(cl, table) && r == RequestOf(cl, table, programId, id)
  {
    OwnParts(cl, programId, r);
    if r in IndexedRequests(SENSOR, programId, SortedKeys(cl.inputs.Keys)) {
      table := Inputs;
      id := IndexedOrigin(SENSOR, programId, SortedKeys(cl.inputs.Keys), r);
      SortedKeysSpec(cl.inputs.Keys);
    } else if r in IndexedRequests(OUTPUT, programId, SortedKeys(cl.outputs.Keys)) {
      table := Outputs;
      id := IndexedOrigin(OUTPUT, programId, SortedKeys(cl.outputs.Keys), r);
      SortedKeysSpec(cl.outputs.Keys);
    } else {
      table := Parameters;
      id := ParameterOrigin(cl, programId, SortedKeys(cl.parameters.Keys), r);
      SortedKeysSpec(cl.parameters.Keys);
    }
  }

  lemma {:induction false} BatchOrigin(classes: ClassTable, cl: SwClass, ps: seq<seq<nat>>, programId: Byte,
                                       r: CanFrame)
    returns (p: seq<nat>, table: Table, id: nat)
    requires r in Batch(classes, cl, ps, programId)
    ensures Polls(classes, cl, programId, r, p, table, id)
  {
    if r in AtEnd(classes, cl, ps[0], programId) {
      p := ps[0];
      table, id := OwnOrigin(End(classes, cl, p), programId, r);
    } else {
      p, table, id := BatchOrigin(classes, cl, ps[1..], programId, r);
    }
  }

  /** Every request polls a parameter of the class at the end of some inheritance path ... */
  lemma RequestHasOrigin(classes: ClassTable, cl: SwClass, programId: Byte, r: CanFrame)
    requires NoCycleAbove(classes, cl) && r in Expand(classes, cl, programId)
    ensures exists p, table, id :: Polls(classes, cl, programId, r, p, table, id)
  {
    var p, table, id := BatchOrigin(classes, cl, Paths(classes, cl), programId, r);
  }

  lemma OwnPolls(cl: SwClass, table: Table, programId: Byte, id: nat)
    requires id in TableOf(cl, table)
    ensures RequestOf(cl, table, programId, id) in Own(cl, programId)
  {
    var keys := SortedKeys(TableOf(cl, table).Keys);
    SortedKeysSpec(TableOf(cl, table).Keys);
    var i :| 0 <= i < |keys| && keys[i] == id;
    match table
    case Inputs => assert IndexedRequests(SENSOR, programId, keys)[i] == RequestOf(cl, table, programId, id);
    case Outputs => assert IndexedRequests(OUTPUT, programId, keys)[i] == RequestOf(cl, table, programId, id);
    case Parameters => assert ParameterRequests(cl, programId, keys)[i] == RequestOf(cl, table, programId, id);
  }

  lemma {:induction false} BatchHas(classes: ClassTable, cl: SwClass, ps: seq<seq<nat>>, p: seq<nat>, programId: Byte,
                                    r: CanFrame)
    requires p in ps && r in AtEnd(classes, cl, p, programId)
    ensures r in Batch(classes, cl, ps, programId)
  {
    if p != ps[0] {
      BatchHas(classes, cl, ps[1..], p, programId, r);
    }
  }

  /** ... and every parameter of the class at the end of an inheritance path is polled. */
  lemma ParameterIsPolled(classes: ClassTable, cl: SwClass, programId: Byte, p: seq<nat>, table: Table, id: nat)
    requires NoCycleAbove(classes, cl) && Has(classes, cl, p, table, id)
    ensures RequestOf(End(classes, cl, p), table, programId, id) in Expand(classes, cl, programId)
  {
    PathsComplete(classes, cl, p);
    OwnPolls(End(classes, cl, p), table, programId, id);
    BatchHas(classes, cl, Paths(classes, cl), p, programId, RequestOf(End(classes, cl, p), table, programId, id));
  }

  /** The requests for the entries of a table, in ascending order of their ids. */
  function TableRequests(cl: SwClass, table: Table, programId: Byte): seq<CanFrame> {
    var ids := SortedKeys(TableOf(cl, table).Keys);
    seq(|ids|, i requires 0 <= i < |ids| => RequestOf(cl, table, programId, ids[i]))
  }

  /** The own requests come in the order of the tables, and in each table in ascending order of the ids. */
  lemma OwnInOrder(cl: SwClass, programId: Byte)
    ensures Own(cl, programId) == TableRequests(cl, Inputs, programId) + TableRequests(cl, Outputs, programId) +
                                  TableRequests(cl, Parameters, programId)
    ensures forall table :: Ascending(SortedKeys(TableOf(cl, table).Keys))
  {
    forall table
      ensures Ascending(SortedKeys(TableOf(cl, table).Keys))
    {
      SortedKeysSpec(TableOf(cl, table).Keys);
    }
    SameRequests(cl, programId);
  }

  lemma SameRequests(cl: SwClass, programId: Byte)
    ensures TableRequests(cl, Inputs, programId) == IndexedRequests(SENSOR, programId, SortedKeys(cl.inputs.Keys))
    ensures TableRequests(cl, Outputs, programId) == IndexedRequests(OUTPUT, programId, SortedKeys(cl.outputs.Keys))
    ensures TableRequests(cl, Parameters, programId) ==
            ParameterRequests(cl, programId, SortedKeys(cl.parameters.Keys))
  {
  }

  // ----- what a request looks like -----

  lemma RequestFields(programId: Byte)
    ensures var h := Header(RequestId(programId));
            && IsExtended(RequestId(programId))
            && h.programType == PT_REMOTE_CONTROL && h.programId == programId && h.functionId == GET_PARAMETER_VALUE
            && h.messageFormat == MF_FORMAT_0 && h.messageType == MT_MSG_REQUEST
  {
    HeaderOfExtended(RequestHeader(programId));
  }

  /** Every polled frame asks the program for the value of a parameter. */
  lemma PollsAreRequests(classes: ClassTable, cl: SwClass, programId: Byte, r: CanFrame)
    requires NoCycleAbove(classes, cl) && r in Expand(classes, cl, programId)
    ensures var h := Header(r.canId);
            && IsExtended(r.canId)
            && h.programType == PT_REMOTE_CONTROL && h.programId == programId && h.functionId == GET_PARAMETER_VALUE
            && h.messageFormat == MF_FORMAT_0 && h.messageType == MT_MSG_REQUEST
  {
    RequestHasOrigin(classes, cl, programId, r);
    var p, table, id :| Polls(classes, cl, programId, r, p, table, id);
    RequestHead(End(classes, cl, p), table, programId, id);
    RequestFields(programId);
  }

  /** Its data name an input, an output or a parameter of a class. */
  lemma PollData(c: SwClass, table: Table, programId: Byte, id: nat)
    ensures var r := RequestOf(c, table, programId, id);
            match table
            case Inputs => r.dlc == 3 && r.data[0] == PT_PROGRAM && r.data[1] == SENSOR && r.data[2] == id % 0x100
            case Outputs => r.dlc == 3 && r.data[0] == PT_PROGRAM && r.data[1] == OUTPUT && r.data[2] == id % 0x100
            case Parameters => r.dlc == 2 && r.data[0] == c.programType && r.data[1] == id % 0x100
  {
    match table
    case Inputs => IndexedBytes(SENSOR, programId, id);
    case Outputs => IndexedBytes(OUTPUT, programId, id);
    case Parameters => RequestBytes(c, programId, id);
  }

  // ----- the round trip -----

  lemma ExtendedHeader(raw: Word)
    ensures IsExtended(raw) <==> Header(raw).unused >= 4
  {
  }

  lemma AnswerHeader(request: CanFrame, programId: Byte, dlc: Byte, rest: Data)
    requires request.dlc <= 8 && request.canId == RequestId(programId)
    ensures var frame := AnswerTo(request, dlc, rest);
            && Accepts(frame) && Header(frame.canId).programId == programId
            && IsValueAnswer(Header(frame.canId)) && !IsAnnouncement(Header(frame.canId))
  {
    HeaderOfExtended(RequestHeader(programId));
    HeaderOfRaw(Header(request.canId).(messageType := MT_MSG_RESPONSE));
    ExtendedHeader(AnswerTo(request, dlc, rest).canId);
  }

  lemma AnswerData(request: CanFrame, dlc: Byte, rest: Data)
    requires request.dlc <= 8
    ensures forall k | 0 <= k < request.dlc :: AnswerTo(request, dlc, rest).data[k] == request.data[k]
  {
    var data := AnswerTo(request, dlc, rest).data;
    forall k | 0 <= k < request.dlc
      ensures data[k] == request.data[k]
    {
      assert data[..request.dlc][k] == request.data[..request.dlc][k];
    }
  }

  ghost predicate Reaches(classes: ClassTable, cl: SwClass, p: seq<nat>, table: Table, id: nat)
    requires IsPath(classes, cl, p)
  {
    id < 0x100 && (if table.Parameters? then End(classes, cl, p).programType != PT_PROGRAM else p == [])
  }

  lemma RequestHead(c: SwClass, table: Table, programId: Byte, id: nat)
    ensures RequestOf(c, table, programId, id).canId == RequestId(programId)
    ensures RequestOf(c, table, programId, id).dlc == if table.Parameters? then 2 else 3
  {
  }

  /** The answer to a poll comes back to the parameter that was polled, with the codec reading right
      behind the echoed request bytes, exactly if the id fits a byte and, for a parameter, its class
      is not the one of type PT_PROGRAM or, for an input or output, it is the program's own. */
  lemma PollRoundTrip(classes: ClassTable, known: map<Byte, Byte>, programId: Byte, cl: SwClass,
                      p: seq<nat>, table: Table, id: nat, dlc: Byte, rest: Data)
    requires KeysAreTypes(classes.byType) && forall k | k in known :: known[k] in classes.byType
    requires programId in known && classes.byType[known[programId]] == cl && NoCycleAbove(classes, cl)
    requires Has(classes, cl, p, table, id)
    ensures var origin := Target(End(classes, cl, p).programType, table, id);
            var request := RequestOf(End(classes, cl, p), table, programId, id);
            var frame := AnswerTo(request, dlc, rest);
            && Accepts(frame) && !IsAnnouncement(Header(frame.canId))
            && (Route(classes, known, frame) == Some(Routed(origin, request.dlc)) <==>
                Reaches(classes, cl, p, table, id))
  {
    var c := End(classes, cl, p);
    var request := RequestOf(c, table, programId, id);
    var frame := AnswerTo(request, dlc, rest);
    AnswerHeader(request, programId, dlc, rest);
    AnswerData(request, dlc, rest);
    EndInTable(classes, cl, p);
    if table.Parameters? {
      RequestBytes(c, programId, id);
      RouteParameter(classes, known, frame, c.programType, id);
    } else {
      IndexedBytes(if table.Inputs? then SENSOR else OUTPUT, programId, id);
      OwnPathOnly(classes, cl, p);
      RouteIndexed(classes, known, frame, c.programType, table, id);
    }
  }

  lemma RouteParameter(classes: ClassTable, known: map<Byte, Byte>, frame: CanFrame, key: Byte, id: nat)
    requires forall k | k in known :: known[k] in classes.byType
    requires Header(frame.canId).programId in known && key in classes.byType && id in classes.byType[key].parameters
    requires frame.data[0] == key && frame.data[1] == id % 0x100
    ensures Route(classes, known, frame) == Some(Routed(Target(key, Parameters, id), 2)) <==>
            id < 0x100 && key != PT_PROGRAM
  {
  }

  lemma RouteIndexed(classes: ClassTable, known: map<Byte, Byte>, frame: CanFrame, key: Byte, table: Table, id: nat)
    requires forall k | k in known :: known[k] in classes.byType
    requires Header(frame.canId).programId in known && key in classes.byType && !table.Parameters? &&
             id in TableOf(classes.byType[key], table)
    requires frame.data[0] == PT_PROGRAM && frame.data[1] == (if table.Inputs? then SENSOR else OUTPUT)
    requires frame.data[2] == id % 0x100
    ensures Route(classes, known, frame) == Some(Routed(Target(key, table, id), 3)) <==>
            id < 0x100 && key == known[Header(frame.canId).programId]
  {
  }

  /** Only the empty path leads from a class to itself. */
  lemma OwnPathOnly(classes: ClassTable, cl: SwClass, p: seq<nat>)
    requires KeysAreTypes(classes.byType) && cl.programType in classes.byType && classes.byType[cl.programType] == cl
    requires NoCycleAbove(classes, cl) && IsPath(classes, cl, p)
    ensures End(classes, cl, p).programType == cl.programType <==> p == []
  {
    if p != [] {
      var k := EndKey(classes, cl, p);
      assert Inherits(classes, cl, k);
      assert k in Ancestors(classes, cl);
    }
  }

  /** Where a routed frame was found: in which table, under which bytes. */
  lemma RouteSource(classes: ClassTable, known: map<Byte, Byte>, frame: CanFrame)
    requires forall k | k in known :: known[k] in classes.byType
    requires Route(classes, known, frame).Some?
    ensures var programId, routed := Header(frame.canId).programId, Route(classes, known, frame).value;
            var target, d := routed.target, frame.data;
            && programId in known && target.classKey in classes.byType
            && target.id in TableOf(classes.byType[target.classKey], target.table)
            && routed.offset == (if target.table.Parameters? then 2 else 3)
            && if target.table.Parameters? then d[0] == target.classKey && d[1] == target.id
               else
                 && target.classKey == known[programId] && d[0] == PT_PROGRAM && d[2] == target.id
                 && d[1] == if target.table.Inputs? then SENSOR else OUTPUT
  {
  }

  ghost predicate Echoes(frame: CanFrame, request: CanFrame) {
    request.dlc <= 8 && forall k | 0 <= k < request.dlc :: frame.data[k] == request.data[k]
  }

  lemma SourceEchoes(c: SwClass, frame: CanFrame, table: Table, programId: Byte, id: nat)
    requires id < 0x100
    requires if table.Parameters? then frame.data[0] == c.programType && frame.data[1] == id
             else
               && frame.data[0] == PT_PROGRAM && frame.data[2] == id
               && frame.data[1] == if table.Inputs? then SENSOR else OUTPUT
    ensures Echoes(frame, RequestOf(c, table, programId, id))
  {
    PollData(c, table, programId, id);
  }

  /** The other direction: a frame that is routed anywhere echoes, before the bytes that are read, the request by which
      that very parameter is polled, and an input or output is one of the program's own class. */
  lemma RoutedAnswersPoll(classes: ClassTable, known: map<Byte, Byte>, frame: CanFrame)
    requires KeysAreTypes(classes.byType) && forall k | k in known :: known[k] in classes.byType
    requires Route(classes, known, frame).Some?
    ensures var programId, routed := Header(frame.canId).programId, Route(classes, known, frame).value;
            var target := routed.target;
            && programId in known && target.classKey in classes.byType
            && target.id in TableOf(classes.byType[target.classKey], target.table)
            && (!target.table.Parameters? ==> target.classKey == known[programId])
            && var request := RequestOf(classes.byType[target.classKey], target.table, programId, target.id);
            routed.offset == request.dlc && Echoes(frame, request)
  {
    RouteSource(classes, known, frame);
    var programId, target := Header(frame.canId).programId, Route(classes, known, frame).value.target;
    var c := classes.byType[target.classKey];
    SourceEchoes(c, frame, target.table, programId, target.id);
    RequestHead(c, target.table, programId, target.id);
  }
}
