/** The object `TSmartWebToMqttGateway` of `src/SmartWebToMqttGateway.cpp`. */
module Gateway {
  import opened Classes
  import opened Conventions
  import opened Discovery
  import opened Inheritance
  import opened Requests
  import opened Routing
  import opened Wrappers
  import Polling

  /** A value handed to the codec of a parameter: the bytes from which it reads. */
  datatype Reading = Reading(programId: Byte, target: Target, bytes: seq<Byte>)

  class SmartWebToMqttGateway {
    const classes: ClassTable
    const requests: FrameVector
    var requestIndex: nat
    var knownPrograms: map<Byte, Byte>
    ghost var picked: bool
    ghost var announced: seq<CanFrame>
    ghost var attempts: seq<CanFrame>
    ghost var readings: seq<Reading>

    ghost function Known(): Discovered
      reads this, requests
    {
      Discovered(knownPrograms, requests.frames)
    }

    ghost function Cursor(): Polling.State
      reads this, requests
    {
      Polling.State(requests.frames, requestIndex, picked)
    }

    ghost predicate Valid()
      reads this, requests
    {
      && GoodClasses(classes)
      && Known() == Discovery.AddPrograms(classes, NOTHING, announced)
      && Polling.Valid(Cursor())
      && (forall k | k in knownPrograms :: knownPrograms[k] in classes.byType)
    }

    constructor (config: ClassTable)
      requires GoodClasses(config)
      ensures Valid() && fresh(requests) && classes == config
      ensures announced == [] && attempts == [] && readings == [] && !picked
    {
      classes := config;
      requests := new FrameVector();
      requestIndex, knownPrograms := 0, map[];
      picked, announced, attempts, readings := false, [], [], [];
    }

    /** The round trip at the object: every request in its list polls something, ... */
    lemma RequestHasOrigin(r: CanFrame) returns (programId: Byte, p: seq<nat>, table: Table, id: nat)
      requires Valid() && r in requests.frames
      ensures IsOrigin(r, programId, p, table, id)
    {
      RequestsAreKnown(classes, announced, r);
      programId :| PolledFor(classes, knownPrograms, r, programId);
      var cl := classes.byType[knownPrograms[programId]];
      Routing.RequestHasOrigin(classes, cl, programId, r);
      p, table, id :| Polls(classes, cl, programId, r, p, table, id);
    }

    /** Every request in its list asks a known program for the value of a parameter. */
    lemma PollsAreRequests(r: CanFrame)
      requires Valid() && r in requests.frames
      ensures var h := Header(r.canId);
              && IsExtended(r.canId) && h.programId in knownPrograms
              && h.programType == PT_REMOTE_CONTROL && h.functionId == GET_PARAMETER_VALUE
              && h.messageFormat == MF_FORMAT_0 && h.messageType == MT_MSG_REQUEST
    {
      RequestsAreKnown(classes, announced, r);
      var id :| PolledFor(classes, knownPrograms, r, id);
      Routing.PollsAreRequests(classes, classes.byType[knownPrograms[id]], id, r);
    }

    /** The request polls this parameter of this known program. */
    ghost predicate IsOrigin(r: CanFrame, programId: Byte, p: seq<nat>, table: Table, id: nat)
      reads this`knownPrograms
    {
      && programId in knownPrograms && knownPrograms[programId] in classes.byType
      && Polls(classes, classes.byType[knownPrograms[programId]], programId, r, p, table, id)
    }

    /** ... and for everything that it polls, any answer to it is accepted, is no announcement, and gives exactly one
        reading, for that parameter, of the bytes behind the echoed ones, if and only if the id fits a byte and the
        parameter's class is not of type PT_PROGRAM or the input or output is of the program's own class. */
    lemma AnswerReachesOrigin(r: CanFrame, programId: Byte, p: seq<nat>, table: Table, id: nat, dlc: Byte, rest: Data)
      requires Valid() && IsOrigin(r, programId, p, table, id)
      ensures r.dlc <= 8
      ensures var cl := classes.byType[knownPrograms[programId]];
              && var frame := AnswerTo(r, dlc, rest);
              && Accepts(frame) && !IsAnnouncement(Header(frame.canId)) && IsValueAnswer(Header(frame.canId))
              && var origin := Target(End(classes, cl, p).programType, table, id);
              && (Readings(classes, knownPrograms, frame) == [Reading(programId, origin, frame.data[r.dlc..])] <==>
                  Reaches(classes, cl, p, table, id))
    {
      var cl := classes.byType[knownPrograms[programId]];
      AnswerReading(classes, knownPrograms, programId, cl, p, table, id, dlc, rest);
      RequestHead(End(classes, cl, p), table, programId, id);
    }

    /** A new program announced with three bytes, the last of them the type of a loaded class, becomes known and its
        expansion is appended; no other announcement changes anything. */
    ghost predicate Discovers(before: Discovered, after: Discovered, frame: CanFrame)
      requires GoodClasses(classes)
    {
      var id := Header(frame.canId).programId;
      if id !in before.known && frame.dlc == 3 && frame.data[2] in classes.byType then
        && after.known == before.known[id := frame.data[2]]
        && after.requests == before.requests + Expand(classes, classes.byType[frame.data[2]], id)
      else after == before
    }

    /** `AddProgram`. */
    method AddProgram(frame: CanFrame)
      requires Valid()
      modifies this`knownPrograms, this`announced, requests
      ensures Valid() && announced == old(announced) + [frame]
      ensures old(requests.frames) <= requests.frames
      ensures Discovers(old(Known()), Known(), frame)
      ensures Cursor() == Polling.Step(old(Cursor()), Polling.Append(requests.frames[|old(requests.frames)|..]))
    {
      announced := announced + [frame];
      assert announced[..|announced| - 1] == old(announced);
      var programId := ProgramId(frame);
      if programId in knownPrograms {
        return;
      }
      if frame.dlc != 3 {
        return;
      }
      if frame.data[2] !in classes.byType {
        return;
      }
      knownPrograms := knownPrograms[programId := frame.data[2]];
      AddRequests(requests, classes.byType[frame.data[2]], programId, classes);
    }

    method TakeNote(frame: CanFrame)
      requires Valid()
      modifies this`knownPrograms, this`announced, requests
      ensures Valid() && announced == old(announced) + [frame] && old(requests.frames) <= requests.frames
    {
      AddProgram(frame);
    }

    /** The announcements that the reader thread handles while a frame is sent. */
    method AddPrograms(frames: seq<CanFrame>)
      requires Valid()
      modifies this`knownPrograms, this`announced, requests
      ensures Valid() && announced == old(announced) + frames && old(requests.frames) <= requests.frames
    {
      for i := 0 to |frames|
        invariant Valid() && announced == old(announced) + frames[..i] && old(requests.frames) <= requests.frames
      {
        TakeNote(frames[i]);
      }
    }

    /** `HandleMapping`. `meanwhile` are the announcements that the reader thread handles while the frame
        is sent; a failed send is only logged. */
    method HandleMapping(meanwhile: seq<CanFrame>)
      requires Valid() && !picked
      modifies this, requests
      ensures Valid() && !picked && readings == old(readings)
      ensures old(requests.frames) == [] ==> attempts == old(attempts) && Known() == old(Known())
      ensures old(requests.frames) != [] ==>
                && announced == old(announced) + meanwhile
                && attempts == old(attempts) + [old(requests.frames)[Polling.Wrapped(old(Cursor()))]]
                && old(requests.frames) <= requests.frames
                && Cursor() == Polling.Run(old(Cursor()),
                     [Polling.Pick, Polling.Append(requests.frames[|old(requests.frames)|..]), Polling.Advance])
    {
      if requests.frames == [] {
        return;
      }
      if requestIndex == |requests.frames| {
        requestIndex := 0;
      }
      var frame := requests.frames[requestIndex];
      picked := true;
      attempts := attempts + [frame];
      AddPrograms(meanwhile);
      requestIndex := requestIndex + 1;
      picked := false;
      RunOfThree(old(Cursor()), Polling.Pick, Polling.Append(requests.frames[|old(requests.frames)|..]),
          Polling.Advance);
    }

    /** `HandleFrame`: announcements discover programs, answers are handed to the parameter they are for. */
    method HandleFrame(frame: CanFrame)
      requires Valid() && Accepts(frame)
      modifies this, requests
      ensures Valid() && picked == old(picked) && attempts == old(attempts)
      ensures var h := Header(frame.canId);
              if h.programType == PT_PROGRAM && h.functionId == I_AM_PROGRAM then
                && announced == old(announced) + [frame] && readings == old(readings)
                && Discovers(old(Known()), Known(), frame)
              else
                && announced == old(announced) && Known() == old(Known())
                && readings == old(readings) + Readings(classes, old(knownPrograms), frame)
    {
      if IsAnnouncement(Header(frame.canId)) {
        AddProgram(frame);
        return;
      }
      if IsValueAnswer(Header(frame.canId)) {
        var routed := Route(classes, knownPrograms, frame);
        if routed.Some? {
          readings := readings +
            [Reading(ProgramId(frame), routed.value.target, frame.data[routed.value.offset..])];
        }
      }
    }
  }

  lemma ReadingOfRoute(classes: ClassTable, known: map<Byte, Byte>, frame: CanFrame, programId: Byte, target: Target,
                       offset: nat)
    requires forall k | k in known :: known[k] in classes.byType
    requires ProgramId(frame) == programId && offset <= 8
    ensures Readings(classes, known, frame) == [Reading(programId, target, frame.data[offset..])] <==>
            Route(classes, known, frame) == Some(Routed(target, offset))
  {
    if Readings(classes, known, frame) == [Reading(programId, target, frame.data[offset..])] {
      var routed := Route(classes, known, frame).value;
      assert |frame.data[routed.offset..]| == 8 - routed.offset;
    }
  }

  /** The answer to a poll as a reading. */
  lemma AnswerReading(classes: ClassTable, known: map<Byte, Byte>, programId: Byte, cl: SwClass,
                      p: seq<nat>, table: Table, id: nat, dlc: Byte, rest: Data)
    requires KeysAreTypes(classes.byType) && forall k | k in known :: known[k] in classes.byType
    requires programId in known && classes.byType[known[programId]] == cl && NoCycleAbove(classes, cl)
    requires Has(classes, cl, p, table, id)
    ensures var origin := Target(End(classes, cl, p).programType, table, id);
            var request := RequestOf(End(classes, cl, p), table, programId, id);
            var frame := AnswerTo(request, dlc, rest);
            && Accepts(frame) && !IsAnnouncement(Header(frame.canId)) && IsValueAnswer(Header(frame.canId))
            && (Readings(classes, known, frame) == [Reading(programId, origin, frame.data[request.dlc..])] <==>
                Reaches(classes, cl, p, table, id))
  {
    var origin := Target(End(classes, cl, p).programType, table, id);
    var request := RequestOf(End(classes, cl, p), table, programId, id);
    RequestHead(End(classes, cl, p), table, programId, id);
    AnswerHeader(request, programId, dlc, rest);
    PollRoundTrip(classes, known, programId, cl, p, table, id, dlc, rest);
    ReadingOfRoute(classes, known, AnswerTo(request, dlc, rest), programId, origin, request.dlc);
  }

  lemma RunOfThree(s: Polling.State, e: Polling.Event, f: Polling.Event, g: Polling.Event)
    ensures Polling.Run(s, [e, f, g]) == Polling.Step(Polling.Step(Polling.Step(s, e), f), g)
  {
    var t := Polling.Step(s, e);
    assert [e, f, g][1..] == [f, g] && [f, g][1..] == [g];
    var u := Polling.Step(t, f);
    assert Polling.Run(u, [g]) == Polling.Run(Polling.Step(u, g), []);
    assert Polling.Run(t, [f, g]) == Polling.Run(u, [g]);
  }

  ghost function Readings(classes: ClassTable, known: map<Byte, Byte>, frame: CanFrame): seq<Reading>
    requires forall k | k in known :: known[k] in classes.byType
  {
    match Route(classes, known, frame)
    case None => []
    case Some(r) => [Reading(ProgramId(frame), r.target, frame.data[r.offset..])]
  }
}
