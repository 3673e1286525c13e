/** Program discovery, `AddProgram` of `src/SmartWebToMqttGateway.cpp`: which announcements add polling
    requests, and in which order. */
module Discovery {
  import opened Classes
  import opened Conventions
  import opened Inheritance
  import opened Requests

  /** `KnownPrograms` (program id to the key of its class) and `Requests`. */
  datatype Discovered = Discovered(known: map<Byte, Byte>, requests: seq<CanFrame>)

  ghost predicate GoodClasses(classes: ClassTable) {
    KeysAreTypes(classes.byType) && forall k | k in classes.byType :: NoCycleAbove(classes, classes.byType[k])
  }

  function ProgramId(frame: CanFrame): Byte {
    Header(frame.canId).programId
  }

  /** An announcement has exactly three bytes, the last of which is the type of a loaded class. */
  predicate IsValid(classes: ClassTable, frame: CanFrame) {
    frame.dlc == 3 && frame.data[2] in classes.byType
  }

  ghost function AddProgram(classes: ClassTable, d: Discovered, frame: CanFrame): Discovered
    requires GoodClasses(classes)
  {
    if ProgramId(frame) in d.known || frame.dlc != 3 || frame.data[2] !in classes.byType then d
    else Discovered(
      d.known[ProgramId(frame) := frame.data[2]],
      d.requests + Expand(classes, classes.byType[frame.data[2]], ProgramId(frame)))
  }

  ghost function AddPrograms(classes: ClassTable, d: Discovered, frames: seq<CanFrame>): Discovered
    requires GoodClasses(classes)
  {
    if frames == [] then d
    else AddProgram(classes, AddPrograms(classes, d, frames[..|frames| - 1]), frames[|frames| - 1])
  }

  const NOTHING := Discovered(map[], [])

  ghost predicate Announced(classes: ClassTable, frames: seq<CanFrame>, programId: Byte) {
    exists i :: 0 <= i < |frames| && IsValid(classes, frames[i]) && ProgramId(frames[i]) == programId
  }

  /** The first valid announcement of each program, in order of arrival. */
  ghost function FirstValid(classes: ClassTable, frames: seq<CanFrame>): seq<CanFrame> {
    if frames == [] then []
    else
      var earlier, last := frames[..|frames| - 1], frames[|frames| - 1];
      FirstValid(classes, earlier) +
      (if IsValid(classes, last) && !Announced(classes, earlier, ProgramId(last)) then [last] else [])
  }

  ghost function Expansions(classes: ClassTable, frames: seq<CanFrame>): seq<CanFrame>
    requires GoodClasses(classes) && forall f | f in frames :: IsValid(classes, f)
  {
    if frames == [] then []
    else
      var last := frames[|frames| - 1];
      assert last in frames && IsValid(classes, last);
      Expansions(classes, frames[..|frames| - 1]) + Expand(classes, classes.byType[last.data[2]], ProgramId(last))
  }

  lemma {:induction false} FirstValidAreValid(classes: ClassTable, frames: seq<CanFrame>)
    ensures forall f | f in FirstValid(classes, frames) :: IsValid(classes, f)
  {
    if frames != [] {
      FirstValidAreValid(classes, frames[..|frames| - 1]);
    }
  }

  lemma AnnouncedStep(classes: ClassTable, frames: seq<CanFrame>, programId: Byte)
    requires frames != []
    ensures var last := frames[|frames| - 1];
            Announced(classes, frames, programId) <==>
            Announced(classes, frames[..|frames| - 1], programId) ||
              (IsValid(classes, last) && ProgramId(last) == programId)
  {
    var earlier, last := frames[..|frames| - 1], frames[|frames| - 1];
    if Announced(classes, earlier, programId) {
      var i :| 0 <= i < |earlier| && IsValid(classes, earlier[i]) && ProgramId(earlier[i]) == programId;
      assert frames[i] == earlier[i];
    }
    if Announced(classes, frames, programId) {
      var i :| 0 <= i < |frames| && IsValid(classes, frames[i]) && ProgramId(frames[i]) == programId;
      assert i < |earlier| ==> earlier[i] == frames[i];
    }
  }

  /** After any sequence of announcements the request list is the concatenation, in order of first
      valid announcement, of the expansions of the distinct program ids: repeated, malformed and
      unknown ones change nothing. */
  lemma {:induction false} DiscoveryExact(classes: ClassTable, frames: seq<CanFrame>)
    requires GoodClasses(classes)
    ensures forall f | f in FirstValid(classes, frames) :: IsValid(classes, f)
    ensures AddPrograms(classes, NOTHING, frames).requests == Expansions(classes, FirstValid(classes, frames))
    ensures forall id :: id in AddPrograms(classes, NOTHING, frames).known <==> Announced(classes, frames, id)
  {
    FirstValidAreValid(classes, frames);
    if frames != [] {
      var earlier, last := frames[..|frames| - 1], frames[|frames| - 1];
      DiscoveryExact(classes, earlier);
      var d := AddPrograms(classes, NOTHING, earlier);
      forall id
        ensures id in AddPrograms(classes, NOTHING, frames).known <==> Announced(classes, frames, id)
      {
        AnnouncedStep(classes, frames, id);
      }
      if IsValid(classes, last) && !Announced(classes, earlier, ProgramId(last)) {
        var firsts := FirstValid(classes, earlier) + [last];
        assert firsts[..|firsts| - 1] == FirstValid(classes, earlier);
      } else {
        assert FirstValid(classes, earlier) + [] == FirstValid(classes, earlier);
      }
    }
  }

  ghost predicate Introduces(frame: CanFrame, id: Byte, key: Byte) {
    ProgramId(frame) == id && frame.data[2] == key
  }

  /** Every known program has a loaded class, whose type is the one of its first valid announcement. */
  lemma {:induction false} KnownPrograms(classes: ClassTable, frames: seq<CanFrame>, id: Byte)
    requires GoodClasses(classes) && id in AddPrograms(classes, NOTHING, frames).known
    ensures var key := AddPrograms(classes, NOTHING, frames).known[id];
            key in classes.byType && classes.byType[key].programType == key &&
            exists f :: f in FirstValid(classes, frames) && Introduces(f, id, key)
  {
    var earlier, last := frames[..|frames| - 1], frames[|frames| - 1];
    var d := AddPrograms(classes, NOTHING, earlier);
    if id in d.known {
      KnownPrograms(classes, earlier, id);
      var f :| f in FirstValid(classes, earlier) && Introduces(f, id, d.known[id]);
      assert f in FirstValid(classes, frames);
    } else {
      DiscoveryExact(classes, earlier);
      assert last in FirstValid(classes, frames) && Introduces(last, id, last.data[2]);
    }
  }

  ghost predicate PolledFor(classes: ClassTable, known: map<Byte, Byte>, r: CanFrame, id: Byte)
    requires GoodClasses(classes)
  {
    id in known && known[id] in classes.byType && r in Expand(classes, classes.byType[known[id]], id)
  }

  /** Every request in the list polls a known program. */
  lemma {:induction false} RequestsAreKnown(classes: ClassTable, frames: seq<CanFrame>, r: CanFrame)
    requires GoodClasses(classes) && r in AddPrograms(classes, NOTHING, frames).requests
    ensures exists id :: PolledFor(classes, AddPrograms(classes, NOTHING, frames).known, r, id)
  {
    var last := frames[|frames| - 1];
    var d := AddPrograms(classes, NOTHING, frames[..|frames| - 1]);
    if r in d.requests {
      RequestsAreKnown(classes, frames[..|frames| - 1], r);
      var id :| PolledFor(classes, d.known, r, id);
      assert PolledFor(classes, AddProgram(classes, d, last).known, r, id);
    } else {
      assert PolledFor(classes, AddProgram(classes, d, last).known, r, ProgramId(last));
    }
  }
}
