/** `AddRequests` of `src/SmartWebToMqttGateway.cpp`: the polling requests of a program. */
module Requests {
  import opened Classes
  import opened Conventions
  import opened Inheritance
  import opened OrderedKeys
  import opened Wrappers

  /** `std::vector<CAN::TFrame>`. */
  class FrameVector {
    var frames: seq<CanFrame>

    constructor ()
      ensures frames == []
    {
      frames := [];
    }

    method PushBack(frame: CanFrame)
      modifies this
      ensures frames == old(frames) + [frame]
    {
      frames := frames + [frame];
    }
  }

  function RequestHeader(programId: Byte): CanHeader {
    CanHeader(PT_REMOTE_CONTROL, programId, GET_PARAMETER_VALUE, MF_FORMAT_0, MT_MSG_REQUEST, 0)
  }

  function RequestId(programId: Byte): Word {
    Extended(Raw(RequestHeader(programId)))
  }

  function IndexedRequest(parameterId: Byte, programId: Byte, id: nat): CanFrame {
    CanFrame(RequestId(programId), 3, Overlay(ZERO_DATA, [PT_PROGRAM, parameterId, id % 0x100]))
  }

  /** The frame buffer is shared: a parameter request still holds, past its two data bytes, the index
      of the last output or input request. */
  function LastIndex(ins: seq<nat>, outs: seq<nat>): Byte {
    if outs != [] then outs[|outs| - 1] % 0x100
    else if ins != [] then ins[|ins| - 1] % 0x100
    else 0
  }

  function WithIndex(index: Byte): Data {
    [0, 0, index, 0, 0, 0, 0, 0]
  }

  function Leftover(cl: SwClass): Data {
    WithIndex(LastIndex(SortedKeys(cl.inputs.Keys), SortedKeys(cl.outputs.Keys)))
  }

  function ParameterRequest(cl: SwClass, programId: Byte, id: nat): CanFrame {
    CanFrame(RequestId(programId), 2, Overlay(Leftover(cl), [cl.programType, id % 0x100]))
  }

  function IndexedRequests(parameterId: Byte, programId: Byte, ids: seq<nat>): seq<CanFrame> {
    seq(|ids|, i requires 0 <= i < |ids| => IndexedRequest(parameterId, programId, ids[i]))
  }

  function ParameterRequests(cl: SwClass, programId: Byte, ids: seq<nat>): seq<CanFrame> {
    seq(|ids|, i requires 0 <= i < |ids| => ParameterRequest(cl, programId, ids[i]))
  }

  /** The requests a class contributes by itself. */
  function Own(cl: SwClass, programId: Byte): seq<CanFrame> {
    IndexedRequests(SENSOR, programId, SortedKeys(cl.inputs.Keys)) +
    IndexedRequests(OUTPUT, programId, SortedKeys(cl.outputs.Keys)) +
    ParameterRequests(cl, programId, SortedKeys(cl.parameters.Keys))
  }

  /** The own requests of the class at the end of a path. */
  ghost function AtEnd(classes: ClassTable, cl: SwClass, p: seq<nat>, programId: Byte): seq<CanFrame> {
    if IsPath(classes, cl, p) then Own(End(classes, cl, p), programId) else []
  }

  ghost function Batch(classes: ClassTable, cl: SwClass, ps: seq<seq<nat>>, programId: Byte): seq<CanFrame> {
    if ps == [] then [] else AtEnd(classes, cl, ps[0], programId) + Batch(classes, cl, ps[1..], programId)
  }

  /** What polling a program of class `cl` takes: the own requests of the class at the end of every
      inheritance path. */
  ghost function Expand(classes: ClassTable, cl: SwClass, programId: Byte): seq<CanFrame>
    requires NoCycleAbove(classes, cl)
  {
    Batch(classes, cl, Paths(classes, cl), programId)
  }

  lemma BatchCons(classes: ClassTable, cl: SwClass, ps: seq<seq<nat>>, rest: seq<seq<nat>>, programId: Byte)
    requires ps != [] && ps[1..] == rest
    ensures Batch(classes, cl, ps, programId) ==
            AtEnd(classes, cl, ps[0], programId) + Batch(classes, cl, rest, programId)
  {
  }

  lemma {:induction false} BatchConcat(classes: ClassTable, cl: SwClass, ps: seq<seq<nat>>, qs: seq<seq<nat>>,
                                       programId: Byte)
    ensures Batch(classes, cl, ps + qs, programId) ==
            Batch(classes, cl, ps, programId) + Batch(classes, cl, qs, programId)
  {
    var all := ps + qs;
    if ps == [] {
      assert all == qs;
    } else {
      BatchConcat(classes, cl, ps[1..], qs, programId);
      assert all[0] == ps[0] && all[1..] == ps[1..] + qs;
      BatchCons(classes, cl, all, ps[1..] + qs, programId);
      BatchCons(classes, cl, ps, ps[1..], programId);
      ConcatAssoc(AtEnd(classes, cl, ps[0], programId), Batch(classes, cl, ps[1..], programId),
                  Batch(classes, cl, qs, programId));
    }
  }

  lemma {:induction false} BatchPrefixed(classes: ClassTable, cl: SwClass, i: nat, ps: seq<seq<nat>>, programId: Byte)
    requires i < |cl.parents| && Parent(classes, cl, i).Some?
    ensures Batch(classes, cl, Prefixed(i, ps), programId) ==
            Batch(classes, classes.byType[Parent(classes, cl, i).value], ps, programId)
  {
    if ps != [] {
      assert Prefixed(i, ps)[1..] == Prefixed(i, ps[1..]);
      assert ([i] + ps[0])[1..] == ps[0];
      BatchPrefixed(classes, cl, i, ps[1..], programId);
    }
  }

  /** The requests that come from the parents numbered `i` and up. */
  ghost function ExpandFrom(classes: ClassTable, cl: SwClass, i: nat, programId: Byte): seq<CanFrame>
    requires NoCycleAbove(classes, cl) && i <= |cl.parents|
  {
    Batch(classes, cl, PathsFrom(classes, cl, i), programId)
  }

  lemma ExpandUnfold(classes: ClassTable, cl: SwClass, programId: Byte)
    requires NoCycleAbove(classes, cl)
    ensures Expand(classes, cl, programId) == Own(cl, programId) + ExpandFrom(classes, cl, 0, programId)
  {
    assert Paths(classes, cl)[1..] == PathsFrom(classes, cl, 0);
  }

  /** The requests that come from one parent. */
  ghost function ViaParent(classes: ClassTable, cl: SwClass, i: nat, programId: Byte): seq<CanFrame>
    requires NoCycleAbove(classes, cl) && i < |cl.parents|
  {
    if Parent(classes, cl, i).None? then [] else
      StepUp(classes, cl, i);
      Expand(classes, classes.byType[Parent(classes, cl, i).value], programId)
  }

  lemma ExpandFromUnfold(classes: ClassTable, cl: SwClass, i: nat, programId: Byte)
    requires NoCycleAbove(classes, cl) && i < |cl.parents|
    ensures ExpandFrom(classes, cl, i, programId) ==
            ViaParent(classes, cl, i, programId) + ExpandFrom(classes, cl, i + 1, programId)
  {
    BatchConcat(classes, cl, PathsVia(classes, cl, i), PathsFrom(classes, cl, i + 1), programId);
    if Parent(classes, cl, i).Some? {
      StepUp(classes, cl, i);
      var up := classes.byType[Parent(classes, cl, i).value];
      BatchPrefixed(classes, cl, i, Paths(classes, up), programId);
    }
  }

  // ----- the loops -----

  /** The request for `id` written over the head of the shared frame buffer. */
  function Written(frame: CanFrame, head: seq<Byte>, id: nat): CanFrame
    requires |head| <= 2
  {
    frame.(data := Overlay(frame.data, head + [id % 0x100]))
  }

  function AllWritten(frame: CanFrame, head: seq<Byte>, ids: seq<nat>): seq<CanFrame>
    requires |head| <= 2
  {
    seq(|ids|, i requires 0 <= i < |ids| => Written(frame, head, ids[i]))
  }

  function LastWritten(frame: CanFrame, head: seq<Byte>, ids: seq<nat>): CanFrame
    requires |head| <= 2
  {
    if ids == [] then frame else Written(frame, head, ids[|ids| - 1])
  }

  /** The loop over the inputs, the outputs or the parameters of a class. */
  method AddEach(requests: FrameVector, frame: CanFrame, head: seq<Byte>, ids: seq<nat>) returns (last: CanFrame)
    requires |head| <= 2
    modifies requests
    ensures requests.frames == old(requests.frames) + AllWritten(frame, head, ids)
    ensures last == LastWritten(frame, head, ids)
  {
    last := frame;
    ghost var all := AllWritten(frame, head, ids);
    for i := 0 to |ids|
      invariant requests.frames == old(requests.frames) + all[..i]
      invariant last == if i == 0 then frame else all[i - 1]
    {
      last := Written(last, head, ids[i]);
      assert last.data == all[i].data;
      requests.PushBack(last);
    }
    assert all[..|ids|] == all;
  }

  lemma IndexedWritten(frame: CanFrame, parameterId: Byte, programId: Byte, ids: seq<nat>)
    requires frame.canId == RequestId(programId) && frame.dlc == 3 && forall k | 3 <= k < 8 :: frame.data[k] == 0
    ensures AllWritten(frame, [PT_PROGRAM, parameterId], ids) == IndexedRequests(parameterId, programId, ids)
  {
    var a, b := AllWritten(frame, [PT_PROGRAM, parameterId], ids), IndexedRequests(parameterId, programId, ids);
    forall i | 0 <= i < |ids|
      ensures a[i] == b[i]
    {
      OverlaySame(frame.data, ZERO_DATA, [PT_PROGRAM, parameterId] + [ids[i] % 0x100]);
      assert [PT_PROGRAM, parameterId] + [ids[i] % 0x100] == [PT_PROGRAM, parameterId, ids[i] % 0x100];
    }
  }

  lemma WithIndexBytes(index: Byte)
    ensures WithIndex(index)[2] == index && forall k | 3 <= k < 8 :: WithIndex(index)[k] == 0
  {
  }

  lemma ParameterWritten(frame: CanFrame, cl: SwClass, programId: Byte, ids: seq<nat>)
    requires frame.canId == RequestId(programId) && frame.dlc == 2 && forall k | 3 <= k < 8 :: frame.data[k] == 0
    requires frame.data[2] == LastIndex(SortedKeys(cl.inputs.Keys), SortedKeys(cl.outputs.Keys))
    ensures AllWritten(frame, [cl.programType], ids) == ParameterRequests(cl, programId, ids)
  {
    WithIndexBytes(frame.data[2]);
    SameParameterFrames(frame, Leftover(cl), cl, programId, ids);
  }

  lemma SameParameterFrames(frame: CanFrame, base: Data, cl: SwClass, programId: Byte, ids: seq<nat>)
    requires frame.canId == RequestId(programId) && frame.dlc == 2 && base == Leftover(cl)
    requires forall k | 2 <= k < 8 :: frame.data[k] == base[k]
    ensures AllWritten(frame, [cl.programType], ids) == ParameterRequests(cl, programId, ids)
  {
    var a, b := AllWritten(frame, [cl.programType], ids), ParameterRequests(cl, programId, ids);
    forall i | 0 <= i < |ids|
      ensures a[i] == b[i]
    {
      assert [cl.programType] + [ids[i] % 0x100] == [cl.programType, ids[i] % 0x100];
      OverlaySame(frame.data, base, [cl.programType, ids[i] % 0x100]);
    }
  }

  lemma LastWrittenTail(frame: CanFrame, a: Byte, b: Byte, ids: seq<nat>)
    ensures LastWritten(frame, [a, b], ids).canId == frame.canId && LastWritten(frame, [a, b], ids).dlc == frame.dlc
    ensures forall k | 3 <= k < 8 :: LastWritten(frame, [a, b], ids).data[k] == frame.data[k]
    ensures LastWritten(frame, [a, b], ids).data[2] == if ids == [] then frame.data[2] else ids[|ids| - 1] % 0x100
  {
    if ids != [] {
      var last := Written(frame, [a, b], ids[|ids| - 1]);
      assert last.data[..3][2] == last.data[2];
      assert forall k | 3 <= k < 8 :: last.data[k] == last.data[3..][k - 3];
    }
  }

  /** What the loops over the inputs `ins` and the outputs `outs` leave in the zeroed buffer. */
  lemma BufferAfterLoops(f0: CanFrame, ins: seq<nat>, outs: seq<nat>)
    requires f0.data == ZERO_DATA
    ensures var f1 := LastWritten(f0, [PT_PROGRAM, SENSOR], ins);
            var f2 := LastWritten(f1, [PT_PROGRAM, OUTPUT], outs);
            && f1.canId == f2.canId == f0.canId && f1.dlc == f2.dlc == f0.dlc
            && (forall k | 3 <= k < 8 :: f1.data[k] == f2.data[k] == 0)
            && f2.data[2] == LastIndex(ins, outs)
  {
    LastWrittenTail(f0, PT_PROGRAM, SENSOR, ins);
    LastWrittenTail(LastWritten(f0, [PT_PROGRAM, SENSOR], ins), PT_PROGRAM, OUTPUT, outs);
  }

  method AddOwnRequests(requests: FrameVector, cl: SwClass, programId: Byte)
    modifies requests
    ensures requests.frames == old(requests.frames) + Own(cl, programId)
  {
    var ins, outs, params := SortedKeys(cl.inputs.Keys), SortedKeys(cl.outputs.Keys), SortedKeys(cl.parameters.Keys);
    var f0 := CanFrame(RequestId(programId), 3, ZERO_DATA);
    BufferAfterLoops(f0, ins, outs);
    var f1 := AddEach(requests, f0, [PT_PROGRAM, SENSOR], ins);
    ghost var s1 := requests.frames;
    IndexedWritten(f0, SENSOR, programId, ins);
    var f2 := AddEach(requests, f1, [PT_PROGRAM, OUTPUT], outs);
    ghost var s2 := requests.frames;
    IndexedWritten(f1, OUTPUT, programId, outs);
    var _ := AddEach(requests, f2.(dlc := 2), [cl.programType], params);
    ParameterWritten(f2.(dlc := 2), cl, programId, params);
    Concat4(old(requests.frames), s1, s2, requests.frames, IndexedRequests(SENSOR, programId, ins),
      IndexedRequests(OUTPUT, programId, outs), ParameterRequests(cl, programId, params));
  }

  /** `AddRequests`. */
  method AddRequests(requests: FrameVector, cl: SwClass, programId: Byte, classes: ClassTable)
    requires NoCycleAbove(classes, cl)
    modifies requests
    ensures requests.frames == old(requests.frames) + Expand(classes, cl, programId)
    decreases Ancestors(classes, cl), 1
  {
    ExpandUnfold(classes, cl, programId);
    AddOwnRequests(requests, cl, programId);
    ghost var done := Own(cl, programId);
    ghost var all := Expand(classes, cl, programId);
    for i := 0 to |cl.parents|
      invariant requests.frames == old(requests.frames) + done
      invariant done + ExpandFrom(classes, cl, i, programId) == all
    {
      ghost var rest := ExpandFrom(classes, cl, i + 1, programId);
      ExpandFromUnfold(classes, cl, i, programId);
      AddParent(requests, cl, i, programId, classes);
      ghost var part := ViaParent(classes, cl, i, programId);
      ConcatAssoc(done, part, rest);
      ConcatAssoc(old(requests.frames), done, part);
      done := done + part;
    }
    assert ExpandFrom(classes, cl, |cl.parents|, programId) == [];
  }

  /** The search for a parent among the loaded classes takes the first one of the name that the hash
      table visits; a name that no class has adds nothing. */
  method AddParent(requests: FrameVector, cl: SwClass, i: nat, programId: Byte, classes: ClassTable)
    requires NoCycleAbove(classes, cl) && i < |cl.parents|
    modifies requests
    ensures requests.frames == old(requests.frames) + ViaParent(classes, cl, i, programId)
    decreases Ancestors(classes, cl), 0
  {
    var order := classes.order;
    for j := 0 to |order|
      invariant Parent(classes, cl, i) == FirstNamed(classes.byType, order[j..], cl.parents[i])
      invariant requests.frames == old(requests.frames)
    {
      assert order[j..][0] == order[j] && order[j..][1..] == order[j + 1..];
      if classes.byType[order[j]].name == cl.parents[i] {
        StepUp(classes, cl, i);
        AddRequests(requests, classes.byType[order[j]], programId, classes);
        return;
      }
    }
  }

  lemma Concat4(s0: seq<CanFrame>, s1: seq<CanFrame>, s2: seq<CanFrame>, s3: seq<CanFrame>,
                a: seq<CanFrame>, b: seq<CanFrame>, c: seq<CanFrame>)
    requires s1 == s0 + a && s2 == s1 + b && s3 == s2 + c
    ensures s3 == s0 + (a + b + c)
  {
  }

  lemma ConcatAssoc(a: seq<CanFrame>, b: seq<CanFrame>, c: seq<CanFrame>)
    ensures a + (b + c) == (a + b) + c
  {
  }

  // ----- how many requests, and how often each -----

  ghost function Weight(classes: ClassTable, cl: SwClass, ps: seq<seq<nat>>): nat {
    if ps == [] then 0
    else (if IsPath(classes, cl, ps[0]) then
            var c := End(classes, cl, ps[0]);
            |c.inputs| + |c.outputs| + |c.parameters|
          else 0) + Weight(classes, cl, ps[1..])
  }

  lemma OwnSize(cl: SwClass, programId: Byte)
    ensures |Own(cl, programId)| == |cl.inputs| + |cl.outputs| + |cl.parameters|
  {
    SortedKeysSpec(cl.inputs.Keys);
    SortedKeysSpec(cl.outputs.Keys);
    SortedKeysSpec(cl.parameters.Keys);
  }

  lemma {:induction false} BatchSize(classes: ClassTable, cl: SwClass, ps: seq<seq<nat>>, programId: Byte)
    ensures |Batch(classes, cl, ps, programId)| == Weight(classes, cl, ps)
  {
    if ps != [] {
      if IsPath(classes, cl, ps[0]) {
        OwnSize(End(classes, cl, ps[0]), programId);
      }
      BatchSize(classes, cl, ps[1..], programId);
    }
  }

  /** The number of requests is the sum of inputs, outputs and parameters over all inheritance paths. */
  lemma ExpandSize(classes: ClassTable, cl: SwClass, programId: Byte)
    requires NoCycleAbove(classes, cl)
    ensures |Expand(classes, cl, programId)| == Weight(classes, cl, Paths(classes, cl))
  {
    BatchSize(classes, cl, Paths(classes, cl), programId);
  }

  ghost predicate Leads(classes: ClassTable, cl: SwClass, p: seq<nat>, k: Byte)
    requires k in classes.byType
  {
    IsPath(classes, cl, p) && End(classes, cl, p) == classes.byType[k]
  }

  /** The inheritance paths from `cl` to the class of type `k`. */
  ghost function PathsTo(classes: ClassTable, cl: SwClass, k: Byte): (r: set<seq<nat>>)
    requires NoCycleAbove(classes, cl) && k in classes.byType
    ensures forall p :: p in r <==> Leads(classes, cl, p, k)
  {
    AllPaths(classes, cl);
    set p | p in Paths(classes, cl) && Leads(classes, cl, p, k)
  }

  lemma AllPaths(classes: ClassTable, cl: SwClass)
    requires NoCycleAbove(classes, cl)
    ensures forall p :: p in Paths(classes, cl) <==> IsPath(classes, cl, p)
  {
    forall p
      ensures p in Paths(classes, cl) <==> IsPath(classes, cl, p)
    {
      PathsComplete(classes, cl, p);
    }
  }

  ghost predicate SmallIds(m: map<nat, Parameter>) {
    forall id | id in m :: id < 0x100
  }

  lemma {:induction false} OnceIfNoDuplicates(s: seq<CanFrame>, i: nat)
    requires i < |s| && forall j, k | 0 <= j < k < |s| :: s[j] != s[k]
    ensures multiset(s)[s[i]] == 1
  {
    assert s == [s[0]] + s[1..];
    if i > 0 {
      OnceIfNoDuplicates(s[1..], i - 1);
    } else {
      assert s[0] !in s[1..];
    }
  }

  lemma SameClassCopies(k: SwClass, programId: Byte, keys: seq<nat>, id: nat)
    requires id in keys && Ascending(keys) && forall i | i in keys :: i < 0x100
    ensures multiset(ParameterRequests(k, programId, keys))[ParameterRequest(k, programId, id)] == 1
  {
    var params := ParameterRequests(k, programId, keys);
    forall i, j | 0 <= i < j < |params|
      ensures params[i] != params[j]
    {
      assert keys[i] in keys && keys[j] in keys;
      DistinctIds(k, programId, keys[i], keys[j]);
    }
    var i :| 0 <= i < |keys| && keys[i] == id;
    OnceIfNoDuplicates(params, i);
  }

  lemma DistinctIds(k: SwClass, programId: Byte, i: nat, j: nat)
    requires i < j < 0x100
    ensures ParameterRequest(k, programId, i) != ParameterRequest(k, programId, j)
  {
    RequestBytes(k, programId, i);
    RequestBytes(k, programId, j);
  }

  lemma OtherClassCopies(c: SwClass, k: SwClass, programId: Byte, keys: seq<nat>, id: nat)
    requires c.programType != k.programType
    ensures multiset(ParameterRequests(c, programId, keys))[ParameterRequest(k, programId, id)] == 0
  {
    var params := ParameterRequests(c, programId, keys);
    RequestBytes(k, programId, id);
    forall i | 0 <= i < |keys|
      ensures params[i] != ParameterRequest(k, programId, id)
    {
      RequestBytes(c, programId, keys[i]);
    }
    assert ParameterRequest(k, programId, id) !in params;
  }

  lemma RequestBytes(c: SwClass, programId: Byte, id: nat)
    ensures ParameterRequest(c, programId, id).data[0] == c.programType
    ensures ParameterRequest(c, programId, id).data[1] == id % 0x100
  {
    var r := ParameterRequest(c, programId, id);
    assert r.data[..2][0] == r.data[0] && r.data[..2][1] == r.data[1];
  }

  /** Among its own requests a class has each parameter request once, and none of another class. */
  lemma OwnCopies(c: SwClass, k: SwClass, programId: Byte, id: nat)
    requires id in k.parameters && SmallIds(k.parameters) && (c.programType == k.programType ==> c == k)
    ensures multiset(Own(c, programId))[ParameterRequest(k, programId, id)] == if c == k then 1 else 0
  {
    var r := ParameterRequest(k, programId, id);
    if c == k {
      SortedKeysSpec(k.parameters.Keys);
      SameClassCopies(k, programId, SortedKeys(k.parameters.Keys), id);
    } else {
      OtherClassCopies(c, k, programId, SortedKeys(c.parameters.Keys), id);
    }
    NotIndexed(r, SENSOR, programId, SortedKeys(c.inputs.Keys));
    NotIndexed(r, OUTPUT, programId, SortedKeys(c.outputs.Keys));
  }

  lemma NotIndexed(r: CanFrame, parameterId: Byte, programId: Byte, ids: seq<nat>)
    requires r.dlc != 3
    ensures multiset(IndexedRequests(parameterId, programId, ids))[r] == 0
  {
    assert r !in IndexedRequests(parameterId, programId, ids);
  }

  ghost function Leading(classes: ClassTable, cl: SwClass, ps: seq<seq<nat>>, k: Byte): set<seq<nat>>
    requires k in classes.byType
  {
    set p | p in ps && Leads(classes, cl, p, k)
  }

  lemma LeadingStep(classes: ClassTable, cl: SwClass, ps: seq<seq<nat>>, k: Byte)
    requires ps != [] && NoDuplicates(ps) && k in classes.byType
    ensures |Leading(classes, cl, ps, k)| ==
            |Leading(classes, cl, ps[1..], k)| + (if Leads(classes, cl, ps[0], k) then 1 else 0)
  {
    var rest := Leading(classes, cl, ps[1..], k);
    assert ps[0] !in ps[1..];
    if Leads(classes, cl, ps[0], k) {
      assert Leading(classes, cl, ps, k) == rest + {ps[0]};
    } else {
      assert Leading(classes, cl, ps, k) == rest;
    }
  }

  lemma CopiesAtEnd(classes: ClassTable, cl: SwClass, p: seq<nat>, programId: Byte, k: Byte, id: nat)
    requires KeysAreTypes(classes.byType) && cl.programType in classes.byType && classes.byType[cl.programType] == cl
    requires k in classes.byType && id in classes.byType[k].parameters && SmallIds(classes.byType[k].parameters)
    ensures multiset(AtEnd(classes, cl, p, programId))[ParameterRequest(classes.byType[k], programId, id)] ==
            if Leads(classes, cl, p, k) then 1 else 0
  {
    if IsPath(classes, cl, p) {
      EndInTable(classes, cl, p);
      OwnCopies(End(classes, cl, p), classes.byType[k], programId, id);
    }
  }

  lemma {:induction false} BatchCopies(classes: ClassTable, cl: SwClass, ps: seq<seq<nat>>, programId: Byte, k: Byte,
                                       id: nat)
    requires KeysAreTypes(classes.byType) && cl.programType in classes.byType && classes.byType[cl.programType] == cl
    requires NoDuplicates(ps) && k in classes.byType && id in classes.byType[k].parameters &&
             SmallIds(classes.byType[k].parameters)
    ensures multiset(Batch(classes, cl, ps, programId))[ParameterRequest(classes.byType[k], programId, id)] ==
            |Leading(classes, cl, ps, k)|
  {
    if ps == [] {
    } else {
      BatchCopies(classes, cl, ps[1..], programId, k, id);
      LeadingStep(classes, cl, ps, k);
      CopiesAtEnd(classes, cl, ps[0], programId, k, id);
    }
  }

  lemma EndInTable(classes: ClassTable, cl: SwClass, p: seq<nat>)
    requires KeysAreTypes(classes.byType) && cl.programType in classes.byType && classes.byType[cl.programType] == cl
    requires IsPath(classes, cl, p)
    ensures End(classes, cl, p).programType in classes.byType
    ensures classes.byType[End(classes, cl, p).programType] == End(classes, cl, p)
  {
    if p != [] {
      var k := EndKey(classes, cl, p);
    }
  }

  /** A parameter request of the class of type `k` is polled exactly once per inheritance path to that
      class: a diamond repeats it, and a class that is no ancestor does not appear. */
  lemma RequestPerPath(classes: ClassTable, cl: SwClass, programId: Byte, k: Byte, id: nat)
    requires KeysAreTypes(classes.byType) && cl.programType in classes.byType && classes.byType[cl.programType] == cl
    requires NoCycleAbove(classes, cl)
    requires k in classes.byType && id in classes.byType[k].parameters && SmallIds(classes.byType[k].parameters)
    ensures multiset(Expand(classes, cl, programId))[ParameterRequest(classes.byType[k], programId, id)] ==
            |PathsTo(classes, cl, k)|
  {
    PathsDistinct(classes, cl);
    BatchCopies(classes, cl, Paths(classes, cl), programId, k, id);
    AllPaths(classes, cl);
    assert PathsTo(classes, cl, k) == Leading(classes, cl, Paths(classes, cl), k);
  }

  // ----- inputs and outputs -----

  /** The inputs of a class, or its outputs. */
  function Indexed(c: SwClass, parameterId: Byte): map<nat, Parameter> {
    if parameterId == SENSOR then c.inputs else c.outputs
  }

  ghost predicate SmallIndexes(c: SwClass) {
    SmallIds(c.inputs) && SmallIds(c.outputs)
  }

  lemma IndexedBytes(parameterId: Byte, programId: Byte, id: nat)
    ensures var r := IndexedRequest(parameterId, programId, id);
            r.data[0] == PT_PROGRAM && r.data[1] == parameterId && r.data[2] == id % 0x100
  {
    var r := IndexedRequest(parameterId, programId, id);
    assert r.data[..3] == [PT_PROGRAM, parameterId, id % 0x100];
    assert r.data[0] == r.data[..3][0] && r.data[1] == r.data[..3][1] && r.data[2] == r.data[..3][2];
  }

  lemma HeadsDiffer(r: CanFrame, q: CanFrame, a: Byte, b: Byte, i: nat, j: nat)
    requires i < 0x100 && j < 0x100 && (a != b || i != j)
    requires r.data[1] == a && r.data[2] == i % 0x100 && q.data[1] == b && q.data[2] == j % 0x100
    ensures r != q
  {
  }

  lemma IndexedDistinct(a: Byte, b: Byte, programId: Byte, i: nat, j: nat)
    requires i < 0x100 && j < 0x100 && (a != b || i != j)
    ensures IndexedRequest(a, programId, i) != IndexedRequest(b, programId, j)
  {
    IndexedBytes(a, programId, i);
    IndexedBytes(b, programId, j);
    HeadsDiffer(IndexedRequest(a, programId, i), IndexedRequest(b, programId, j), a, b, i, j);
  }

  lemma IndexedOnce(parameterId: Byte, programId: Byte, keys: seq<nat>, id: nat)
    requires id in keys && Ascending(keys) && forall i | i in keys :: i < 0x100
    ensures multiset(IndexedRequests(parameterId, programId, keys))[IndexedRequest(parameterId, programId, id)] == 1
  {
    var all := IndexedRequests(parameterId, programId, keys);
    forall i, j | 0 <= i < j < |all|
      ensures all[i] != all[j]
    {
      assert keys[i] in keys && keys[j] in keys;
      IndexedDistinct(parameterId, parameterId, programId, keys[i], keys[j]);
    }
    var i :| 0 <= i < |keys| && keys[i] == id;
    OnceIfNoDuplicates(all, i);
  }

  lemma IndexedNever(a: Byte, b: Byte, programId: Byte, keys: seq<nat>, id: nat)
    requires id < 0x100 && forall i | i in keys :: i < 0x100
    requires a != b || id !in keys
    ensures multiset(IndexedRequests(a, programId, keys))[IndexedRequest(b, programId, id)] == 0
  {
    var all := IndexedRequests(a, programId, keys);
    forall i | 0 <= i < |keys|
      ensures all[i] != IndexedRequest(b, programId, id)
    {
      assert keys[i] in keys;
      IndexedDistinct(a, b, programId, keys[i], id);
    }
    assert IndexedRequest(b, programId, id) !in all;
  }

  lemma IndexedCopies(a: Byte, b: Byte, programId: Byte, m: map<nat, Parameter>, id: nat)
    requires SmallIds(m) && id < 0x100
    ensures multiset(IndexedRequests(a, programId, SortedKeys(m.Keys)))[IndexedRequest(b, programId, id)] ==
            if a == b && id in m then 1 else 0
  {
    SortedKeysSpec(m.Keys);
    if a == b && id in m {
      IndexedOnce(a, programId, SortedKeys(m.Keys), id);
    } else {
      IndexedNever(a, b, programId, SortedKeys(m.Keys), id);
    }
  }

  lemma OwnIndexedCopies(c: SwClass, programId: Byte, parameterId: Byte, id: nat)
    requires SmallIndexes(c) && id < 0x100 && (parameterId == SENSOR || parameterId == OUTPUT)
    ensures multiset(Own(c, programId))[IndexedRequest(parameterId, programId, id)] ==
            if id in Indexed(c, parameterId) then 1 else 0
  {
    IndexedCopies(SENSOR, parameterId, programId, c.inputs, id);
    IndexedCopies(OUTPUT, parameterId, programId, c.outputs, id);
    var params := ParameterRequests(c, programId, SortedKeys(c.parameters.Keys));
    assert IndexedRequest(parameterId, programId, id) !in params;
  }

  ghost predicate Holds(classes: ClassTable, cl: SwClass, p: seq<nat>, parameterId: Byte, id: nat) {
    IsPath(classes, cl, p) && id in Indexed(End(classes, cl, p), parameterId)
  }

  ghost function Holding(classes: ClassTable, cl: SwClass, ps: seq<seq<nat>>, parameterId: Byte,
                         id: nat): set<seq<nat>> {
    set p | p in ps && Holds(classes, cl, p, parameterId, id)
  }

  lemma HoldingStep(classes: ClassTable, cl: SwClass, ps: seq<seq<nat>>, parameterId: Byte, id: nat)
    requires ps != [] && NoDuplicates(ps)
    ensures |Holding(classes, cl, ps, parameterId, id)| ==
            |Holding(classes, cl, ps[1..], parameterId, id)| +
              (if Holds(classes, cl, ps[0], parameterId, id) then 1 else 0)
  {
    var rest := Holding(classes, cl, ps[1..], parameterId, id);
    assert ps[0] !in ps[1..];
    if Holds(classes, cl, ps[0], parameterId, id) {
      assert Holding(classes, cl, ps, parameterId, id) == rest + {ps[0]};
    } else {
      assert Holding(classes, cl, ps, parameterId, id) == rest;
    }
  }

  lemma {:induction false} BatchIndexed(classes: ClassTable, cl: SwClass, ps: seq<seq<nat>>, programId: Byte,
                                        parameterId: Byte, id: nat)
    requires SmallIndexes(cl) && (forall k | k in classes.byType :: SmallIndexes(classes.byType[k])) && NoDuplicates(ps)
    requires id < 0x100 && (parameterId == SENSOR || parameterId == OUTPUT)
    ensures multiset(Batch(classes, cl, ps, programId))[IndexedRequest(parameterId, programId, id)] ==
            |Holding(classes, cl, ps, parameterId, id)|
  {
    if ps != [] {
      BatchIndexed(classes, cl, ps[1..], programId, parameterId, id);
      HoldingStep(classes, cl, ps, parameterId, id);
      if IsPath(classes, cl, ps[0]) {
        if ps[0] != [] {
          var k := EndKey(classes, cl, ps[0]);
        }
        OwnIndexedCopies(End(classes, cl, ps[0]), programId, parameterId, id);
      }
    }
  }

  /** The request for an input or output is polled once per inheritance path to a class that has an
      input or output of that id: classes are not told apart by it. */
  lemma IndexedPerPath(classes: ClassTable, cl: SwClass, programId: Byte, parameterId: Byte, id: nat)
    requires SmallIndexes(cl) && (forall k | k in classes.byType :: SmallIndexes(classes.byType[k])) &&
             NoCycleAbove(classes, cl)
    requires id < 0x100 && (parameterId == SENSOR || parameterId == OUTPUT)
    ensures multiset(Expand(classes, cl, programId))[IndexedRequest(parameterId, programId, id)] ==
            |Holding(classes, cl, Paths(classes, cl), parameterId, id)|
    ensures forall p :: p in Holding(classes, cl, Paths(classes, cl), parameterId, id) <==>
            Holds(classes, cl, p, parameterId, id)
  {
    PathsDistinct(classes, cl);
    BatchIndexed(classes, cl, Paths(classes, cl), programId, parameterId, id);
    AllPaths(classes, cl);
  }
}
