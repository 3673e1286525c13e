/** Two things that the loaders let through, each at an input. */
module Failures {
  import opened ClassLoader
  import opened Classes
  import opened Conventions
  import opened Inheritance
  import opened Requests
  import R = Routing
  import opened Wrappers

  /** A class description without outputs and parameters. */
  function Described(programType: Byte, name: string, parent: string, inputs: seq<Decl>): ClassDecl {
    ClassDecl(programType, name, [parent], Some(inputs), None, None)
  }

  lemma BuildDescribed(programType: Byte, name: string, parent: string, inputs: seq<Decl>)
    requires forall d | d in inputs :: !Throws(InputSection, d)
    ensures Build(Described(programType, name, parent, inputs), BUILTIN) ==
            Some(SwClass(programType, name, [parent], BUILTIN, TableOf(InputSection, inputs, 0), map[], map[]))
  {
  }

  // ----- a cycle -----

  /** The loader accepts a class that implements itself, and then the recursion of `AddRequests` does not end:
      there are inheritance paths of every length. */
  lemma LoadedCycle(programType: Byte, name: string, classes: ClassTable)
    requires classes.byType == LoadAll([Load(Described(programType, name, name, []), BUILTIN)])
    ensures programType in classes.byType && !NoCycleAbove(classes, classes.byType[programType])
    ensures forall n: nat :: !PathsBounded(classes, classes.byType[programType], n)
  {
    var l := Load(Described(programType, name, name, []), BUILTIN);
    BuildDescribed(programType, name, name, []);
    assert [l][..0] == [] && LoadAll([]) == map[];
    assert LoadAll([l]) == LoadStep(LoadAll([]), l);
    var cl := classes.byType[programType];
    assert Parent(classes, cl, 0) == Some(programType);
    AncestorsOfParent(classes, cl, 0);
    TerminatesIffNoCycle(classes, cl);
  }

  // ----- an inherited input -----

  /** The answer to the poll of an inherited input or output goes to the program's own one of the same id, if
      there is one, and else nowhere: never to the parameter that was polled. */
  lemma InheritedInput(classes: ClassTable, known: map<Byte, Byte>, programId: Byte, cl: SwClass, p: seq<nat>,
                       table: R.Table, id: nat, dlc: Byte, rest: Data)
    requires KeysAreTypes(classes.byType) && forall k | k in known :: known[k] in classes.byType
    requires programId in known && classes.byType[known[programId]] == cl && NoCycleAbove(classes, cl)
    requires R.Has(classes, cl, p, table, id) && p != [] && !table.Parameters? && id < 0x100
    ensures var frame := R.AnswerTo(R.RequestOf(End(classes, cl, p), table, programId, id), dlc, rest);
            R.Route(classes, known, frame) == R.Find(classes, known[programId], table, id, 3)
    ensures known[programId] != End(classes, cl, p).programType
  {
    var c := End(classes, cl, p);
    var request := R.RequestOf(c, table, programId, id);
    var frame := R.AnswerTo(request, dlc, rest);
    R.AnswerHeader(request, programId, dlc, rest);
    R.AnswerData(request, dlc, rest);
    IndexedBytes(if table.Inputs? then SENSOR else OUTPUT, programId, id);
    R.OwnPathOnly(classes, cl, p);
    RouteOwn(classes, known, frame, programId, table, id);
  }

  lemma RouteOwn(classes: ClassTable, known: map<Byte, Byte>, frame: CanFrame, programId: Byte, table: R.Table, id: nat)
    requires (forall k | k in known :: known[k] in classes.byType) && !table.Parameters?
    requires Header(frame.canId).programId == programId && programId in known
    requires frame.data[0] == PT_PROGRAM && frame.data[1] == (if table.Inputs? then SENSOR else OUTPUT)
    requires frame.data[2] == id % 0x100 && id < 0x100
    ensures R.Route(classes, known, frame) == R.Find(classes, known[programId], table, id, 3)
  {
  }

  const INPUT := Decl("Temperature", Some(1), "temperature", true, None)
  const PARENT := Described(2, "PARENT", "PROGRAM", [INPUT])
  const CHILD := Described(3, "CHILD", "PARENT", [])

  lemma LoadedFamily()
    ensures var classes := LoadAll([Load(PARENT, BUILTIN), Load(CHILD, BUILTIN)]);
            && classes.Keys == {2, 3} && classes[2].name == "PARENT" && 1 in classes[2].inputs
            && classes[2].parents == ["PROGRAM"] && classes[2].programType == 2
            && classes[3].name == "CHILD" && classes[3].inputs == map[] && classes[3].parents == ["PARENT"]
            && classes[3].programType == 3
  {
    var l, m := Load(PARENT, BUILTIN), Load(CHILD, BUILTIN);
    BuildDescribed(2, "PARENT", "PROGRAM", [INPUT]);
    BuildDescribed(3, "CHILD", "PARENT", []);
    assert [l, m][..1] == [l] && [l][..0] == [] && [INPUT][..0] == [];
    assert LoadAll([l]) == LoadStep(LoadAll([]), l);
    assert TableOf(InputSection, [INPUT], 0) == TableOf(InputSection, [], 0)[1 := Make(InputSection, INPUT, 0)];
  }

  lemma FamilyPaths(classes: ClassTable, child: SwClass, parent: SwClass)
    requires |child.parents| == 1 && Parent(classes, child, 0) == Some(2)
    requires 2 in classes.byType && classes.byType[2] == parent && |parent.parents| == 1 &&
             Parent(classes, parent, 0) == None
    ensures NoCycleAbove(classes, child) && Ancestors(classes, child) == {2}
  {
    forall p | IsPath(classes, parent, p)
      ensures p == []
    {
    }
    forall p | p != [] && IsPath(classes, child, p)
      ensures p == [0] && EndKey(classes, child, p) == 2
    {
      assert IsPath(classes, parent, p[1..]);
      assert p == [p[0]] + p[1..];
    }
    AncestorsOfParent(classes, child, 0);
  }

  lemma FamilyInherits(classes: ClassTable)
    requires classes.byType == LoadAll([Load(PARENT, BUILTIN), Load(CHILD, BUILTIN)])
    ensures classes.byType.Keys == {2, 3} && KeysAreTypes(classes.byType) && classes.byType[3].inputs == map[]
    ensures NoCycleAbove(classes, classes.byType[3]) && R.Has(classes, classes.byType[3], [0], R.Inputs, 1)
    ensures End(classes, classes.byType[3], [0]) == classes.byType[2]
  {
    LoadedFamily();
    LoadedKeysAreTypes([Load(PARENT, BUILTIN), Load(CHILD, BUILTIN)]);
    var child, parent := classes.byType[3], classes.byType[2];
    assert Parent(classes, child, 0) == Some(2);
    assert Parent(classes, parent, 0) == None;
    FamilyPaths(classes, child, parent);
    assert [0][1..] == [];
    assert IsPath(classes, child, [0]) && End(classes, child, [0]) == End(classes, parent, []) == parent;
  }

  /** It happens: with a loaded child and parent, program 5 of the child's class polls the parent's input and
      the answer is dropped. */
  lemma LostInput(classes: ClassTable, dlc: Byte, rest: Data)
    requires classes.byType == LoadAll([Load(PARENT, BUILTIN), Load(CHILD, BUILTIN)])
    ensures classes.byType.Keys == {2, 3} && NoCycleAbove(classes, classes.byType[3])
    ensures var request := R.RequestOf(classes.byType[2], R.Inputs, 5, 1);
            && request in Expand(classes, classes.byType[3], 5)
            && R.Route(classes, map[5 := 3], R.AnswerTo(request, dlc, rest)) == None
  {
    FamilyInherits(classes);
    var child := classes.byType[3];
    assert child == classes.byType[map[5 := 3][5]];
    InheritedInput(classes, map[5 := 3], 5, child, [0], R.Inputs, 1, dlc, rest);
    R.ParameterIsPolled(classes, child, 5, [0], R.Inputs, 1);
  }
}
