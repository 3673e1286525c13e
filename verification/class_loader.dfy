/** Loading of class descriptions, `src/config_parser.cpp`: display orders over the three sections, and
    which of several descriptions of one program type is kept. */
module ClassLoader {
  import opened Classes
  import opened Conventions
  import opened Wrappers

  /** One member of a section. `id` is absent if it is not a number, `codec` if the encoding is not
      supported. */
  datatype Decl = Decl(name: string, id: Option<nat>, kind: string, readOnly: bool, codec: Option<Codec>)

  datatype ClassDecl = ClassDecl(
    programType: Byte, name: string, implements: seq<string>,
    inputs: Option<seq<Decl>>, outputs: Option<seq<Decl>>, parameters: Option<seq<Decl>>)

  datatype Section = InputSection | OutputSection | ParameterSection

  /** A description that throws: in the section of parameters it is skipped, elsewhere the load fails. */
  predicate Throws(section: Section, d: Decl) {
    d.id.None? || (section.ParameterSection? && d.codec.None?)
  }

  function CodecOf(section: Section, d: Decl): Codec
    requires !Throws(section, d)
  {
    match section
    case InputSection => if d.kind == "onOff" then OnOffSensorCodec else SensorCodec
    case OutputSection => if d.kind == "PWM" then PwmCodec else OutputCodec
    case ParameterSection =>
      if d.kind == "temperature" && d.readOnly then SensorCodec
      else if d.kind == "onOff" then OnOffSensorCodec
      else d.codec.value
  }

  function Make(section: Section, d: Decl, orderBase: nat): Parameter
    requires !Throws(section, d)
  {
    var readOnly := if section.ParameterSection? then d.readOnly else true;
    Parameter(d.id.value, d.name, d.kind, readOnly, CodecOf(section, d), orderBase + d.id.value)
  }

  /** The table of a section: `std::map::insert` keeps the first of equal ids. */
  function TableOf(section: Section, ds: seq<Decl>, orderBase: nat): map<nat, Parameter> {
    if ds == [] then map[]
    else
      var m, d := TableOf(section, ds[..|ds| - 1], orderBase), ds[|ds| - 1];
      if Throws(section, d) || d.id.value in m then m else m[d.id.value := Make(section, d, orderBase)]
  }

  function MaxId(section: Section, ds: seq<Decl>): nat {
    if ds == [] then 0
    else
      var m, d := MaxId(section, ds[..|ds| - 1]), ds[|ds| - 1];
      if Throws(section, d) || d.id.value <= m then m else d.id.value
  }

  /** The table and the order base of the next section; none if the load throws. */
  datatype Loaded = Loaded(table: map<nat, Parameter>, next: nat)

  function LoadedSection(section: Section, data: Option<seq<Decl>>, orderBase: nat): Option<Loaded> {
    if data.None? then Some(Loaded(map[], orderBase))
    else if !section.ParameterSection? && exists d :: d in data.value && Throws(section, d) then None
    else Some(Loaded(TableOf(section, data.value, orderBase), orderBase + MaxId(section, data.value) + 1))
  }

  /** `LoadInputs`, `LoadOutputs` and `LoadParameters`, one loop each. */
  method LoadSection(section: Section, data: Option<seq<Decl>>, orderBase: nat) returns (r: Option<Loaded>)
    ensures r == LoadedSection(section, data, orderBase)
  {
    if data.None? {
      return Some(Loaded(map[], orderBase));
    }
    var ds := data.value;
    var table: map<nat, Parameter> := map[];
    var maxId := 0;
    for i := 0 to |ds|
      invariant section.ParameterSection? || forall d | d in ds[..i] :: !Throws(section, d)
      invariant table == TableOf(section, ds[..i], orderBase) && maxId == MaxId(section, ds[..i])
    {
      var d := ds[i];
      assert ds[..i + 1][..i] == ds[..i] && ds[..i + 1][i] == d;
      if Throws(section, d) {
        if !section.ParameterSection? {
          return None;
        }
      } else {
        var p := Make(section, d, orderBase);
        if p.id !in table {
          table := table[p.id := p];
        }
        if maxId < p.id {
          maxId := p.id;
        }
      }
    }
    assert ds[..|ds|] == ds;
    r := Some(Loaded(table, orderBase + maxId + 1));
  }

  function Build(data: ClassDecl, source: Source): Option<SwClass> {
    match LoadedSection(InputSection, data.inputs, 0)
    case None => None
    case Some(ins) =>
      match LoadedSection(OutputSection, data.outputs, ins.next)
      case None => None
      case Some(outs) =>
        match LoadedSection(ParameterSection, data.parameters, outs.next)
        case None => None
        case Some(params) =>
          Some(SwClass(data.programType, data.name, data.implements, source, ins.table, outs.table, params.table))
  }

  // ----- display orders -----

  lemma {:induction false} TableOrders(section: Section, ds: seq<Decl>, orderBase: nat)
    ensures forall id | id in TableOf(section, ds, orderBase) ::
              var p := TableOf(section, ds, orderBase)[id];
              p.id == id && p.order == orderBase + id && id <= MaxId(section, ds)
    ensures MaxId(section, ds) == 0 || MaxId(section, ds) in TableOf(section, ds, orderBase)
  {
    if ds != [] {
      TableOrders(section, ds[..|ds| - 1], orderBase);
    }
  }

  ghost predicate OrdersIn(m: map<nat, Parameter>, from: nat, to: nat) {
    forall id | id in m :: m[id].order == from + id && from + id < to
  }

  /** Where the next section begins: behind the largest id, if the section is there at all. */
  ghost predicate BeginsNext(data: Option<seq<Decl>>, m: map<nat, Parameter>, from: nat, to: nat) {
    if data.None? then to == from else exists largest: nat :: IsLargestId(largest, m) && to == from + largest + 1
  }

  ghost predicate IsLargestId(largest: nat, m: map<nat, Parameter>) {
    (largest == 0 || largest in m) && forall id | id in m :: id <= largest
  }

  lemma SectionOrders(section: Section, data: Option<seq<Decl>>, orderBase: nat)
    requires LoadedSection(section, data, orderBase).Some?
    ensures var l := LoadedSection(section, data, orderBase).value;
            orderBase <= l.next && OrdersIn(l.table, orderBase, l.next) && BeginsNext(data, l.table, orderBase, l.next)
  {
    if data.Some? {
      TableOrders(section, data.value, orderBase);
      assert IsLargestId(MaxId(section, data.value), TableOf(section, data.value, orderBase));
    }
  }

  /** The kept inputs, outputs and parameters of a class have pairwise distinct display orders: the
      three kinds take consecutive ranges, whatever ids repeat, are missing or are skipped. */
  lemma OrdersDistinct(data: ClassDecl, source: Source) returns (b1: nat, b2: nat, b3: nat)
    requires Build(data, source).Some?
    ensures var c := Build(data, source).value;
            && b1 <= b2 <= b3
            && OrdersIn(c.inputs, 0, b1) && OrdersIn(c.outputs, b1, b2) && OrdersIn(c.parameters, b2, b3)
            && BeginsNext(data.inputs, c.inputs, 0, b1) && BeginsNext(data.outputs, c.outputs, b1, b2)
            && BeginsNext(data.parameters, c.parameters, b2, b3)
  {
    SectionOrders(InputSection, data.inputs, 0);
    b1 := LoadedSection(InputSection, data.inputs, 0).value.next;
    SectionOrders(OutputSection, data.outputs, b1);
    b2 := LoadedSection(OutputSection, data.outputs, b1).value.next;
    SectionOrders(ParameterSection, data.parameters, b2);
    b3 := LoadedSection(ParameterSection, data.parameters, b2).value.next;
  }

  // ----- what is kept -----

  /** The description can be loaded: its id is a number and, of a parameter, its encoding is supported. */
  ghost predicate IsReadable(section: Section, d: Decl) {
    d.id.Some? && (section.ParameterSection? ==> d.codec.Some?)
  }

  /** The parameter is what the description says: inputs and outputs are read-only, and sensors, switches and outputs
      have codecs of their own. */
  ghost predicate IsFrom(section: Section, p: Parameter, d: Decl) {
    && d.id == Some(p.id) && p.name == d.name && p.kind == d.kind
    && (p.readOnly <==> section.ParameterSection? ==> d.readOnly)
    && match section
       case InputSection => p.codec == if d.kind == "onOff" then OnOffSensorCodec else SensorCodec
       case OutputSection => p.codec == if d.kind == "PWM" then PwmCodec else OutputCodec
       case ParameterSection =>
         if d.kind == "onOff" then p.codec == OnOffSensorCodec
         else if d.kind == "temperature" && d.readOnly then p.codec == SensorCodec
         else Some(p.codec) == d.codec
  }

  /** Under an id the first readable description with it is kept, as it says, ... */
  lemma {:induction false} FirstKept(section: Section, ds: seq<Decl>, orderBase: nat, i: nat)
    requires i < |ds| && IsReadable(section, ds[i])
    requires forall j | 0 <= j < i :: !IsReadable(section, ds[j]) || ds[j].id != ds[i].id
    ensures var m := TableOf(section, ds, orderBase);
            ds[i].id.value in m && IsFrom(section, m[ds[i].id.value], ds[i])
  {
    if i < |ds| - 1 {
      FirstKept(section, ds[..|ds| - 1], orderBase, i);
    } else {
      KeysFromDecls(section, ds[..|ds| - 1], orderBase);
    }
  }

  /** ... and under no other id anything. */
  lemma {:induction false} KeysFromDecls(section: Section, ds: seq<Decl>, orderBase: nat)
    ensures forall id | id in TableOf(section, ds, orderBase) ::
              exists d :: d in ds && IsReadable(section, d) && d.id.value == id
  {
    if ds != [] {
      KeysFromDecls(section, ds[..|ds| - 1], orderBase);
      forall id | id in TableOf(section, ds, orderBase)
        ensures exists d :: d in ds && IsReadable(section, d) && d.id.value == id
      {
        if id in TableOf(section, ds[..|ds| - 1], orderBase) {
          var d :| d in ds[..|ds| - 1] && IsReadable(section, d) && d.id.value == id;
          assert d in ds;
        } else {
          assert ds[|ds| - 1] in ds;
        }
      }
    }
  }

  ghost predicate HasUnreadable(section: Section, data: Option<seq<Decl>>) {
    data.Some? && exists d :: d in data.value && !IsReadable(section, d)
  }

  /** The descriptions of a section, if it is there. */
  function Members(data: Option<seq<Decl>>): seq<Decl> {
    if data.Some? then data.value else []
  }

  /** A class is loaded unless an input or an output of it cannot be read, and takes over the type, the name, the
      parents and the source, and its tables from the sections of that kind. */
  lemma BuildExact(data: ClassDecl, source: Source)
    ensures Build(data, source).None? <==>
              HasUnreadable(InputSection, data.inputs) || HasUnreadable(OutputSection, data.outputs)
    ensures Build(data, source).Some? ==>
              var c := Build(data, source).value;
              && c.programType == data.programType && c.name == data.name && c.parents == data.implements
              && c.source == source
              && (exists b1 :: c.inputs == TableOf(InputSection, Members(data.inputs), b1))
              && (exists b2 :: c.outputs == TableOf(OutputSection, Members(data.outputs), b2))
              && (exists b3 :: c.parameters == TableOf(ParameterSection, Members(data.parameters), b3))
  {
    var ins := LoadedSection(InputSection, data.inputs, 0);
    if ins.Some? {
      var outs := LoadedSection(OutputSection, data.outputs, ins.value.next);
      assert ins.value.table == TableOf(InputSection, Members(data.inputs), 0);
      if outs.Some? {
        assert outs.value.table == TableOf(OutputSection, Members(data.outputs), ins.value.next);
        var params := LoadedSection(ParameterSection, data.parameters, outs.value.next);
        assert params.value.table == TableOf(ParameterSection, Members(data.parameters), outs.value.next);
      }
    }
  }

  // ----- user over built-in -----

  datatype Load = Load(data: ClassDecl, source: Source)

  function LoadStep(classes: map<Byte, SwClass>, l: Load): map<Byte, SwClass> {
    var t := l.data.programType;
    if t in classes && (classes[t].source == l.source || classes[t].source == USER) then classes
    else
      match Build(l.data, l.source)
      case None => classes
      case Some(c) => classes[t := c]
  }

  function LoadAll(ls: seq<Load>): map<Byte, SwClass> {
    if ls == [] then map[] else LoadStep(LoadAll(ls[..|ls| - 1]), ls[|ls| - 1])
  }

  predicate Succeeds(l: Load, t: Byte, source: Source) {
    l.data.programType == t && l.source == source && Build(l.data, l.source).Some?
  }

  /** The class of the first load from the source that succeeds for the program type. */
  function FirstGood(ls: seq<Load>, t: Byte, source: Source): Option<SwClass> {
    if ls == [] then None
    else if Succeeds(ls[0], t, source) then Build(ls[0].data, source)
    else FirstGood(ls[1..], t, source)
  }

  lemma {:induction false} FirstGoodStep(ls: seq<Load>, l: Load, t: Byte, source: Source)
    ensures FirstGood(ls + [l], t, source) ==
            if FirstGood(ls, t, source).Some? then FirstGood(ls, t, source)
            else if Succeeds(l, t, source) then Build(l.data, source) else None
  {
    if ls == [] {
      assert (ls + [l])[1..] == [];
    } else {
      assert (ls + [l])[1..] == ls[1..] + [l];
      FirstGoodStep(ls[1..], l, t, source);
    }
  }

  /** Whatever the order of the sources, the class kept for a program type is the first USER one that
      loads if there is one, else the first BUILTIN one; a load that throws changes nothing. */
  lemma {:induction false} UserOverBuiltin(ls: seq<Load>, t: Byte)
    ensures var user, builtin := FirstGood(ls, t, USER), FirstGood(ls, t, BUILTIN);
            var kept := if user.Some? then user else builtin;
            (t in LoadAll(ls) <==> kept.Some?) && (t in LoadAll(ls) ==> LoadAll(ls)[t] == kept.value)
    ensures FirstGood(ls, t, USER).Some? ==> FirstGood(ls, t, USER).value.source == USER
    ensures FirstGood(ls, t, BUILTIN).Some? ==> FirstGood(ls, t, BUILTIN).value.source == BUILTIN
  {
    if ls != [] {
      var earlier, l := ls[..|ls| - 1], ls[|ls| - 1];
      UserOverBuiltin(earlier, t);
      assert ls == earlier + [l];
      FirstGoodStep(earlier, l, t, USER);
      FirstGoodStep(earlier, l, t, BUILTIN);
    }
  }

  /** Every loaded class is stored under its own program type. */
  lemma {:induction false} LoadedKeysAreTypes(ls: seq<Load>)
    ensures KeysAreTypes(LoadAll(ls))
  {
    if ls != [] {
      LoadedKeysAreTypes(ls[..|ls| - 1]);
    }
  }

  /** `TSmartWebToMqttConfig` while the class directories are read. `loads` is what was read so far. */
  class SmartWebToMqttConfig {
    var classes: map<Byte, SwClass>
    ghost var loads: seq<Load>

    ghost predicate Valid()
      reads this
    {
      classes == LoadAll(loads)
    }

    constructor ()
      ensures Valid() && loads == []
    {
      classes, loads := map[], [];
    }

    /** `LoadSmartWebClass`; the answer says whether it threw. */
    method LoadSmartWebClass(data: ClassDecl, source: Source) returns (threw: bool)
      requires Valid()
      modifies this
      ensures Valid() && loads == old(loads) + [Load(data, source)]
      ensures threw ==> classes == old(classes)
    {
      loads := loads + [Load(data, source)];
      assert loads[..|loads| - 1] == old(loads);
      if data.programType in classes {
        if classes[data.programType].source == source || classes[data.programType].source == USER {
          return false;
        }
      }
      var ins := LoadSection(InputSection, data.inputs, 0);
      if ins.None? {
        return true;
      }
      var outs := LoadSection(OutputSection, data.outputs, ins.value.next);
      if outs.None? {
        return true;
      }
      var params := LoadSection(ParameterSection, data.parameters, outs.value.next);
      var cl := SwClass(data.programType, data.name, data.implements, source,
                        ins.value.table, outs.value.table, params.value.table);
      classes := classes[data.programType := cl];
      threw := false;
    }
  }
}
