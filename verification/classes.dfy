/** The class descriptions of `src/SmartWebToMqttGateway.h`. */
module Classes {
  import opened Conventions

  datatype Codec =
    | IntCodec(width: nat, signed: bool, div: nat)
    | EnumCodec(values: map<Byte, string>)
    | SensorCodec
    | OnOffSensorCodec
    | PwmCodec
    | OutputCodec

  datatype Parameter = Parameter(id: nat, name: string, kind: string, readOnly: bool, codec: Codec, order: nat)

  datatype Source = BUILTIN | USER

  datatype SwClass = SwClass(
    programType: Byte, name: string, parents: seq<string>, source: Source,
    inputs: map<nat, Parameter>, outputs: map<nat, Parameter>, parameters: map<nat, Parameter>)

  /** A hash table of classes by program type: what it holds and the order in which it is visited. */
  datatype HashTable = HashTable(byType: map<Byte, SwClass>, order: seq<Byte>)

  type ClassTable = t: HashTable | forall k :: k in t.order <==> k in t.byType witness HashTable(map[], [])

  ghost predicate KeysAreTypes(classes: map<Byte, SwClass>) {
    forall k | k in classes :: classes[k].programType == k
  }
}
