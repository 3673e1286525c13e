/** Frame and bit-field layouts of `src/smart_web_conventions.h`. Bit fields are allocated from the
    least significant bit up and integers are little-endian, as on the controllers this runs on. */
module Conventions {
  type Byte = b: int | 0 <= b < 0x100
  type Word = w: int | 0 <= w < 0x1_0000_0000
  type Bits2 = b: int | 0 <= b < 4
  type Bits3 = b: int | 0 <= b < 8
  type Bits5 = b: int | 0 <= b < 32

  /** The eight data bytes of a CAN frame. */
  type Data = d: seq<Byte> | |d| == 8 witness [0, 0, 0, 0, 0, 0, 0, 0]

  datatype CanFrame = CanFrame(canId: Word, dlc: Byte, data: Data)

  const ZERO_DATA: Data := [0, 0, 0, 0, 0, 0, 0, 0]

  // Program types
  const PT_PROGRAM: Byte := 1
  const PT_CONTROLLER: Byte := 11
  const PT_REMOTE_CONTROL: Byte := 22

  // Message formats and types
  const MF_FORMAT_0: Bits3 := 0
  const MT_MSG_REQUEST: Bits2 := 0
  const MT_MSG_RESPONSE: Bits2 := 2

  // Functions of PT_CONTROLLER
  const I_AM_HERE: Byte := 1
  const GET_CONTROLLER_TYPE: Byte := 8
  const GET_CHANNEL_NUMBER: Byte := 10
  const GET_OUTPUT_VALUE: Byte := 19

  // Functions of PT_REMOTE_CONTROL
  const GET_PARAMETER_VALUE: Byte := 1
  const SET_PARAMETER_VALUE: Byte := 2

  // Functions of PT_PROGRAM
  const I_AM_PROGRAM: Byte := 7

  // Parameters of PT_REMOTE_CONTROL and of PT_CONTROLLER
  const SENSOR: Byte := 1
  const OUTPUT: Byte := 2

  /** A sensor that has no value: -32766. */
  const SENSOR_UNDEFINED: int := -32766

  // ----- TCanHeader -----

  datatype CanHeader = CanHeader(
    programType: Byte, programId: Byte, functionId: Byte, messageFormat: Bits3, messageType: Bits2, unused: Bits3)

  function FlagByte(h: CanHeader): Byte {
    h.messageFormat + 8 * h.messageType + 32 * h.unused
  }

  function Raw(h: CanHeader): Word {
    h.programType + 0x100 * h.programId + 0x1_0000 * h.functionId + 0x100_0000 * FlagByte(h)
  }

  function Header(raw: Word): CanHeader {
    var upper := raw / 0x100;
    var top := upper / 0x100;
    var flags := top / 0x100;
    CanHeader(raw % 0x100, upper % 0x100, top % 0x100, flags % 8, flags / 8 % 4, flags / 32)
  }

  /** CAN_EFF_FLAG is bit 31, the top bit of `unused`. */
  predicate IsExtended(raw: Word) {
    raw >= 0x8000_0000
  }

  function Extended(raw: Word): Word {
    if IsExtended(raw) then raw else raw + 0x8000_0000
  }

  lemma FlagsRoundTrip(h: CanHeader)
    ensures FlagByte(h) % 8 == h.messageFormat && FlagByte(h) / 8 % 4 == h.messageType && FlagByte(h) / 32 == h.unused
  {
  }

  /** The raw word and the bit fields of a header are two views of the same 32 bits. */
  lemma HeaderOfRaw(h: CanHeader)
    ensures Header(Raw(h)) == h
  {
    FlagsRoundTrip(h);
    var top := h.functionId + 0x100 * FlagByte(h);
    var upper := h.programId + 0x100 * top;
    assert Raw(h) == h.programType + 0x100 * upper;
    assert Raw(h) / 0x100 == upper && upper / 0x100 == top && top / 0x100 == FlagByte(h);
  }

  lemma RawOfHeader(raw: Word)
    ensures Raw(Header(raw)) == raw
  {
    var upper := raw / 0x100;
    var top := upper / 0x100;
    var flags := top / 0x100;
    assert FlagByte(Header(raw)) == flags;
    assert raw == raw % 0x100 + 0x100 * upper && upper == upper % 0x100 + 0x100 * top &&
           top == top % 0x100 + 0x100 * flags;
  }

  /** Setting the extended-frame flag changes the unused bits only. */
  lemma HeaderOfExtended(h: CanHeader)
    ensures IsExtended(Extended(Raw(h)))
    ensures Header(Extended(Raw(h))) == h.(unused := if h.unused < 4 then h.unused + 4 else h.unused)
  {
    if h.unused < 4 {
      var h' := h.(unused := h.unused + 4);
      assert FlagByte(h) < 0x80;
      assert Raw(h') == Raw(h) + 0x8000_0000;
      HeaderOfRaw(h');
    } else {
      assert FlagByte(h) >= 0x80;
      HeaderOfRaw(h);
    }
  }

  /** Which byte of a word is which field, and which bits of the last byte. */
  lemma HeaderLayout(b0: Byte, b1: Byte, b2: Byte, b3: Byte)
    ensures var h := Header(b0 + 0x100 * b1 + 0x1_0000 * b2 + 0x100_0000 * b3);
            && h.programType == b0 && h.programId == b1 && h.functionId == b2
            && h.messageFormat + 8 * h.messageType + 32 * h.unused == b3
    ensures IsExtended(b0 + 0x100 * b1 + 0x1_0000 * b2 + 0x100_0000 * b3) <==> b3 >= 0x80
  {
    var top: int := b2 + 0x100 * b3;
    var upper: int := b1 + 0x100 * top;
    LowByte(b0, upper);
    LowByte(b1, top);
    LowByte(b2, b3);
    FlagBits(b3);
  }

  lemma LowByte(b: Byte, rest: nat)
    ensures (b + 0x100 * rest) % 0x100 == b && (b + 0x100 * rest) / 0x100 == rest
  {
  }

  lemma FlagBits(b: Byte)
    ensures b % 8 + 8 * (b / 8 % 4) + 32 * (b / 32) == b
  {
  }

  // ----- memcpy into the head of a buffer -----

  function Overlay(buf: Data, bytes: seq<Byte>): (r: Data)
    requires |bytes| <= 8
    ensures r[..|bytes|] == bytes && r[|bytes|..] == buf[|bytes|..]
  {
    bytes + buf[|bytes|..]
  }

  lemma OverlaySame(a: Data, b: Data, bytes: seq<Byte>)
    requires |bytes| <= 8 && forall k | |bytes| <= k < 8 :: a[k] == b[k]
    ensures Overlay(a, bytes) == Overlay(b, bytes)
  {
  }

  // ----- TParameterInfo: program type, parameter id, index and a zero byte -----

  function ParameterKey(programType: Byte, parameterId: Byte, index: Byte): Word {
    programType + 0x100 * parameterId + 0x1_0000 * index
  }

  /** `TParameterData::raw_info`: the first four data bytes as one word. */
  function RawInfo(data: Data): Word {
    var b0: int, b1: int, b2: int, b3: int := data[0], data[1], data[2], data[3];
    b0 + 0x100 * b1 + 0x1_0000 * b2 + 0x100_0000 * b3
  }

  /** A word read from a frame is the key of a triple exactly if its bytes are the triple and a zero. */
  lemma RawInfoIsKey(data: Data, programType: Byte, parameterId: Byte, index: Byte)
    ensures RawInfo(data) == ParameterKey(programType, parameterId, index) <==>
            data[0] == programType && data[1] == parameterId && data[2] == index && data[3] == 0
  {
    var b1: int, b2: int, b3: int := data[1], data[2], data[3];
    if RawInfo(data) == ParameterKey(programType, parameterId, index) {
      ByteSplit(data[0], b1 + 0x100 * (b2 + 0x100 * b3), programType, parameterId + 0x100 * index);
      ByteSplit(data[1], b2 + 0x100 * b3, parameterId, index);
      ByteSplit(data[2], b3, index, 0);
    }
  }

  lemma ByteSplit(a: Byte, x: int, b: Byte, y: int)
    requires a + 0x100 * x == b + 0x100 * y
    ensures a == b && x == y
  {
  }

  lemma KeyInjective(a: Byte, b: Byte, c: Byte, a': Byte, b': Byte, c': Byte)
    requires ParameterKey(a, b, c) == ParameterKey(a', b', c')
    ensures a == a' && b == b' && c == c'
  {
    ByteSplit(a, b + 0x100 * c, a', b' + 0x100 * c');
    ByteSplit(b, c, b', c');
  }

  // ----- TMappingPoint -----

  datatype MappingPoint = MappingPoint(hostId: Byte, channelId: Bits5, kind: Bits3)

  function MappingOf(lo: Byte, hi: Byte): MappingPoint {
    MappingPoint(lo, hi % 32, hi / 32)
  }

  function MappingBytes(p: MappingPoint): (r: seq<Byte>)
    ensures |r| == 2
  {
    [p.hostId, p.channelId + 32 * p.kind]
  }

  /** The host is the low byte, the channel the low five bits of the high byte. */
  lemma MappingLayout(lo: Byte, hi: Byte)
    ensures MappingOf(lo, hi).hostId == lo && MappingOf(lo, hi).channelId + 32 * MappingOf(lo, hi).kind == hi
  {
  }

  lemma MappingRoundTrip(lo: Byte, hi: Byte)
    ensures MappingBytes(MappingOf(lo, hi)) == [lo, hi]
  {
  }
}
