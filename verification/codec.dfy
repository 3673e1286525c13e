/** The codecs between payload bytes and MQTT text: `TIntCodec` with divisor 1 of
    `src/SmartWebToMqttGateway.h`, `TEnumCodec` and `MakeSetParameterValueRequest` of
    `src/SmartWebToMqttGateway.cpp`. */
module Codecs {
  import opened Conventions
  import opened Wrappers

  // ----- integers as bytes -----

  ghost function Pow256(w: nat): nat {
    if w == 0 then 1 else 0x100 * Pow256(w - 1)
  }

  /** The values of an integer type of `w` bytes. */
  ghost predicate Representable(v: int, w: nat, signed: bool) {
    if signed then 0 - Pow256(w) <= 2 * v < Pow256(w) else 0 <= v < Pow256(w)
  }

  function LittleEndian(v: int, w: nat): (r: seq<Byte>)
    ensures |r| == w
    decreases w
  {
    if w == 0 then [] else [v % 0x100] + LittleEndian(v / 0x100, w - 1)
  }

  /** The shift loop of `Encode`. The shift of a negative value is arithmetic, like Dafny's division. */
  method EncodeInt(value: int, w: nat) returns (res: seq<Byte>)
    ensures res == LittleEndian(value, w)
  {
    var v := value;
    res := [];
    for i := 0 to w
      invariant res + LittleEndian(v, w - i) == LittleEndian(value, w)
    {
      res := res + [v % 0x100];
      v := v / 0x100;
    }
  }

  function Unsigned(bytes: seq<Byte>): nat {
    if bytes == [] then 0 else bytes[0] + 0x100 * Unsigned(bytes[1..])
  }

  ghost function DecodeInt(bytes: seq<Byte>, signed: bool): int
    requires bytes != []
  {
    if signed && bytes[|bytes| - 1] >= 0x80 then Unsigned(bytes) - Pow256(|bytes|) else Unsigned(bytes)
  }

  /** What is left of `v` after `w` shifts. */
  ghost function Shifted(v: int, w: nat): int
    decreases w
  {
    if w == 0 then v else Shifted(v / 0x100, w - 1)
  }

  lemma {:induction false} UnsignedBound(bytes: seq<Byte>)
    ensures Unsigned(bytes) < Pow256(|bytes|)
  {
    if bytes != [] {
      UnsignedBound(bytes[1..]);
    }
  }

  lemma {:induction false} TopByte(bytes: seq<Byte>)
    requires bytes != []
    ensures bytes[|bytes| - 1] >= 0x80 <==> 2 * Unsigned(bytes) >= Pow256(|bytes|)
  {
    if |bytes| > 1 {
      TopByte(bytes[1..]);
      assert bytes[1..][|bytes| - 2] == bytes[|bytes| - 1];
      HalfIsMultiple(|bytes| - 1);
    } else {
      assert bytes[1..] == [];
      assert Pow256(1) == 0x100 * Pow256(0);
    }
  }

  lemma HalfIsMultiple(w: nat)
    requires w > 0
    ensures Pow256(w) == 2 * (0x80 * Pow256(w - 1))
  {
  }

  lemma {:induction false} BytesAndRest(v: int, w: nat)
    ensures v == Unsigned(LittleEndian(v, w)) + Pow256(w) * Shifted(v, w)
    decreases w
  {
    if w > 0 {
      var bytes := LittleEndian(v / 0x100, w - 1);
      BytesAndRest(v / 0x100, w - 1);
      assert LittleEndian(v, w)[1..] == bytes;
      assert v == v % 0x100 + 0x100 * (v / 0x100);
      MulAssoc(Pow256(w - 1), Shifted(v, w));
    }
  }

  lemma MulAssoc(p: nat, s: int)
    ensures 0x100 * (p * s) == (0x100 * p) * s
  {
  }

  lemma MultipleInRange(p: int, s: int, v: int)
    requires v == p * s && p > 0
    ensures -p < v < p ==> s == 0
  {
    if s >= 1 {
      MulMonotone(p, 1, s);
    } else if s <= -1 {
      MulMonotone(p, s, -1);
    }
  }

  lemma MulMonotone(p: int, a: int, b: int)
    requires p >= 0 && a <= b
    ensures p * a <= p * b
  {
  }

  lemma {:induction false} PowPositive(w: nat)
    ensures Pow256(w) > 0
  {
    if w > 0 {
      PowPositive(w - 1);
    }
  }

  /** For every byte width the loop writes the two's-complement bytes that decode to the value ... */
  lemma DecodeEncodeInt(v: int, w: nat, signed: bool)
    requires w > 0 && Representable(v, w, signed)
    ensures DecodeInt(LittleEndian(v, w), signed) == v
  {
    var bytes := LittleEndian(v, w);
    PowPositive(w);
    BytesAndRest(v, w);
    UnsignedBound(bytes);
    TopByte(bytes);
    MultipleInRange(Pow256(w), Shifted(v, w), v - Unsigned(bytes));
    if v >= 0 {
      assert Shifted(v, w) == 0;
    } else {
      SignedRest(v, w);
    }
  }

  lemma SignedRest(v: int, w: nat)
    requires 0 - Pow256(w) <= v < 0
    ensures Unsigned(LittleEndian(v, w)) == v + Pow256(w)
  {
    var p, s, u := Pow256(w), Shifted(v, w), Unsigned(LittleEndian(v, w));
    BytesAndRest(v, w);
    UnsignedBound(LittleEndian(v, w));
    if s >= 0 {
      MulMonotone(p, 0, s);
    } else if s <= -2 {
      MulMonotone(p, s, -2);
    }
  }

  /** ... and every byte string is what its decoded value encodes to. */
  lemma {:induction false} EncodeDecodeInt(bytes: seq<Byte>, signed: bool)
    requires bytes != []
    ensures Representable(DecodeInt(bytes, signed), |bytes|, signed)
    ensures LittleEndian(DecodeInt(bytes, signed), |bytes|) == bytes
  {
    var w, v := |bytes|, DecodeInt(bytes, signed);
    UnsignedBound(bytes);
    TopByte(bytes);
    PowPositive(w);
    if v < 0 {
      SignedRest(v, w);
    } else {
      BytesAndRest(v, w);
      UnsignedBound(LittleEndian(v, w));
      MultipleInRange(Pow256(w), Shifted(v, w), v - Unsigned(LittleEndian(v, w)));
    }
    SameBytes(LittleEndian(v, w), bytes);
  }

  lemma {:induction false} SameBytes(a: seq<Byte>, b: seq<Byte>)
    requires |a| == |b| && Unsigned(a) == Unsigned(b)
    ensures a == b
  {
    if a != [] {
      ByteSplit(a[0], Unsigned(a[1..]), b[0], Unsigned(b[1..]));
      SameBytes(a[1..], b[1..]);
      assert a == [a[0]] + a[1..] && b == [b[0]] + b[1..];
    }
  }

  // ----- integers as decimal text -----

  predicate IsDigit(c: char) {
    '0' <= c <= '9'
  }

  function Digit(n: nat): char
    requires n < 10
  {
    '0' + n as char
  }

  function Digits(n: nat): string {
    if n < 10 then [Digit(n)] else Digits(n / 10) + [Digit(n % 10)]
  }

  /** `std::to_string`. */
  function ToText(v: int): string {
    if v < 0 then "-" + Digits(-v) else Digits(v)
  }

  ghost predicate AreDigits(s: string) {
    s != [] && AllDigits(s)
  }

  function ParseDigits(s: string): nat
    requires AllDigits(s)
  {
    if s == [] then 0
    else
      assert s[|s| - 1] in s && IsDigit(s[|s| - 1]);
      10 * ParseDigits(s[..|s| - 1]) + (s[|s| - 1] as int - '0' as int)
  }

  /** The texts on which `std::stod` is modelled: an optional minus sign and digits. What `ParseInt` gives is the
      number the text stands for; a double is that number if it is `ExactInDouble`. */
  ghost predicate IsIntegerText(s: string) {
    AreDigits(s) || (s != [] && s[0] == '-' && AreDigits(s[1..]))
  }

  ghost function ParseInt(s: string): int
    requires IsIntegerText(s)
  {
    if AreDigits(s) then ParseDigits(s) else 0 - ParseDigits(s[1..])
  }

  ghost predicate ExactInDouble(v: int) {
    -0x20_0000_0000_0000 <= v <= 0x20_0000_0000_0000
  }

  /** No superfluous zeros in front, and a minus sign only before a number that is not zero. */
  predicate IsCanonical(s: string) {
    || s == "0"
    || (s != [] && s[0] != '0' && s[0] != '-' && AllDigits(s))
    || (|s| > 1 && s[0] == '-' && s[1] != '0' && AllDigits(s[1..]))
  }

  predicate AllDigits(s: string) {
    forall c | c in s :: IsDigit(c)
  }

  lemma {:induction false} ParseOfDigits(n: nat)
    ensures AreDigits(Digits(n)) && ParseDigits(Digits(n)) == n
  {
    if n < 10 {
      assert Digits(n)[..0] == [];
    } else {
      ParseOfDigits(n / 10);
      assert Digits(n)[..|Digits(n)| - 1] == Digits(n / 10);
    }
  }

  lemma ParseOfText(v: int)
    ensures IsIntegerText(ToText(v)) && ParseInt(ToText(v)) == v
  {
    if v < 0 {
      ParseOfDigits(-v);
      assert ToText(v)[1..] == Digits(-v) && '-' in ToText(v);
    } else {
      ParseOfDigits(v);
    }
  }

  lemma {:induction false} NoLeadingZero(n: nat)
    ensures Digits(n)[0] == '0' <==> n == 0
    ensures n == 0 ==> Digits(n) == "0"
  {
    if n >= 10 {
      NoLeadingZero(n / 10);
      assert Digits(n)[0] == Digits(n / 10)[0];
    }
  }

  lemma {:induction false} ParsePositive(s: string)
    requires AreDigits(s) && s[0] != '0'
    ensures ParseDigits(s) > 0
  {
    var front, last := s[..|s| - 1], s[|s| - 1];
    assert last in s && IsDigit(last);
    if front != [] {
      assert front[0] == s[0];
      ParsePositive(front);
    } else {
      assert s[0] == last;
    }
    assert ParseDigits(s) == 10 * ParseDigits(front) + (last as int - '0' as int);
  }

  lemma {:induction false} DigitsOfParse(s: string)
    requires AreDigits(s) && (|s| == 1 || s[0] != '0')
    ensures Digits(ParseDigits(s)) == s
  {
    var front, last := s[..|s| - 1], s[|s| - 1];
    assert last in s && IsDigit(last);
    var d := last as int - '0' as int;
    assert Digit(d) == last && s == front + [last];
    if front != [] {
      assert front[0] == s[0];
      ParsePositive(front);
      DigitsOfParse(front);
      assert ParseDigits(s) / 10 == ParseDigits(front) && ParseDigits(s) % 10 == d;
    }
  }

  /** The canonical texts are those that `std::to_string` writes. */
  lemma CanonicalIsToText(s: string)
    requires IsIntegerText(s)
    ensures IsCanonical(s) <==> s == ToText(ParseInt(s))
  {
    if AreDigits(s) {
      var n := ParseDigits(s);
      assert s[0] in s && IsDigit(s[0]);
      NoLeadingZero(n);
      if IsCanonical(s) {
        DigitsOfParse(s);
      }
    } else {
      var digits := s[1..];
      assert '-' in s;
      NoLeadingZero(ParseDigits(digits));
      if IsCanonical(s) {
        ParsePositive(digits);
        DigitsOfParse(digits);
      }
      assert ToText(ParseInt(s)) == s ==> ParseDigits(digits) > 0 && digits == Digits(ParseDigits(digits));
    }
  }

  /** Texts that name a number but do not come back. */
  lemma NotCanonical()
    ensures IsIntegerText("007") && ParseInt("007") == 7 && !IsCanonical("007")
    ensures IsIntegerText("-0") && ParseInt("-0") == 0 && !IsCanonical("-0")
  {
    assert "007"[..2] == "00" && "00"[..1] == "0" && "0"[..0] == "" && "-0"[1..] == "0";
    assert '-' in "-0";
  }

  // ----- the parameter set request -----

  function SetHeader(programId: Byte): CanHeader {
    CanHeader(PT_REMOTE_CONTROL, programId, SET_PARAMETER_VALUE, MF_FORMAT_0, MT_MSG_REQUEST, 0)
  }

  /** `MakeSetParameterValueRequest` once the codec has encoded the value. */
  function SetRequest(programType: Byte, id: nat, programId: Byte, bytes: seq<Byte>): CanFrame
    requires |bytes| <= 6
  {
    CanFrame(Extended(Raw(SetHeader(programId))), |bytes| + 2, Overlay(ZERO_DATA, [programType, id % 0x100] + bytes))
  }

  lemma SetRequestPayload(programType: Byte, id: nat, programId: Byte, bytes: seq<Byte>)
    requires |bytes| <= 6
    ensures var f := SetRequest(programType, id, programId, bytes);
            f.data[0] == programType && f.data[1] == id % 0x100 && f.data[2..2 + |bytes|] == bytes
  {
    var f := SetRequest(programType, id, programId, bytes);
    var head := [programType, id % 0x100] + bytes;
    assert f.data[..|head|] == head;
    assert f.data[0] == f.data[..|head|][0] && f.data[1] == f.data[..|head|][1];
    assert f.data[2..2 + |bytes|] == f.data[..|head|][2..];
  }

  lemma SmallIsExact(v: int, w: nat, signed: bool)
    requires w <= 6 && Representable(v, w, signed)
    ensures ExactInDouble(v)
  {
    PowAtMost(w);
  }

  lemma {:induction false} PowAtMost(w: nat)
    requires w <= 6
    ensures Pow256(w) <= 0x1_0000_0000_0000
  {
    assert Pow256(0) == 1 && Pow256(1) == 0x100 && Pow256(2) == 0x1_0000 && Pow256(3) == 0x100_0000;
    assert Pow256(4) == 0x100 * Pow256(3) && Pow256(5) == 0x100 * Pow256(4) && Pow256(6) == 0x100 * Pow256(5);
  }

  /** A value set from MQTT: the request is a REQUEST to that program for that parameter, and whoever
      reads the payload where answers are read, behind the parameter id, gets the same number; a text
      in canonical form comes back unchanged. */
  lemma SetValueRoundTrip(programType: Byte, id: nat, programId: Byte, text: string, w: nat, signed: bool)
    requires 0 < w <= 6 && IsIntegerText(text) && Representable(ParseInt(text), w, signed)
    ensures var f := SetRequest(programType, id, programId, LittleEndian(ParseInt(text), w));
            && IsExtended(f.canId)
            && Header(f.canId).programType == PT_REMOTE_CONTROL && Header(f.canId).programId == programId
            && Header(f.canId).functionId == SET_PARAMETER_VALUE && Header(f.canId).messageFormat == MF_FORMAT_0
            && Header(f.canId).messageType == MT_MSG_REQUEST
            && f.dlc == w + 2 && f.data[0] == programType && f.data[1] == id % 0x100
            && ExactInDouble(ParseInt(text))
            && ParseInt(text) == DecodeInt(f.data[2..2 + w], signed)
            && (ToText(DecodeInt(f.data[2..2 + w], signed)) == text <==> IsCanonical(text))
  {
    HeaderOfExtended(SetHeader(programId));
    SetRequestPayload(programType, id, programId, LittleEndian(ParseInt(text), w));
    SmallIsExact(ParseInt(text), w, signed);
    CanonicalIsToText(text);
    DecodeEncodeInt(ParseInt(text), w, signed);
  }

  /** Decoding a payload to text and setting that text again sends the same payload. */
  lemma TextRoundTrip(bytes: seq<Byte>, signed: bool)
    requires bytes != []
    ensures IsIntegerText(ToText(DecodeInt(bytes, signed))) && IsCanonical(ToText(DecodeInt(bytes, signed)))
    ensures LittleEndian(ParseInt(ToText(DecodeInt(bytes, signed))), |bytes|) == bytes
    ensures |bytes| <= 6 ==> ExactInDouble(DecodeInt(bytes, signed))
  {
    var v := DecodeInt(bytes, signed);
    ParseOfText(v);
    CanonicalIsToText(ToText(v));
    EncodeDecodeInt(bytes, signed);
    if |bytes| <= 6 {
      SmallIsExact(v, |bytes|, signed);
    }
  }

  // ----- enumerations -----

  function DecodeEnum(values: map<Byte, string>, b: Byte): string {
    if b in values then values[b] else ToText(b)
  }

  /** `b` is the smallest byte with its name. */
  ghost predicate IsLeast(values: map<Byte, string>, b: Byte) {
    b in values && forall a: Byte | a in values && values[a] == values[b] :: b <= a
  }

  /** The reverse table: what the constructor of `TEnumCodec` has to build. */
  ghost predicate IsReverse(values: map<Byte, string>, keys: map<string, Byte>) {
    && (forall b | b in values :: values[b] in keys)
    && (forall name | name in keys :: IsLeast(values, keys[name]) && values[keys[name]] == name)
  }

  /** The constructor of `TEnumCodec`, in ascending order of the bytes: inserting does not replace, so
      the first of equal names stays. */
  method BuildKeys(values: map<Byte, string>) returns (keys: map<string, Byte>)
    ensures IsReverse(values, keys)
  {
    keys := map[];
    for n := 0 to 0x100
      invariant forall b | b in values && b < n :: values[b] in keys
      invariant forall name | name in keys ::
                  IsLeast(values, keys[name]) && values[keys[name]] == name && keys[name] < n
    {
      var b: Byte := n;
      if b in values && values[b] !in keys {
        keys := keys[values[b] := b];
      }
    }
  }

  function EncodeEnum(keys: map<string, Byte>, text: string): Option<seq<Byte>> {
    if text in keys then Some([keys[text]]) else None
  }

  /** A byte survives decoding and encoding exactly if it has a name that no smaller byte has; a text
      that can be encoded always comes back. */
  lemma EnumRoundTrip(values: map<Byte, string>, keys: map<string, Byte>, b: Byte, text: string)
    requires IsReverse(values, keys)
    ensures EncodeEnum(keys, DecodeEnum(values, b)) == Some([b]) <==> IsLeast(values, b)
    ensures EncodeEnum(keys, text).Some? ==> DecodeEnum(values, EncodeEnum(keys, text).value[0]) == text
    ensures EncodeEnum(keys, text).Some? <==> exists a :: a in values && values[a] == text
    ensures if b in values then DecodeEnum(values, b) == values[b]
            else IsIntegerText(DecodeEnum(values, b)) && ParseInt(DecodeEnum(values, b)) == b
  {
    ParseOfText(b);
    if IsLeast(values, b) {
      assert values[b] in keys;
    }
  }
}
