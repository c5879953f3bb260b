/** Length-prefixed fields: binary data and UTF-8 strings of at most 65,535 bytes behind two length
    bytes. */
module Fields {
  import opened Packets

  const FIELD_LIMIT: nat := 0xFFFF

  /** A parser gives a value and how many bytes it read, or an error; `Panics` is a failed unwrap. */
  datatype Outcome<+T> = Done(value: T, used: nat) | Broken(error: MqttError) | Panics

  function Prefix(data: seq<Byte>, n: nat): seq<Byte> { if n <= |data| then data[..n] else data }

  function Rest(data: seq<Byte>, n: nat): seq<Byte> { if n <= |data| then data[n..] else [] }

  function Be16(n: nat): seq<Byte> { [n / 256 % 256, n % 256] }

  function Be32(n: nat): seq<Byte> { Be16(n / 65536) + Be16(n % 65536) }

  function FromBe16(hi: Byte, lo: Byte): nat { 256 * hi + lo }

  predicate Continues(s: seq<Byte>, k: nat) { k < |s| && 0x80 <= s[k] <= 0xBF }

  /** Well-formed UTF-8 (section 4 of RFC 3629): no overlong forms, surrogates or values past U+10FFFF. */
  predicate ValidUtf8(s: seq<Byte>) {
    if s == [] then true
    else if s[0] < 0x80 then ValidUtf8(s[1..])
    else if 0xC2 <= s[0] <= 0xDF then Continues(s, 1) && ValidUtf8(s[2..])
    else if 0xE0 <= s[0] <= 0xEF then
      Continues(s, 1) && Continues(s, 2) && (s[0] == 0xE0 ==> s[1] >= 0xA0) && (s[0] == 0xED ==> s[1] <= 0x9F)
      && ValidUtf8(s[3..])
    else if 0xF0 <= s[0] <= 0xF4 then
      Continues(s, 1) && Continues(s, 2) && Continues(s, 3)
      && (s[0] == 0xF0 ==> s[1] >= 0x90) && (s[0] == 0xF4 ==> s[1] <= 0x8F) && ValidUtf8(s[4..])
    else false
  }

  /** The contents an `MqttString` can have. */
  predicate IsText(s: seq<Byte>) { |s| <= FIELD_LIMIT && ValidUtf8(s) }

  /** The contents an `MqttBinary` can have. */
  predicate IsBinary(s: seq<Byte>) { |s| <= FIELD_LIMIT }

  function Field(s: seq<Byte>): seq<Byte> { Be16(|s|) + s }

  function DecodeBinary(data: seq<Byte>): Outcome<seq<Byte>> {
    if |data| < 2 then Broken(MalformedPacket)
    else
      var len := FromBe16(data[0], data[1]);
      if |data| < 2 + len then Broken(MalformedPacket) else Done(data[2..2 + len], 2 + len)
  }

  function DecodeString(data: seq<Byte>): Outcome<seq<Byte>> {
    match DecodeBinary(data)
    case Done(s, n) => if ValidUtf8(s) then Done(s, n) else Broken(MalformedPacket)
    case other => other
  }

  lemma Be16RoundTrip(n: nat)
    requires n <= 0xFFFF
    ensures |Be16(n)| == 2 && FromBe16(Be16(n)[0], Be16(n)[1]) == n
  {
    assert n / 256 < 256;
  }

  lemma Be16Prints(hi: Byte, lo: Byte)
    ensures Be16(FromBe16(hi, lo)) == [hi, lo]
  {
    var n := FromBe16(hi, lo);
    assert n / 256 == hi && n % 256 == lo;
  }

  /** A field reads back, whatever follows it. */
  lemma BinaryRoundTrip(s: seq<Byte>, rest: seq<Byte>)
    requires IsBinary(s)
    ensures DecodeBinary(Field(s) + rest) == Done(s, |Field(s)|)
  {
    var data := Field(s) + rest;
    Be16RoundTrip(|s|);
    hide Be16, FromBe16;
    assert data[..2] == Be16(|s|);
    assert data[2..2 + |s|] == s;
  }

  lemma StringRoundTrip(s: seq<Byte>, rest: seq<Byte>)
    requires IsText(s)
    ensures DecodeString(Field(s) + rest) == Done(s, |Field(s)|)
  {
    BinaryRoundTrip(s, rest);
  }

  /** A field that is cut short is malformed. */
  lemma CutField(s: seq<Byte>, n: nat)
    requires IsBinary(s) && n < |Field(s)|
    ensures DecodeBinary(Field(s)[..n]) == Broken(MalformedPacket) == DecodeString(Field(s)[..n])
  {
    Be16RoundTrip(|s|);
    hide Be16, FromBe16;
    if n >= 2 { assert Field(s)[..n][0] == Be16(|s|)[0] && Field(s)[..n][1] == Be16(|s|)[1]; }
  }

  /** What was read is the printed field. */
  lemma BinaryPrints(data: seq<Byte>)
    requires DecodeBinary(data).Done?
    ensures var d := DecodeBinary(data);
      IsBinary(d.value) && d.used == |Field(d.value)| <= |data| && Field(d.value) == data[..d.used]
  {
    var d := DecodeBinary(data);
    Be16Prints(data[0], data[1]);
    hide Be16, FromBe16;
    assert |d.value| == FromBe16(data[0], data[1]);
    assert data[..d.used] == [data[0], data[1]] + d.value;
  }

  lemma StringPrints(data: seq<Byte>)
    requires DecodeString(data).Done?
    ensures var d := DecodeString(data);
      IsText(d.value) && d.used == |Field(d.value)| <= |data| && Field(d.value) == data[..d.used]
  {
    BinaryPrints(data);
  }

  lemma StringSplits(data: seq<Byte>)
    requires DecodeString(data).Done?
    ensures var d := DecodeString(data);
      data == Field(d.value) + Rest(data, d.used) && |Field(d.value)| == d.used
  {
    hide DecodeString, Field;
    StringPrints(data);
  }

  /** The bytes of a printed field: its length, high byte first, and its contents. */
  lemma FieldLayout(s: seq<Byte>)
    requires |s| <= 65535
    ensures var f := Field(s);
      |f| == 2 + |s| && f[0] == |s| / 256 && f[1] == |s| % 256 && f[2..] == s
  {
  }
}
