/** Variable byte integers (section 1.5.5 of MQTT 5.0): seven bits a byte, least significant first, the
    high bit says that another byte follows. */
module Vbi {
  import opened Packets

  function Encode(n: nat): seq<Byte>
    decreases n
  {
    if n < 128 then [n] else [n % 128 + 128] + Encode(n / 128)
  }

  /** The number the low seven bits of a field spell. */
  function Value(s: seq<Byte>): nat {
    if s == [] then 0 else s[0] % 128 + 128 * Value(s[1..])
  }

  /** How many bytes at the start say that another byte follows. */
  function Lead(s: seq<Byte>): (n: nat)
    ensures n <= |s|
  {
    if s == [] || s[0] < 128 then 0 else 1 + Lead(s[1..])
  }

  datatype Decoded = Ok(value: nat, used: nat) | Incomplete | Malformed

  /** What a field of at most `limit` bytes at the start of `s` says. */
  function Decode(s: seq<Byte>, limit: nat): Decoded {
    if Lead(s) >= limit then Malformed
    else if Lead(s) == |s| then Incomplete
    else Ok(Value(s[..Lead(s) + 1]), Lead(s) + 1)
  }

  function Pow128(k: nat): nat { if k == 0 then 1 else 128 * Pow128(k - 1) }

  // ---------------------------------------------------------------- encoding and decoding are inverse

  lemma {:induction false} LeadBounds(s: seq<Byte>)
    ensures forall k :: 0 <= k < Lead(s) ==> s[k] >= 128
    ensures Lead(s) < |s| ==> s[Lead(s)] < 128
  {
    if s != [] && s[0] >= 128 { LeadBounds(s[1..]); }
  }

  lemma {:induction false} LeadIs(s: seq<Byte>, n: nat)
    requires n <= |s| && (forall k :: 0 <= k < n ==> s[k] >= 128) && (n < |s| ==> s[n] < 128)
    ensures Lead(s) == n
  {
    if n > 0 { LeadIs(s[1..], n - 1); }
  }

  lemma {:induction false} ValueBound(s: seq<Byte>)
    ensures Value(s) < Pow128(|s|)
  {
    if s != [] { ValueBound(s[1..]); }
  }

  lemma {:induction false} ValueAppend(s: seq<Byte>, b: Byte)
    ensures Value(s + [b]) == Value(s) + Pow128(|s|) * (b % 128)
  {
    if s == [] {
      assert s + [b] == [b];
    } else {
      assert (s + [b])[1..] == s[1..] + [b];
      ValueAppend(s[1..], b);
      var p, x := Pow128(|s| - 1), b % 128;
      assert 128 * (p * x) == (128 * p) * x;
    }
  }

  /** An encoding is one field, and the field spells the number. */
  lemma {:induction false} EncodeMeans(n: nat)
    ensures Encode(n) != [] && Lead(Encode(n)) == |Encode(n)| - 1 && Value(Encode(n)) == n
    decreases n
  {
    if n >= 128 {
      EncodeMeans(n / 128);
      assert Encode(n)[1..] == Encode(n / 128);
    }
  }

  lemma EncodeSize(n: nat)
    requires n <= MAX_REMAINING
    ensures |Encode(n)| == VbiSize(n)
  {
    assert n < 128 ==> |Encode(n)| == 1;
    assert n / 128 < 128 ==> |Encode(n / 128)| == 1;
    assert n / 128 / 128 < 128 ==> |Encode(n / 128 / 128)| == 1;
    assert n / 128 / 128 / 128 < 128 && |Encode(n / 128 / 128 / 128)| == 1;
  }

  /** Decoding what was encoded gives the number and stops exactly at its end, whatever follows. */
  lemma RoundTrip(n: nat, rest: seq<Byte>, limit: nat)
    requires |Encode(n)| <= limit
    ensures Decode(Encode(n) + rest, limit) == Ok(n, |Encode(n)|)
  {
    EncodeMeans(n);
    LeadBounds(Encode(n));
    var s := Encode(n) + rest;
    LeadIs(s, |Encode(n)| - 1);
    assert s[..|Encode(n)|] == Encode(n);
  }

  /** A field decodes to a number that encodes into no more bytes than were read. */
  lemma {:induction false} ShortestForm(s: seq<Byte>)
    requires s != []
    ensures |Encode(Value(s))| <= |s|
  {
    if Value(s) >= 128 {
      assert Value(s) / 128 == Value(s[1..]);
      ShortestForm(s[1..]);
    }
  }

  lemma PowTable()
    ensures Pow128(1) == 128 && Pow128(2) == 16384 && Pow128(3) == 2097152 && Pow128(4) == 268435456
  {
    assert Pow128(1) == 128 * Pow128(0);
    assert Pow128(2) == 128 * Pow128(1);
    assert Pow128(3) == 128 * Pow128(2);
  }

  // ---------------------------------------------------------------- the loops

  /** `from_u32` */
  method FromU32(value: nat) returns (r: Option<seq<Byte>>)
    ensures r == if value <= MAX_REMAINING then Some(Encode(value)) else None
  {
    if value > MAX_REMAINING { return None; }
    var rest := value;
    var buf: seq<Byte> := [];
    var more := true;
    while more
      invariant more ==> buf + Encode(rest) == Encode(value)
      invariant !more ==> buf == Encode(value)
      decreases more, rest
    {
      var byte: Byte := rest % 128;
      ghost var was := rest;
      rest := rest / 128;
      if rest > 0 { byte := byte + 0x80; }
      assert Encode(was) == [byte] + if rest > 0 then Encode(rest) else [];
      assert buf + Encode(was) == (buf + [byte]) + if rest > 0 then Encode(rest) else [];
      buf := buf + [byte];
      more := rest != 0;
    }
    return Some(buf);
  }

  /** `to_u32`: the multiplier saturates only after the last of at most four bytes. */
  method ToU32(encoded: seq<Byte>) returns (result: nat)
    requires |encoded| <= 4
    ensures result == Value(encoded) <= MAX_REMAINING
  {
    var multiplier: nat := 1;
    result := 0;
    for i := 0 to |encoded|
      invariant result == Value(encoded[..i]) && multiplier == Pow128(i)
    {
      ValueAppend(encoded[..i], encoded[i]);
      assert encoded[..i] + [encoded[i]] == encoded[..i + 1];
      result := result + encoded[i] % 128 * multiplier;
      multiplier := SaturatingMul(multiplier, 128);
      PowTable();
    }
    assert encoded[..|encoded|] == encoded;
    PowTable();
    ValueBound(encoded);
  }

  const U32_MAX: nat := 0xFFFF_FFFF

  function SaturatingMul(a: nat, b: nat): nat { if a * b > U32_MAX then U32_MAX else a * b }

  function SaturatingAdd(a: nat, b: nat): nat { if a + b > U32_MAX then U32_MAX else a + b }

  function CheckedMul(a: nat, b: nat): nat { if a * b > U32_MAX then 0 else a * b }

  lemma DecodeStep(buf: seq<Byte>, i: nat)
    requires i < |buf| && i < 4 && forall k :: 0 <= k < i ==> buf[k] >= 128
    ensures Value(buf[..i + 1]) == Value(buf[..i]) + buf[i] % 128 * Pow128(i) <= MAX_REMAINING
    ensures buf[i] < 128 ==> Decode(buf, 4) == Ok(Value(buf[..i + 1]), i + 1)
  {
    assert buf[..i] + [buf[i]] == buf[..i + 1];
    ValueAppend(buf[..i], buf[i]);
    ValueBound(buf[..i + 1]);
    PowTable();
    if buf[i] < 128 { LeadIs(buf, i); }
  }

  lemma DecodeEnd(buf: seq<Byte>)
    requires forall k :: 0 <= k < |buf| && k < 4 ==> buf[k] >= 128
    ensures Decode(buf, 4) == if |buf| < 4 then Incomplete else Malformed
  {
    LeadBounds(buf);
  }

  /** `decode_stream`: no intermediate value overflows, and the "too large" and "encoding failure" exits
      are never taken. */
  method DecodeStream(buf: seq<Byte>) returns (r: Decoded)
    ensures r == Decode(buf, 4)
  {
    var multiplier: nat := 1;
    var value: nat := 0;
    var i := 0;
    while i < |buf| && i < 4
      invariant 0 <= i <= |buf| && i <= 4
      invariant forall k :: 0 <= k < i ==> buf[k] >= 128
      invariant value == Value(buf[..i]) && (i < 4 ==> multiplier == Pow128(i))
    {
      var b := buf[i];
      DecodeStep(buf, i);
      PowTable();
      assert value + b % 128 * multiplier <= MAX_REMAINING;
      value := SaturatingAdd(value, b % 128 * multiplier);
      if value > MAX_REMAINING { return Malformed; }
      if b < 128 {
        var vbi := FromU32(value);
        match vbi {
          case Some(_) => return Ok(value, i + 1);
          case None => return Malformed;
        }
      }
      multiplier := CheckedMul(multiplier, 128);
      i := i + 1;
    }
    DecodeEnd(buf);
    if |buf| < 4 { return Incomplete; } else { return Malformed; }
  }

  /** The number of section 2.2.3 of MQTT 3.1.1: 321 is 65 + 2 * 128, least significant byte first. */
  lemma SpecExample()
    ensures Encode(321) == [65 + 128, 2] && Decode([65 + 128, 2], 4) == Ok(321, 2)
  {
    RoundTrip(321, [], 4);
    assert Encode(321) == [65 + 128] + Encode(2);
    assert Encode(321) + [] == Encode(321);
  }
}
