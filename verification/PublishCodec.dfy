/** The v3.1.1 PUBLISH packet: builder, printer and parser. */
module PublishCodec {
  import opened Packets
  import opened Fields
  import opened Vbi
  import Framing

  const PUBLISH_HEADER: Byte := 0x30

  /** `remaining` is the number the remaining-length field holds. */
  datatype PublishFrame = PublishFrame(
    header: Byte, remaining: nat, topic: seq<Byte>, pid: Option<nat>, payload: seq<Byte>)

  function QosBits(header: Byte): nat { header / 2 % 4 }

  /** `size`: the fixed header, the length field as encoded, and what it announces. */
  function SizeOf(p: PublishFrame): nat { 1 + |Encode(p.remaining)| + p.remaining }

  function Body(p: PublishFrame): seq<Byte> {
    Field(p.topic) + (if p.pid.Some? then Be16(p.pid.value) else []) + p.payload
  }

  /** `to_continuous_buffer` */
  method ToContinuousBuffer(p: PublishFrame) returns (buf: seq<Byte>)
    ensures buf == Print(p)
  {
    buf := [p.header];
    buf := buf + Encode(p.remaining);
    buf := buf + Field(p.topic);
    if p.pid.Some? { buf := buf + Be16(p.pid.value); }
    if |p.payload| > 0 { buf := buf + p.payload; }
    assert Body(p) == Field(p.topic) + ((if p.pid.Some? then Be16(p.pid.value) else []) + p.payload);
  }

  function Print(p: PublishFrame): seq<Byte> { [p.header] + Encode(p.remaining) + Body(p) }

  // ---------------------------------------------------------------- the parser

  const U32_RANGE: nat := 0x1_0000_0000

  /** `parse`: the length the packet remembers is cut to 32 bits and has to fit a length field. */
  function Parse(flags: Byte, data: seq<Byte>): Outcome<PublishFrame> {
    if QosBits(flags) == 3 then Broken(MalformedPacket)
    else match DecodeString(data)
      case Broken(e) => Broken(e)
      case Panics => Panics
      case Done(topic, n) => Assemble(flags, topic, Rest(data, n), |data|)
  }

  /** What follows the topic: an identifier unless the QoS is 0, then the payload. */
  function Assemble(flags: Byte, topic: seq<Byte>, rest: seq<Byte>, total: nat): Outcome<PublishFrame> {
    if QosBits(flags) == 0 then Checked(flags, topic, None, rest, total)
    else if |rest| < 2 then Broken(MalformedPacket)
    else Checked(flags, topic, Some(FromBe16(rest[0], rest[1])), rest[2..], total)
  }

  function Checked(flags: Byte, topic: seq<Byte>, pid: Option<nat>, payload: seq<Byte>,
      total: nat): Outcome<PublishFrame> {
    var remaining := (|Field(topic)| + (if pid.Some? then 2 else 0) + |payload|) % U32_RANGE;
    if remaining > MAX_REMAINING then Panics
    else Done(PublishFrame(PUBLISH_HEADER + flags % 16, remaining, topic, pid, payload), total)
  }

  method ParsePublish(flags: Byte, data: seq<Byte>) returns (r: Outcome<PublishFrame>)
    ensures r == Parse(flags, data)
  {
    hide DecodeString, Field, FromBe16, Encode;
    var header := PUBLISH_HEADER + flags % 16;
    var qos := QosBits(flags);
    if qos == 3 { return Broken(MalformedPacket); }
    var cursor := 0;
    var field := DecodeString(data);
    if field.Broken? { return Broken(field.error); }
    DecodeNeverPanics(data);
    StringPrints(data);
    hide QosBits;
    cursor := cursor + field.used;
    var pid := None;
    if qos != 0 {
      if |data| < cursor + 2 { return Broken(MalformedPacket); }
      pid := Some(FromBe16(data[cursor], data[cursor + 1]));
      assert Rest(data, cursor)[2..] == data[cursor + 2..];
      cursor := cursor + 2;
    }
    var payloadLen := |data| - cursor;
    var payload := if payloadLen > 0 then data[cursor..] else [];
    var size := |Field(field.value)| + (if pid.Some? then 2 else 0) + payloadLen;
    var length := FromU32(size % U32_RANGE);
    if length.None? { return Panics; }
    return Done(PublishFrame(header, size % U32_RANGE, field.value, pid, payload), |data|);
  }

  /** Printing what was parsed gives the same bytes back. */
  lemma ParsePrints(flags: Byte, data: seq<Byte>)
    ensures Parse(flags, data).Done? ==>
      var p := Parse(flags, data).value;
      Body(p) == data && p.header == PUBLISH_HEADER + flags % 16 && (|data| < U32_RANGE ==> p.remaining == |data|)
  {
    hide DecodeString, Field, Assemble, Body, Rest, QosBits;
    if Parse(flags, data).Done? {
      StringSplits(data);
      var d := DecodeString(data);
      AssemblePrints(flags, d.value, Rest(data, d.used), |data|);
    }
  }

  lemma AssemblePrints(flags: Byte, topic: seq<Byte>, rest: seq<Byte>, total: nat)
    requires Assemble(flags, topic, rest, total).Done?
    ensures var p := Assemble(flags, topic, rest, total).value;
      && Body(p) == Field(topic) + rest && p.header == PUBLISH_HEADER + flags % 16
      && p.remaining == (|Field(topic)| + |rest|) % U32_RANGE
  {
    hide Field;
    var p := Assemble(flags, topic, rest, total).value;
    if p.pid.Some? {
      Be16Prints(rest[0], rest[1]);
      assert rest == Be16(p.pid.value) + p.payload;
      assert Field(topic) + rest == Field(topic) + Be16(p.pid.value) + p.payload;
    } else {
      assert Field(topic) + [] + rest == Field(topic) + rest;
    }
  }

  /** Exactly which bodies parse, as long as they are shorter than 128^4 bytes. */
  lemma ParsesIff(flags: Byte, data: seq<Byte>)
    requires |data| <= MAX_REMAINING
    ensures Parse(flags, data).Done? <==>
      QosBits(flags) != 3 && DecodeString(data).Done? && (QosBits(flags) != 0 ==> DecodeString(data).used + 2 <= |data|)
    ensures !Parse(flags, data).Panics?
  {
    hide DecodeString, Field, QosBits, Assemble;
    if DecodeString(data).Done? {
      StringPrints(data);
      var d := DecodeString(data);
      AssembleIff(flags, d.value, Rest(data, d.used), |data|);
    } else {
      DecodeNeverPanics(data);
    }
  }

  lemma DecodeNeverPanics(data: seq<Byte>)
    ensures !DecodeString(data).Panics?
  {
  }

  lemma AssembleIff(flags: Byte, topic: seq<Byte>, rest: seq<Byte>, total: nat)
    requires |Field(topic)| + |rest| <= MAX_REMAINING
    ensures var r := Assemble(flags, topic, rest, total);
      !r.Panics? && (r.Done? <==> QosBits(flags) == 0 || |rest| >= 2)
  {
    hide Field, QosBits;
  }

  // ---------------------------------------------------------------- the builder

  datatype PublishBuilder = PublishBuilder(
    header: Option<Byte>, topic: Option<seq<Byte>>, pid: Option<nat>, payload: Option<seq<Byte>>)

  const EMPTY: PublishBuilder := PublishBuilder(None, None, None, None)

  /** One call of a setter. */
  datatype Setter =
    | SetTopic(topic: seq<Byte>) | SetQos(qos: Qos) | SetDup(dup: bool) | SetRetain(retain: bool)
    | SetPid(id: nat) | SetPayload(payload: seq<Byte>)

  function QosCode(q: Qos): nat { match q case AtMostOnce => 0 case AtLeastOnce => 1 case ExactlyOnce => 2 }

  function WithBit(h: Byte, bit: nat, on: bool): (r: int)
    requires bit in {1, 8}
  {
    h - h / bit % 2 * bit + if on then bit else 0
  }

  function WithQos(h: Byte, q: Qos): int { h - h / 2 % 4 * 2 + QosCode(q) * 2 }

  predicate PublishHeader(h: int) { PUBLISH_HEADER <= h < PUBLISH_HEADER + 16 && h / 2 % 4 != 3 }

  lemma RetainBit(h: Byte, on: bool)
    requires PublishHeader(h)
    ensures var w := WithBit(h, 1, on);
      PublishHeader(w) && w / 2 == h / 2 && (w % 2 == 1 <==> on)
  {
  }

  lemma DupBit(h: Byte, on: bool)
    requires PublishHeader(h)
    ensures var w := WithBit(h, 8, on);
      PublishHeader(w) && w % 8 == h % 8 && (w / 8 % 2 == 1 <==> on)
  {
    var d, low := h / 8 % 2, h % 8;
    assert h == 48 + 8 * d + low;
    assert WithBit(h, 8, on) == 48 + (if on then 8 else 0) + low;
    assert h / 2 % 4 == low / 2;
  }

  lemma QosField(h: Byte, q: Qos)
    requires PublishHeader(h)
    ensures var w := WithQos(h, q);
      PublishHeader(w) && w / 2 % 4 == QosCode(q) && w / 8 == h / 8 && w % 2 == h % 2
  {
    var d, r := h / 8, h % 2;
    assert h == 8 * d + 2 * (h / 2 % 4) + r;
    assert WithQos(h, q) == 8 * d + 2 * QosCode(q) + r;
  }

  function HeaderOf(b: PublishBuilder): Byte { match b.header case Some(h) => h case None => PUBLISH_HEADER }

  ghost predicate BuilderOk(b: PublishBuilder) {
    && PublishHeader(HeaderOf(b))
    && (b.topic.Some? ==> IsText(b.topic.value) && !HasWildcard(b.topic.value))
    && (b.pid.Some? ==> b.pid.value <= MAX_ID)
  }

  /** What the types of the setters allow: strings are UTF-8, identifiers have 16 bits. */
  ghost predicate CallOk(s: Setter) {
    && (s.SetTopic? ==> ValidUtf8(s.topic))
    && (s.SetPid? ==> s.id <= MAX_ID)
  }

  function AsByte(n: int): Byte { if 0 <= n < 256 then n else 0 }

  function Apply(b: PublishBuilder, s: Setter): Outcome<PublishBuilder> {
    match s
    case SetTopic(t) =>
      if |t| > FIELD_LIMIT || HasWildcard(t) then Broken(MalformedPacket) else Done(b.(topic := Some(t)), 0)
    case SetQos(q) => Done(b.(header := Some(AsByte(WithQos(HeaderOf(b), q)))), 0)
    case SetDup(on) => Done(b.(header := Some(AsByte(WithBit(HeaderOf(b), 8, on)))), 0)
    case SetRetain(on) => Done(b.(header := Some(AsByte(WithBit(HeaderOf(b), 1, on)))), 0)
    case SetPid(id) => Done(b.(pid := Some(id)), 0)
    case SetPayload(p) => Done(b.(payload := Some(p)), 0)
  }

  function Configure(calls: seq<Setter>): Outcome<PublishBuilder> {
    if calls == [] then Done(EMPTY, 0)
    else
      var n := |calls| - 1;
      match Configure(calls[..n])
      case Done(b, _) => Apply(b, calls[n])
      case other => other
  }

  function Validate(b: PublishBuilder): Option<MqttError> {
    if b.topic.None? || b.topic.value == [] then Some(MalformedPacket)
    else if QosBits(HeaderOf(b)) == 3 then Some(MalformedPacket)
    else if QosBits(HeaderOf(b)) == 0 && b.pid.Some? then Some(MalformedPacket)
    else if QosBits(HeaderOf(b)) != 0 && (b.pid.None? || b.pid.value == 0) then Some(MalformedPacket)
    else if b.payload.Some? && |b.payload.value| > 268435455 then Some(MalformedPacket)
    else None
  }

  /** `build`: the length check looks at the payload alone, so a length field that does not fit panics. */
  function Build(b: PublishBuilder): Outcome<PublishFrame> {
    match Validate(b)
    case Some(e) => Broken(e)
    case None =>
      var payload := if b.payload.Some? then b.payload.value else [];
      var remaining := |Field(b.topic.value)| + (if QosBits(HeaderOf(b)) != 0 && b.pid.Some? then 2 else 0) + |payload|;
      if remaining > MAX_REMAINING then Panics
      else Done(PublishFrame(HeaderOf(b), remaining, b.topic.value, b.pid, payload), 0)
  }

  lemma {:induction false} ConfigureOk(calls: seq<Setter>)
    requires forall k :: 0 <= k < |calls| ==> CallOk(calls[k])
    ensures Configure(calls).Done? ==> BuilderOk(Configure(calls).value)
  {
    if calls != [] {
      var n := |calls| - 1;
      ConfigureOk(calls[..n]);
      if Configure(calls[..n]).Done? {
        assert Apply((Configure(calls[..n]).value), calls[n]).Done?
            ==> BuilderOk(Apply((Configure(calls[..n]).value), calls[n]).value) by {
          var h := HeaderOf((Configure(calls[..n]).value));
          match calls[n] {
            case SetQos(q) => QosField(h, q);
            case SetDup(on) => DupBit(h, on);
            case SetRetain(on) => RetainBit(h, on);
            case _ =>
          }
          hide WithBit, WithQos;
        }
      }
    }
  }

  function LastQos(calls: seq<Setter>): Qos {
    if calls == [] then AtMostOnce
    else if calls[|calls| - 1].SetQos? then calls[|calls| - 1].qos else LastQos(calls[..|calls| - 1])
  }

  predicate LastDup(calls: seq<Setter>) {
    calls != [] && if calls[|calls| - 1].SetDup? then calls[|calls| - 1].dup else LastDup(calls[..|calls| - 1])
  }

  predicate LastRetain(calls: seq<Setter>) {
    calls != [] && if calls[|calls| - 1].SetRetain? then calls[|calls| - 1].retain else LastRetain(calls[..|calls| - 1])
  }

  /** The two QoS bits as section 3.3.1.2 of MQTT 3.1.1 has them. */
  predicate BitsSay(bits: nat, q: Qos) {
    match q
    case AtMostOnce => bits == 0
    case AtLeastOnce => bits == 1
    case ExactlyOnce => bits == 2
  }

  /** The header byte says what each setter was last told, in whatever order they were called: type 3 in the upper four
      bits, DUP in bit 3, the QoS in bits 2 and 1, RETAIN in bit 0. */
  lemma {:induction false} HeaderMeans(calls: seq<Setter>)
    requires Configure(calls).Done?
    ensures var h := HeaderOf(Configure(calls).value);
      && PublishHeader(h) && h / 16 == 3 && BitsSay(h / 2 % 4, LastQos(calls))
      && (h / 8 % 2 == 1 <==> LastDup(calls)) && (h % 2 == 1 <==> LastRetain(calls))
  {
    if calls != [] {
      var n := |calls| - 1;
      HeaderMeans(calls[..n]);
      var h := HeaderOf(Configure(calls[..n]).value);
      match calls[n] {
        case SetQos(q) => QosField(h, q);
        case SetDup(on) => DupBit(h, on); LowBits(h, WithBit(h, 8, on));
        case SetRetain(on) => RetainBit(h, on);
          assert WithBit(h, 1, on) / 8 == h / 8 by {
            assert h / 8 == h / 2 / 4 && WithBit(h, 1, on) / 8 == WithBit(h, 1, on) / 2 / 4;
          }
        case _ =>
      }
      hide WithBit, WithQos, Configure, LastQos, LastDup, LastRetain;
    }
  }

  lemma LowBits(h: nat, w: nat)
    requires w % 8 == h % 8
    ensures w / 2 % 4 == h / 2 % 4 && w % 2 == h % 2
  {
    Octal(h);
    Octal(w);
  }

  lemma Octal(h: nat)
    ensures h / 2 % 4 == h % 8 / 2 && h % 2 == h % 8 % 2
  {
    var q, r := h / 8, h % 8;
    assert h == 8 * q + r;
    assert h / 2 == 4 * q + r / 2;
    assert r / 2 < 4;
  }

  /** The packets a builder can give. */
  ghost predicate Built(p: PublishFrame) {
    && PublishHeader(p.header) && IsText(p.topic)
    && (p.pid.Some? <==> QosBits(p.header) != 0) && (p.pid.Some? ==> p.pid.value <= MAX_ID)
    && p.remaining == |Body(p)| <= MAX_REMAINING
  }

  lemma BuildGives(calls: seq<Setter>)
    requires forall k :: 0 <= k < |calls| ==> CallOk(calls[k])
    requires Configure(calls).Done? && Build(Configure(calls).value).Done?
    ensures var b := Configure(calls).value;
      var p := Build(b).value;
      && Built(p) && p.header == HeaderOf(b) && Some(p.topic) == b.topic && p.pid == b.pid
      && p.payload == (if b.payload.Some? then b.payload.value else [])
  {
    ConfigureOk(calls);
    hide Configure, Field;
  }

  /** The body a builder would give. */
  function BodySize(b: PublishBuilder): nat {
    var payload := if b.payload.Some? then |b.payload.value| else 0;
    2 + (if b.topic.Some? then |b.topic.value| else 0) + (if QosBits(HeaderOf(b)) != 0 then 2 else 0) + payload
  }

  /** `build` fails an unwrap exactly if its checks pass and the sum of the parts does not fit. */
  lemma BuildPanicsIff(b: PublishBuilder)
    ensures Build(b).Panics? <==> Validate(b).None? && BodySize(b) > MAX_REMAINING
    ensures Build(b).Done? <==> Validate(b).None? && BodySize(b) <= MAX_REMAINING
  {
    hide QosBits, HeaderOf;
  }

  /** A payload that the checks still let through, behind the shortest topic. */
  lemma BuildPanics()
    ensures var calls := [SetTopic([116]), SetPayload(seq(268435455, i => 0))];
      Configure(calls).Done? && Build(Configure(calls).value).Panics?
  {
    var payload: seq<Byte> := seq(268435455, i => 0);
    var a, p := SetTopic([116]), SetPayload(payload);
    assert [a, p][..1] == [a] && [a][..0] == [];
    assert Configure([]) == Done(EMPTY, 0);
    assert Configure([a]) == Apply(EMPTY, a);
    assert Configure([a, p]) == Apply(Configure([a]).value, p);
    var b := EMPTY.(topic := Some([116]), payload := Some(payload));
    assert Configure([a, p]).value == b;
    assert Validate(b).None? && BodySize(b) == 268435458;
    hide Build, Configure;
    BuildPanicsIff(b);
  }

  lemma HeaderSplits(h: Byte)
    requires PublishHeader(h)
    ensures QosBits(h % 16) == QosBits(h) != 3 && PUBLISH_HEADER + h % 16 % 16 == h
  {
  }

  lemma AssembleBuilt(p: PublishFrame, total: nat)
    requires Built(p)
    ensures Assemble(p.header % 16, p.topic, (if p.pid.Some? then Be16(p.pid.value) else []) + p.payload, total)
        == Done(p, total)
  {
    HeaderSplits(p.header);
    BodySplits(p);
    hide Field, QosBits, PublishHeader, Body;
    if p.pid.Some? {
      var rest := Be16(p.pid.value) + p.payload;
      assert rest[..2] == Be16(p.pid.value) && FromBe16(rest[0], rest[1]) == p.pid.value;
      assert rest[2..] == p.payload;
    } else {
      assert [] + p.payload == p.payload;
    }
  }

  lemma BodySplits(p: PublishFrame)
    ensures Body(p) == Field(p.topic) + ((if p.pid.Some? then Be16(p.pid.value) else []) + p.payload)
  {
  }

  /** A packet that builds prints into exactly `size` bytes, which the packet builder cuts out of any
      stream as one packet of type 3, and which parse back to the same packet. */
  lemma PublishRoundTrip(calls: seq<Setter>, rest: seq<Byte>)
    requires forall k :: 0 <= k < |calls| ==> CallOk(calls[k])
    requires Configure(calls).Done? && Build(Configure(calls).value).Done?
    requires Build(Configure(calls).value).value.remaining < Framing.BODY_LIMIT
    ensures var p := Build(Configure(calls).value).value;
      Travels(p, rest)
  {
    BuildGives(calls);
    BuiltTravels(Build(Configure(calls).value).value, rest);
  }

  /** Printed, sent through a stream and parsed, the packet is what it was. */
  ghost predicate Travels(p: PublishFrame, rest: seq<Byte>) {
    && |Print(p)| == SizeOf(p)
    && Framing.First(Print(p) + rest)
       == Framing.Take(Framing.Complete(Framing.RawPacket(p.header, Framing.PublishData(Body(p)))), SizeOf(p))
    && Parse(p.header % 16, Body(p)) == Done(p, |Body(p)|)
  }

  lemma BuiltTravels(p: PublishFrame, rest: seq<Byte>)
    requires Built(p) && p.remaining < Framing.BODY_LIMIT
    ensures Travels(p, rest)
  {
    assert Parse(p.header % 16, Body(p)) == Done(p, |Body(p)|) by {
      hide DecodeString, Field, QosBits, PublishHeader, Body, Assemble;
      var rest := (if p.pid.Some? then Be16(p.pid.value) else []) + p.payload;
      var data := Body(p);
      BodySplits(p);
      StringRoundTrip(p.topic, rest);
      HeaderSplits(p.header);
      assert Rest(data, |Field(p.topic)|) == rest;
      AssembleBuilt(p, |data|);
    }
    var f := Framing.Frame(p.header, Body(p));
    assert Framing.Print(f) == Print(p);
    Framing.PrintReads(f, rest);
    assert p.header / 16 == 3;
    hide Body, Parse, Framing.First;
  }

  function SetDup(p: PublishFrame, on: bool): PublishFrame { p.(header := AsByte(WithBit(p.header, 8, on))) }

  /** `set_dup` changes the DUP flag alone, and the packet still travels. */
  lemma SetDupTravels(p: PublishFrame, on: bool, rest: seq<Byte>)
    requires Built(p) && p.remaining < Framing.BODY_LIMIT
    ensures var q := SetDup(p, on);
      && Travels(q, rest) && Body(q) == Body(p) && SizeOf(q) == SizeOf(p)
      && (q.header / 8 % 2 == 1 <==> on) && q.header % 8 == p.header % 8
  {
    DupBit(p.header, on);
    var q := SetDup(p, on);
    hide WithBit, Field, Be16;
    assert Body(q) == Body(p);
    LowBits(p.header, q.header);
    assert Built(q);
    BuiltTravels(q, rest);
    hide Travels;
  }

  // ---------------------------------------------------------------- what the reader sees

  /** The accessor `qos`; a parsed packet never has both bits set. */
  function QosOf(p: PublishFrame): Option<Qos> {
    match QosBits(p.header)
    case 0 => Some(AtMostOnce)
    case 1 => Some(AtLeastOnce)
    case 2 => Some(ExactlyOnce)
    case _ => None
  }

  /** What is read from the printed bytes is what the builder was told last: QoS, DUP and RETAIN. */
  lemma FlagsTravel(calls: seq<Setter>)
    requires forall k :: 0 <= k < |calls| ==> CallOk(calls[k])
    requires Configure(calls).Done? && Build(Configure(calls).value).Done?
    requires Build(Configure(calls).value).value.remaining < Framing.BODY_LIMIT
    ensures var sent := Build(Configure(calls).value).value;
      var r := Parse(Print(sent)[0] % 16, Body(sent));
      && r.Done? && QosOf(r.value) == Some(LastQos(calls))
      && (r.value.header / 8 % 2 == 1 <==> LastDup(calls)) && (r.value.header % 2 == 1 <==> LastRetain(calls))
  {
    hide Configure, Build, LastQos, LastDup, LastRetain, CallOk, Built, HeaderOf, PublishHeader, QosOf, Parse, Body,
      Print;
    BuildGives(calls);
    HeaderMeans(calls);
    var p := Build(Configure(calls).value).value;
    ReadsBack(p, LastQos(calls));
  }

  lemma ReadsBack(p: PublishFrame, q: Qos)
    requires Built(p) && p.remaining < Framing.BODY_LIMIT && BitsSay(p.header / 2 % 4, q)
    ensures Parse(Print(p)[0] % 16, Body(p)) == Done(p, |Body(p)|) && QosOf(p) == Some(q)
  {
    BuiltTravels(p, []);
    hide Parse, Body, Built;
  }

  /** The body byte by byte: the topic behind its length, high byte first, the identifier of a QoS 1 or 2 message
      likewise, and the payload. */
  lemma BodyLayout(p: PublishFrame)
    requires Built(p)
    ensures var b, n, at := Body(p), |p.topic|, 2 + |p.topic|;
      && b[0] == n / 256 && b[1] == n % 256 && b[2..at] == p.topic
      && (if p.pid.Some? then
            b[at] == p.pid.value / 256 && b[at + 1] == p.pid.value % 256 && b[at + 2..] == p.payload
          else b[at..] == p.payload)
  {
    BodySplits(p);
    var id := if p.pid.Some? then Be16(p.pid.value) else [];
    assert Body(p) == Be16(|p.topic|) + p.topic + id + p.payload;
    hide Body, Field, ValidUtf8;
  }
}
