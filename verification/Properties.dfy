/** Property lists of MQTT 5.0 (section 2.2.2): a variable byte integer with the total size, then the
    properties one after another. */
module Properties {
  import opened Packets
  import opened Fields
  import opened Vbi

  /** How a property's value is laid out. */
  datatype Kind = Flag | Short | NonZeroShort | Long | NonZeroLong | VarInt | Text | Blob | TextPair

  datatype Val = Number(n: nat) | Bytes(s: seq<Byte>) | Pair(key: seq<Byte>, val: seq<Byte>)

  datatype Property = Property(id: Byte, v: Val)

  /** The 27 property identifiers. */
  function KindOf(id: Byte): Option<Kind> {
    if id in {1, 23, 25, 36, 37, 40, 41, 42} then Some(Flag)
    else if id in {19, 34} then Some(Short)
    else if id in {33, 35} then Some(NonZeroShort)
    else if id in {2, 17, 24} then Some(Long)
    else if id == 39 then Some(NonZeroLong)
    else if id == 11 then Some(VarInt)
    else if id in {3, 8, 18, 21, 26, 28, 31} then Some(Text)
    else if id in {9, 22} then Some(Blob)
    else if id == 38 then Some(TextPair)
    else None
  }

  /** The values the property constructors let through. */
  predicate ValidVal(k: Kind, v: Val) {
    match k
    case Flag => v.Number? && v.n <= 1
    case Short => v.Number? && v.n <= 0xFFFF
    case NonZeroShort => v.Number? && 1 <= v.n <= 0xFFFF
    case Long => v.Number? && v.n <= 0xFFFF_FFFF
    case NonZeroLong => v.Number? && 1 <= v.n <= 0xFFFF_FFFF
    case VarInt => v.Number? && 1 <= v.n <= MAX_REMAINING
    case Text => v.Bytes? && IsText(v.s)
    case Blob => v.Bytes? && IsBinary(v.s)
    case TextPair => v.Pair? && IsText(v.key) && IsText(v.val)
  }

  predicate Valid(p: Property) { KindOf(p.id).Some? && ValidVal(KindOf(p.id).value, p.v) }

  predicate AllValid(ps: seq<Property>) { forall k :: 0 <= k < |ps| ==> Valid(ps[k]) }

  function PrintVal(k: Kind, v: Val): seq<Byte> {
    match v
    case Number(n) =>
      (match k
       case Flag => [n % 256]
       case Short => Be16(n)
       case NonZeroShort => Be16(n)
       case VarInt => Encode(n)
       case _ => Be32(n))
    case Bytes(s) => Field(s)
    case Pair(a, b) => Field(a) + Field(b)
  }

  function Print(p: Property): seq<Byte> {
    [p.id] + match KindOf(p.id) { case Some(k) => PrintVal(k, p.v) case None => [] }
  }

  /** `size` of one property. */
  function SizeOf(p: Property): nat {
    1 + match p.v {
      case Bytes(s) => 2 + |s|
      case Pair(a, b) => 2 + |a| + (2 + |b|)
      case Number(n) =>
        match KindOf(p.id)
        case Some(Flag) => 1
        case Some(Short) => 2
        case Some(NonZeroShort) => 2
        case Some(VarInt) => VbiSize(n)
        case _ => 4
    }
  }

  function ParseShort(data: seq<Byte>, positive: bool): Outcome<Val> {
    if |data| < 2 then Broken(MalformedPacket)
    else
      var n := FromBe16(data[0], data[1]);
      if positive && n == 0 then Broken(ProtocolError) else Done(Number(n), 2)
  }

  function ParseLong(data: seq<Byte>, positive: bool): Outcome<Val> {
    if |data| < 4 then Broken(MalformedPacket)
    else
      var n := 65536 * FromBe16(data[0], data[1]) + FromBe16(data[2], data[3]);
      if positive && n == 0 then Broken(ProtocolError) else Done(Number(n), 4)
  }

  function ParsePair(data: seq<Byte>): Outcome<Val> {
    match DecodeString(data)
    case Broken(e) => Broken(e)
    case Panics => Panics
    case Done(a, n) =>
      match DecodeString(Rest(data, n))
      case Broken(e) => Broken(e)
      case Panics => Panics
      case Done(b, m) => Done(Pair(a, b), n + m)
  }

  function AsBytes(d: Outcome<seq<Byte>>): Outcome<Val> {
    match d
    case Done(s, n) => Done(Bytes(s), n)
    case Broken(e) => Broken(e)
    case Panics => Panics
  }

  function ParseVal(k: Kind, data: seq<Byte>): Outcome<Val> {
    match k
    case Flag =>
      if data == [] then Broken(MalformedPacket) else if data[0] > 1 then Broken(ProtocolError)
          else Done(Number(data[0]), 1)
    case Short => ParseShort(data, false)
    case NonZeroShort => ParseShort(data, true)
    case Long => ParseLong(data, false)
    case NonZeroLong => ParseLong(data, true)
    case VarInt =>
      (match Decode(data, 4)
       case Ok(n, used) => if n == 0 then Broken(ProtocolError) else Done(Number(n), used)
       case _ => Broken(InsufficientBytes))
    case Text => AsBytes(DecodeString(data))
    case Blob => AsBytes(DecodeBinary(data))
    case TextPair => ParsePair(data)
  }

  /** `Property::parse` */
  function ParseOne(data: seq<Byte>): Outcome<Property> {
    if data == [] then Broken(MalformedPacket)
    else match KindOf(data[0])
      case None => Broken(MalformedPacket)
      case Some(k) =>
        match ParseVal(k, data[1..])
        case Done(v, n) => Done(Property(data[0], v), n + 1)
        case Broken(e) => Broken(e)
        case Panics => Panics
  }

  /** All properties of a stretch of bytes. */
  function ParseAll(data: seq<Byte>): Outcome<seq<Property>>
    decreases |data|
  {
    if data == [] then Done([], 0)
    else match ParseOne(data)
      case Broken(e) => Broken(e)
      case Panics => Panics
      case Done(p, n) =>
        match ParseAll(Rest(data, if n == 0 then 1 else n))
        case Done(ps, m) => Done([p] + ps, n + m)
        case other => other
  }

  /** `Properties::parse` */
  function Parse(data: seq<Byte>): Outcome<seq<Property>> {
    match Decode(data, 4)
    case Ok(n, k) =>
      if n == 0 then Done([], k)
      else if k + n > |data| then Broken(MalformedPacket)
      else (match ParseAll(data[k..k + n])
            case Done(ps, m) => Done(ps, k + m)
            case other => other)
    case _ => Broken(MalformedPacket)
  }

  function PrintAll(ps: seq<Property>): seq<Byte> {
    if ps == [] then [] else Print(ps[0]) + PrintAll(ps[1..])
  }

  function TotalSizeOf(ps: seq<Property>): nat {
    if ps == [] then 0 else SizeOf(ps[0]) + TotalSizeOf(ps[1..])
  }

  // ---------------------------------------------------------------- one property

  lemma VarIntRoundTrip(n: nat, rest: seq<Byte>)
    requires n <= MAX_REMAINING
    ensures Decode(Encode(n) + rest, 4) == Ok(n, |Encode(n)|) && |Encode(n)| == VbiSize(n)
  {
    EncodeSize(n);
    RoundTrip(n, rest, 4);
  }

  lemma ShortRoundTrip(n: nat, rest: seq<Byte>)
    requires n <= 0xFFFF
    ensures ParseShort(Be16(n) + rest, false) == Done(Number(n), 2) && |Be16(n)| == 2
    ensures n > 0 ==> ParseShort(Be16(n) + rest, true) == Done(Number(n), 2)
  {
    Be16RoundTrip(n);
    hide Be16, FromBe16;
    var data := Be16(n) + rest;
    assert data[0] == Be16(n)[0] && data[1] == Be16(n)[1];
  }

  lemma LongRoundTrip(n: nat, rest: seq<Byte>)
    requires n <= 0xFFFF_FFFF
    ensures ParseLong(Be32(n) + rest, false) == Done(Number(n), 4) && |Be32(n)| == 4
    ensures n > 0 ==> ParseLong(Be32(n) + rest, true) == Done(Number(n), 4)
  {
    hide Be16;
    Be16RoundTrip(n / 65536);
    Be16RoundTrip(n % 65536);
    var data, high, low := Be32(n) + rest, Be16(n / 65536), Be16(n % 65536);
    assert data[0] == high[0] && data[1] == high[1] && data[2] == low[0] && data[3] == low[1];
  }

  lemma ValRoundTrip(k: Kind, v: Val, rest: seq<Byte>)
    requires ValidVal(k, v)
    ensures ParseVal(k, PrintVal(k, v) + rest) == Done(v, |PrintVal(k, v)|)
  {
    match v {
      case Number(n) =>
        assert ParseVal(k, PrintVal(k, Number(n)) + rest) == Done(Number(n), |PrintVal(k, Number(n))|) by {
          match k {
            case VarInt => VarIntRoundTrip(n, rest);
            case Short => ShortRoundTrip(n, rest);
            case NonZeroShort => ShortRoundTrip(n, rest);
            case Long => LongRoundTrip(n, rest);
            case NonZeroLong => LongRoundTrip(n, rest);
            case Flag => assert ([n % 256] + rest)[0] == n;
          }
          hide ParseShort, ParseLong, Be16, Be32;
        }
      case Bytes(s) =>
        if k.Text? { StringRoundTrip(s, rest); } else { BinaryRoundTrip(s, rest); }
        hide Field, DecodeString, DecodeBinary;
      case Pair(a, b) =>
        assert ParsePair(Field(a) + Field(b) + rest) == Done(Pair(a, b), |Field(a) + Field(b)|) by {
          var data := Field(a) + Field(b) + rest;
          assert data == Field(a) + (Field(b) + rest);
          StringRoundTrip(a, Field(b) + rest);
          assert Rest(data, |Field(a)|) == Field(b) + rest;
          StringRoundTrip(b, rest);
          hide Field, DecodeString;
        }
        hide Field, ParsePair;
    }
  }

  /** A valid property reads back, whatever follows it, and its encoding has the announced size. */
  lemma OneRoundTrip(p: Property, rest: seq<Byte>)
    requires Valid(p)
    ensures ParseOne(Print(p) + rest) == Done(p, |Print(p)|)
    ensures |Print(p)| == SizeOf(p)
  {
    hide KindOf, ParseVal, PrintVal, ValidVal, SizeOf;
    var k := KindOf(p.id).value;
    ValRoundTrip(k, p.v, rest);
    var data := Print(p) + rest;
    assert data[0] == p.id && data[1..] == PrintVal(k, p.v) + rest;
    SizeIs(p);
  }

  lemma SizeIs(p: Property)
    requires Valid(p)
    ensures |Print(p)| == SizeOf(p) >= 1
  {
    hide KindOf;
    if p.v.Number? && KindOf(p.id).value.VarInt? { EncodeSize(p.v.n); }
  }

  // ---------------------------------------------------------------- property lists

  lemma {:induction false} AllRoundTrip(ps: seq<Property>)
    requires AllValid(ps)
    ensures ParseAll(PrintAll(ps)) == Done(ps, |PrintAll(ps)|) && |PrintAll(ps)| == TotalSizeOf(ps)
    decreases |ps|
  {
    if ps != [] {
      AllRoundTrip(ps[1..]);
      HeadRoundTrip(ps[0], ps[1..]);
      hide ParseAll, Print, SizeOf, Valid;
      assert ps == [ps[0]] + ps[1..];
    }
  }

  lemma HeadRoundTrip(p: Property, ps: seq<Property>)
    requires Valid(p) && ParseAll(PrintAll(ps)) == Done(ps, |PrintAll(ps)|)
    ensures ParseAll(Print(p) + PrintAll(ps)) == Done([p] + ps, |Print(p)| + |PrintAll(ps)|) && |Print(p)| == SizeOf(p)
  {
    hide Print, PrintAll, ParseOne, SizeOf, Valid, ParseAll;
    var first, tail := Print(p), PrintAll(ps);
    OneRoundTrip(p, tail);
    SizeIs(p);
    ParseAllStep(first + tail);
    assert (first + tail)[|first|..] == tail;
  }

  /** A printed list reads back as the same list, and reading stops exactly at its end. */
  lemma ListRoundTrip(ps: seq<Property>, rest: seq<Byte>)
    requires AllValid(ps) && TotalSizeOf(ps) <= MAX_REMAINING
    ensures var prefix := Encode(TotalSizeOf(ps));
      Parse(prefix + PrintAll(ps) + rest) == Done(ps, |prefix| + TotalSizeOf(ps))
  {
    var size := TotalSizeOf(ps);
    var prefix := Encode(size);
    var data := prefix + PrintAll(ps) + rest;
    AllRoundTrip(ps);
    assert data == prefix + (PrintAll(ps) + rest);
    VarIntRoundTrip(size, PrintAll(ps) + rest);
    assert data[|prefix|..|prefix| + size] == PrintAll(ps);
    hide ParseAll, PrintAll, Decode;
    assert size == 0 ==> ps == [] by { if ps != [] { assert TotalSizeOf(ps) >= SizeOf(ps[0]) >= 1; } }
  }

  lemma ValWithin(k: Kind, data: seq<Byte>)
    requires ParseVal(k, data).Done?
    ensures var d := ParseVal(k, data);
      ValidVal(k, d.value) && |PrintVal(k, d.value)| <= d.used <= |data|
  {
    match k {
      case VarInt =>
        var n := Lead(data) + 1;
        PowTable();
        ValueBound(data[..n]);
        ShortestForm(data[..n]);
        SmallPow(n);
      case Text => StringPrints(data);
      case Blob => BinaryPrints(data);
      case TextPair =>
        StringPrints(data);
        StringPrints(Rest(data, DecodeString(data).used));
        hide DecodeString;
      case _ =>
    }
  }

  lemma SmallPow(n: nat)
    requires 1 <= n <= 4
    ensures Pow128(n) <= MAX_REMAINING + 1
  {
    PowTable();
  }

  /** Whatever parses is a valid property that prints into no more bytes than were read, so the parser
      never reads past the bytes it is given and always moves forward. */
  lemma OneWithin(data: seq<Byte>)
    requires ParseOne(data).Done?
    ensures var d := ParseOne(data);
      Valid(d.value) && 1 <= |Print(d.value)| <= d.used <= |data|
  {
    var k := KindOf(data[0]).value;
    ValWithin(k, data[1..]);
    hide ParseVal, PrintVal, ValidVal;
  }

  lemma {:induction false} AllWithin(data: seq<Byte>)
    requires ParseAll(data).Done?
    ensures var d := ParseAll(data);
      d.used == |data| && AllValid(d.value) && |PrintAll(d.value)| <= |data|
    decreases |data|
  {
    if data != [] {
      OneWithin(data);
      var n := ParseOne(data).used;
      AllWithin(Rest(data, n));
      hide ParseOne, Print, Valid;
      var d := ParseAll(Rest(data, n));
      assert ([ParseOne(data).value] + d.value)[1..] == d.value;
    }
  }

  /** Any list that parses ends exactly where its length prefix says. Its properties are valid, and
      printed again they fit and read back as the same list. */
  lemma ParseStopsAtEnd(data: seq<Byte>)
    requires Parse(data).Done?
    ensures var d := Parse(data);
      && Decode(data, 4).Ok? && d.used == Decode(data, 4).used + Decode(data, 4).value <= |data|
      && AllValid(d.value) && TotalSizeOf(d.value) <= Decode(data, 4).value
      && Parse(Encode(TotalSizeOf(d.value)) + PrintAll(d.value)).Done?
      && Parse(Encode(TotalSizeOf(d.value)) + PrintAll(d.value)).value == d.value
  {
    hide Parse, ParseAll, PrintAll, Decode, TotalSizeOf, AllValid;
    var h := Decode(data, 4);
    ParseHead(data);
    DecodeBound(data);
    var ps := Parse(data).value;
    if h.value > 0 {
      var body := data[h.used..h.used + h.value];
      assert [] + ParseAll(body).value == ParseAll(body).value;
      AllWithin(body);
    } else {
      NoProperties();
    }
    AllRoundTrip(ps);
    assert Parse(Encode(TotalSizeOf(ps)) + PrintAll(ps)) == Done(ps, |Encode(TotalSizeOf(ps))| + TotalSizeOf(ps)) by {
      ListRoundTrip(ps, []);
      var again := Encode(TotalSizeOf(ps)) + PrintAll(ps);
      assert again + [] == again;
    }
  }

  lemma NoProperties()
    ensures AllValid([]) && PrintAll([]) == [] && TotalSizeOf([]) == 0
  {
  }

  lemma DecodeBound(data: seq<Byte>)
    requires Decode(data, 4).Ok?
    ensures Decode(data, 4).value <= MAX_REMAINING && Decode(data, 4).used <= |data|
  {
    ValueBound(data[..Lead(data) + 1]);
    SmallPow(Lead(data) + 1);
  }

  // ---------------------------------------------------------------- the loops

  /** `Properties::parse` */
  method ParseProperties(data: seq<Byte>) returns (r: Outcome<seq<Property>>)
    ensures r == Parse(data)
  {
    hide Decode, ParseOne, ParseAll, Joined, Parse;
    ParseHead(data);
    if data == [] { return Broken(MalformedPacket); }
    var vbi := DecodeStream(data);
    if !vbi.Ok? { return Broken(MalformedPacket); }
    var cursor := vbi.used;
    var props: seq<Property> := [];
    if vbi.value == 0 { return Done(props, cursor); }
    var end := cursor + vbi.value;
    if end > |data| { return Broken(MalformedPacket); }
    while cursor < end
      invariant vbi.used <= cursor <= end
      invariant Parse(data) == Joined(props, cursor, ParseAll(data[cursor..end]))
      decreases end - cursor
    {
      var rest := data[cursor..end];
      var one := ParseOne(rest);
      ParseAllStep(rest);
      match one {
        case Broken(e) => JoinedFailure(props, cursor, Broken(e)); return Broken(e);
        case Panics => JoinedFailure(props, cursor, Panics); return Panics;
        case Done(p, n) =>
          assert rest[n..] == data[cursor + n..end];
          JoinedStep(props, p, cursor, n, ParseAll(data[cursor + n..end]));
          props := props + [p];
          cursor := cursor + n;
      }
    }
    assert data[cursor..end] == [];
    JoinedEnd(props, cursor);
    return Done(props, cursor);
  }

  /** What the length prefix decides. */
  lemma ParseHead(data: seq<Byte>)
    ensures data == [] ==> Parse(data) == Broken(MalformedPacket)
    ensures var h := Decode(data, 4);
      && (!h.Ok? ==> Parse(data) == Broken(MalformedPacket))
      && (h.Ok? && h.value == 0 ==> Parse(data) == Done([], h.used))
      && (h.Ok? && h.value > 0 ==>
        Parse(data) == if h.used + h.value > |data| then Broken(MalformedPacket)
                       else Joined([], h.used, ParseAll(data[h.used..h.used + h.value])))
  {
    hide ParseAll;
    assert Decode([], 4).Incomplete?;
    hide Decode;
    var h := Decode(data, 4);
    if h.Ok? && h.value > 0 && h.used + h.value <= |data| {
      var d := ParseAll(data[h.used..h.used + h.value]);
      if d.Done? { assert [] + d.value == d.value; }
    }
  }

  lemma ParseAllStep(data: seq<Byte>)
    requires data != []
    ensures var d := ParseOne(data);
      && (d.Done? ==> 1 <= d.used <= |data| && ParseAll(data) == Joined([d.value], d.used, ParseAll(data[d.used..])))
      && (d.Broken? ==> ParseAll(data) == Broken(d.error))
      && (d.Panics? ==> ParseAll(data) == Panics)
  {
    if ParseOne(data).Done? { OneWithin(data); }
    hide ParseOne, Print, Valid;
  }

  lemma JoinedFailure(ps: seq<Property>, n: nat, d: Outcome<seq<Property>>)
    requires !d.Done?
    ensures Joined(ps, n, d) == d
  {
  }

  lemma JoinedEnd(ps: seq<Property>, n: nat)
    ensures Joined(ps, n, ParseAll([])) == Done(ps, n)
  {
    assert ps + [] == ps;
  }

  /** A parse result with properties and bytes in front. */
  function Joined(ps: seq<Property>, n: nat, d: Outcome<seq<Property>>): Outcome<seq<Property>> {
    match d
    case Done(qs, m) => Done(ps + qs, n + m)
    case other => other
  }

  lemma JoinedStep(ps: seq<Property>, p: Property, n: nat, m: nat, d: Outcome<seq<Property>>)
    ensures Joined(ps, n, Joined([p], m, d)) == Joined(ps + [p], n + m, d)
  {
    if d.Done? { assert ps + ([p] + d.value) == ps + [p] + d.value; }
  }

  /** `to_continuous_buffer` of a list, and `size`. */
  method ToContinuousBuffer(ps: seq<Property>) returns (buf: seq<Byte>, size: nat)
    ensures buf == PrintAll(ps) && size == TotalSizeOf(ps)
    ensures AllValid(ps) ==> |buf| == size
  {
    buf, size := [], 0;
    for i := 0 to |ps|
      invariant buf + PrintAll(ps[i..]) == PrintAll(ps) && size + TotalSizeOf(ps[i..]) == TotalSizeOf(ps)
    {
      assert ps[i..][1..] == ps[i + 1..];
      buf := buf + Print(ps[i]);
      size := size + SizeOf(ps[i]);
    }
    if AllValid(ps) { AllRoundTrip(ps); }
  }

  // ---------------------------------------------------------------- the bytes

  /** The identifiers of table 2-4 of MQTT 5.0, told apart by what four zero bytes behind them mean. */
  lemma ZerosMean(id: Byte)
    ensures ParseOne([id, 0, 0, 0, 0]) ==
      if id in {1, 23, 25, 36, 37, 40, 41, 42} then Done(Property(id, Number(0)), 2)
      else if id in {19, 34} then Done(Property(id, Number(0)), 3)
      else if id in {2, 17, 24} then Done(Property(id, Number(0)), 5)
      else if id in {11, 33, 35, 39} then Broken(ProtocolError)
      else if id in {3, 8, 9, 18, 21, 22, 26, 28, 31} then Done(Property(id, Bytes([])), 3)
      else if id == 38 then Done(Property(id, Pair([], [])), 5)
      else Broken(MalformedPacket)
  {
    var data := [id, 0, 0, 0, 0];
    assert data[1..] == [0, 0, 0, 0];
    assert DecodeString([0, 0, 0, 0]) == Done([], 2) && DecodeBinary([0, 0, 0, 0]) == Done([], 2);
    assert Rest([0, 0, 0, 0], 2) == [0, 0] && DecodeString([0, 0]) == Done([], 2);
    assert Decode([0, 0, 0, 0], 4) == Ok(0, 1) by {
      assert [0, 0, 0, 0][..1] == [0] && [0][1..] == [];
    }
    hide DecodeString, DecodeBinary, Decode, Rest;
  }

  function Spelled(hi: nat, lo: nat): nat { 256 * hi + lo }

  /** Numbers of two and four bytes are printed high byte first. */
  lemma NumberLayout(p: Property)
    requires Valid(p) && p.v.Number?
    ensures var n, b := p.v.n, Print(p);
      b[0] == p.id && match KindOf(p.id).value
      case Short => |b| == 3 && n == Spelled(b[1], b[2])
      case NonZeroShort => |b| == 3 && n == Spelled(b[1], b[2])
      case Long => |b| == 5 && n == 65536 * Spelled(b[1], b[2]) + Spelled(b[3], b[4])
      case NonZeroLong => |b| == 5 && n == 65536 * Spelled(b[1], b[2]) + Spelled(b[3], b[4])
      case _ => true
  {
    var n := p.v.n;
    var k := KindOf(p.id).value;
    ValidMeans(p);
    hide KindOf, Valid, Encode;
    if k.Short? || k.NonZeroShort? { TwoBytes(n); }
    if k.Long? || k.NonZeroLong? {
      TwoBytes(n / 65536);
      TwoBytes(n % 65536);
    }
    hide Be16;
  }

  lemma ValidMeans(p: Property)
    requires Valid(p)
    ensures KindOf(p.id).Some? && ValidVal(KindOf(p.id).value, p.v)
  {
  }

  lemma TwoBytes(n: nat)
    requires n <= 65535
    ensures |Be16(n)| == 2 && n == Spelled(Be16(n)[0], Be16(n)[1])
  {
    assert n / 256 < 256;
  }
}
