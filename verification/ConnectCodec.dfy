/** The v3.1.1 CONNECT packet: builder, printer and parser. */
module ConnectCodec {
  import opened Packets
  import opened Fields
  import opened Vbi
  import Framing

  const CONNECT_HEADER: Byte := 0x10
  /** Protocol name and level: "MQTT", 4. */
  const PREAMBLE: seq<Byte> := [0, 4, 77, 81, 84, 84, 4]

  /** The connect flags byte, bit by bit from the lowest. */
  datatype Flags = Flags(
    reserved: bool, clean: bool, will: bool, willQos1: bool, willQos2: bool, willRetain: bool, password: bool,
        user: bool)

  predicate Odd(n: nat) { n % 2 == 1 }

  function Half(n: nat): nat { n / 2 }

  /** A bit below the bits of `m`. */
  function Pack(on: bool, m: nat): nat { (if on then 1 else 0) + 2 * m }

  function High(f: Flags): (n: nat)
    ensures n < 16
  {
    Pack(f.willQos2, Pack(f.willRetain, Pack(f.password, Pack(f.user, 0))))
  }

  function ToByte(f: Flags): Byte { Pack(f.reserved, Pack(f.clean, Pack(f.will, Pack(f.willQos1, High(f))))) }

  function FromByte(n: Byte): Flags {
    var n1 := Half(n);
    var n2 := Half(n1);
    var n3 := Half(n2);
    var n4 := Half(n3);
    var n5 := Half(n4);
    var n6 := Half(n5);
    Flags(Odd(n), Odd(n1), Odd(n2), Odd(n3), Odd(n4), Odd(n5), Odd(n6), Odd(Half(n6)))
  }

  lemma PackHalf(on: bool, m: nat)
    ensures Odd(Pack(on, m)) == on && Half(Pack(on, m)) == m
  {
  }

  lemma HalfPack(n: nat)
    ensures Pack(Odd(n), Half(n)) == n
  {
  }

  lemma FlagsRoundTrip(f: Flags)
    ensures FromByte(ToByte(f)) == f
  {
    hide Odd, Half, Pack;
    PackHalf(f.user, 0);
    var n7 := Pack(f.user, 0);
    PackHalf(f.password, n7);
    var n6 := Pack(f.password, n7);
    PackHalf(f.willRetain, n6);
    var n5 := Pack(f.willRetain, n6);
    PackHalf(f.willQos2, n5);
    var n4 := Pack(f.willQos2, n5);
    PackHalf(f.willQos1, n4);
    var n3 := Pack(f.willQos1, n4);
    PackHalf(f.will, n3);
    var n2 := Pack(f.will, n3);
    PackHalf(f.clean, n2);
    PackHalf(f.reserved, Pack(f.clean, n2));
  }

  lemma ByteRoundTrip(n: Byte)
    ensures ToByte(FromByte(n)) == n
  {
    assert Half(Half(Half(Half(Half(Half(Half(Half(n)))))))) == 0 by {
      assert Half(n) < 128;
      assert Half(Half(n)) < 64;
      assert Half(Half(Half(n))) < 32;
      assert Half(Half(Half(Half(n)))) < 16;
      assert Half(Half(Half(Half(Half(n))))) < 8;
    }
    hide Odd, Half, Pack;
    var n1 := Half(n);
    var n2 := Half(n1);
    var n3 := Half(n2);
    var n4 := Half(n3);
    var n5 := Half(n4);
    var n6 := Half(n5);
    HalfPack(n);
    HalfPack(n1);
    HalfPack(n2);
    HalfPack(n3);
    HalfPack(n4);
    HalfPack(n5);
    HalfPack(n6);
    HalfPack(Half(n6));
  }

  datatype ConnectFrame = ConnectFrame(
    remaining: nat, flags: Flags, keepAlive: nat, clientId: seq<Byte>,
    willTopic: seq<Byte>, willPayload: seq<Byte>, userName: seq<Byte>, password: seq<Byte>)

  function SizeOf(p: ConnectFrame): nat { 1 + |Encode(p.remaining)| + p.remaining }

  function Opt(on: bool, s: seq<Byte>): seq<Byte> { if on then Field(s) else [] }

  function Credentials(p: ConnectFrame): seq<Byte> {
    Opt(p.flags.user, p.userName) + Opt(p.flags.password, p.password)
  }

  function WillAndAfter(p: ConnectFrame): seq<Byte> {
    Opt(p.flags.will, p.willTopic) + (Opt(p.flags.will, p.willPayload) + Credentials(p))
  }

  /** The body: fixed part, client identifier, then whatever the flags announce. */
  function Body(p: ConnectFrame): seq<Byte> {
    PREAMBLE + [ToByte(p.flags)] + Be16(p.keepAlive) + (Field(p.clientId) + WillAndAfter(p))
  }

  function Print(p: ConnectFrame): seq<Byte> { [CONNECT_HEADER] + Encode(p.remaining) + Body(p) }

  method ToContinuousBuffer(p: ConnectFrame) returns (buf: seq<Byte>)
    ensures buf == Print(p)
  {
    hide Encode, Be16, Field, ToByte;
    buf := [CONNECT_HEADER];
    buf := buf + Encode(p.remaining);
    buf := buf + PREAMBLE + [ToByte(p.flags)] + Be16(p.keepAlive);
    buf := buf + Field(p.clientId);
    ghost var fixed := buf;
    if p.flags.will { buf := buf + Field(p.willTopic) + Field(p.willPayload); }
    ghost var will := buf;
    if p.flags.user { buf := buf + Field(p.userName); }
    if p.flags.password { buf := buf + Field(p.password); }
    assert buf == will + Credentials(p);
    PrintedInParts(p, fixed, will);
  }

  lemma PrintedInParts(p: ConnectFrame, fixed: seq<Byte>, will: seq<Byte>)
    requires fixed ==
      [CONNECT_HEADER] + Encode(p.remaining) + PREAMBLE + [ToByte(p.flags)] + Be16(p.keepAlive) + Field(p.clientId)
    requires will == fixed + if p.flags.will then Field(p.willTopic) + Field(p.willPayload) else []
    ensures will + Credentials(p) == Print(p)
  {
    hide Encode, Be16, Field, ToByte, Credentials;
    assert will + Credentials(p) == fixed + WillAndAfter(p);
    hide WillAndAfter;
    assert fixed + WillAndAfter(p) == [CONNECT_HEADER] + Encode(p.remaining) + Body(p);
  }

  // ---------------------------------------------------------------- the parser

  function TakeText(on: bool, data: seq<Byte>): Outcome<seq<Byte>> { if on then DecodeString(data) else Done([], 0) }

  function TakeBinary(on: bool, data: seq<Byte>): Outcome<seq<Byte>> { if on then DecodeBinary(data) else Done([], 0) }

  /** `parse`, field by field: `p` is what is known so far, `at` how far the cursor is. */
  function Parse(data: seq<Byte>): Outcome<ConnectFrame> {
    if |data| < 6 then Broken(MalformedPacket)
    else if data[..6] != PREAMBLE[..6] then Broken(ProtocolError)
    else if |data| < 7 then Broken(MalformedPacket)
    else if data[6] != 4 then Broken(UnsupportedProtocolVersion)
    else if |data| < 10 then Broken(MalformedPacket)
    else
      var p := ConnectFrame(0, FromByte(data[7]), FromBe16(data[8], data[9]), [], [], [], [], []);
      match DecodeString(data[10..])
      case Done(s, n) => ParseWill(p.(clientId := s), Rest(data[10..], n), 10 + n)
      case _ => Broken(ClientIdentifierNotValid)
  }

  function ParseWill(p: ConnectFrame, data: seq<Byte>, at: nat): Outcome<ConnectFrame> {
    match TakeText(p.flags.will, data)
    case Broken(e) => Broken(e)
    case Panics => Panics
    case Done(t, n) =>
      match TakeBinary(p.flags.will, Rest(data, n))
      case Broken(e) => Broken(e)
      case Panics => Panics
      case Done(w, m) => ParseCredentials(p.(willTopic := t, willPayload := w), Rest(Rest(data, n), m), at + n + m)
  }

  function ParseCredentials(p: ConnectFrame, data: seq<Byte>, at: nat): Outcome<ConnectFrame> {
    match TakeText(p.flags.user, data)
    case Done(u, n) =>
      (match TakeBinary(p.flags.password, Rest(data, n))
       case Done(w, m) =>
         if p.flags.password && !p.flags.user then Broken(ProtocolError)
         else if at + n + m > MAX_REMAINING then Panics
         else Done(p.(userName := u, password := w, remaining := at + n + m), at + n + m)
       case _ => Broken(BadUserNameOrPassword))
    case _ => Broken(BadUserNameOrPassword)
  }

  method ParseConnect(data: seq<Byte>) returns (r: Outcome<ConnectFrame>)
    ensures r == Parse(data)
  {
    hide DecodeString, DecodeBinary, Rest;
    var cursor := 0;
    if |data| < cursor + 6 { return Broken(MalformedPacket); }
    var name := data[cursor..cursor + 6];
    cursor := cursor + 6;
    if name != PREAMBLE[..6] { return Broken(ProtocolError); }
    if |data| < cursor + 1 { return Broken(MalformedPacket); }
    if data[cursor] != 4 { return Broken(UnsupportedProtocolVersion); }
    cursor := cursor + 1;
    if |data| < cursor + 1 { return Broken(MalformedPacket); }
    var flags := FromByte(data[cursor]);
    cursor := cursor + 1;
    if |data| < cursor + 2 { return Broken(MalformedPacket); }
    var p := ConnectFrame(0, flags, FromBe16(data[cursor], data[cursor + 1]), [], [], [], [], []);
    cursor := cursor + 2;
    var rest := data[cursor..];
    var id := DecodeString(rest);
    if !id.Done? { return Broken(ClientIdentifierNotValid); }
    p := p.(clientId := id.value);
    rest := Rest(rest, id.used);
    cursor := cursor + id.used;
    if flags.will {
      var topic := DecodeString(rest);
      if topic.Broken? { return Broken(topic.error); }
      if topic.Panics? { return Panics; }
      rest := Rest(rest, topic.used);
      cursor := cursor + topic.used;
      var payload := DecodeBinary(rest);
      if payload.Broken? { return Broken(payload.error); }
      if payload.Panics? { return Panics; }
      rest := Rest(rest, payload.used);
      cursor := cursor + payload.used;
      p := p.(willTopic := topic.value, willPayload := payload.value);
    } else {
      NothingTaken(rest);
    }
    r := FinishParse(p, rest, cursor);
  }

  lemma NothingTaken(data: seq<Byte>)
    ensures Rest(data, 0) == data
  {
  }

  /** The end of `parse`: user name, password and the consistency of the flags. */
  method FinishParse(p: ConnectFrame, data: seq<Byte>, at: nat) returns (r: Outcome<ConnectFrame>)
    ensures r == ParseCredentials(p, data, at)
  {
    hide DecodeString, DecodeBinary, Rest;
    var cursor, rest, q := at, data, p.(userName := [], password := []);
    NothingTaken(rest);
    if p.flags.user {
      var name := DecodeString(rest);
      if !name.Done? { return Broken(BadUserNameOrPassword); }
      rest := Rest(rest, name.used);
      cursor := cursor + name.used;
      q := q.(userName := name.value);
    }
    if p.flags.password {
      var pwd := DecodeBinary(rest);
      if !pwd.Done? { return Broken(BadUserNameOrPassword); }
      cursor := cursor + pwd.used;
      q := q.(password := pwd.value);
    }
    if p.flags.password && !p.flags.user { return Broken(ProtocolError); }
    var length := FromU32(cursor);
    if length.None? { return Panics; }
    return Done(q.(remaining := cursor), cursor);
  }

  // ---------------------------------------------------------------- parsing what was printed

  /** The packets a builder can give: a field is empty unless its flag is set. */
  ghost predicate Built(p: ConnectFrame) {
    && p.keepAlive <= 0xFFFF && IsText(p.clientId) && IsText(p.willTopic) && IsBinary(p.willPayload)
    && IsText(p.userName) && IsBinary(p.password)
    && (!p.flags.will ==> p.willTopic == [] && p.willPayload == [])
    && (!p.flags.user ==> p.userName == []) && (!p.flags.password ==> p.password == [])
    && (p.flags.password ==> p.flags.user)
    && p.remaining == |Body(p)| <= MAX_REMAINING
  }

  lemma TextTaken(on: bool, s: seq<Byte>, rest: seq<Byte>)
    requires IsText(s) && (!on ==> s == [])
    ensures TakeText(on, Opt(on, s) + rest) == Done(s, |Opt(on, s)|)
    ensures Rest(Opt(on, s) + rest, |Opt(on, s)|) == rest
  {
    StringRoundTrip(s, rest);
  }

  lemma BinaryTaken(on: bool, s: seq<Byte>, rest: seq<Byte>)
    requires IsBinary(s) && (!on ==> s == [])
    ensures TakeBinary(on, Opt(on, s) + rest) == Done(s, |Opt(on, s)|)
    ensures Rest(Opt(on, s) + rest, |Opt(on, s)|) == rest
  {
    BinaryRoundTrip(s, rest);
  }

  lemma CredentialsParse(p: ConnectFrame, q: ConnectFrame, rest: seq<Byte>, at: nat)
    requires Built(p) && q == p.(userName := [], password := [], remaining := 0)
    requires at + |Credentials(p)| == p.remaining
    ensures ParseCredentials(q, Credentials(p) + rest, at) == Done(p, p.remaining)
  {
    hide Body, IsText, IsBinary, Opt, Rest, TakeText, TakeBinary;
    var u, w := Opt(p.flags.user, p.userName), Opt(p.flags.password, p.password);
    assert Credentials(p) + rest == u + (w + rest);
    TextTaken(p.flags.user, p.userName, w + rest);
    BinaryTaken(p.flags.password, p.password, rest);
  }

  lemma WillParse(p: ConnectFrame, q: ConnectFrame, rest: seq<Byte>, at: nat)
    requires Built(p) && q == p.(willTopic := [], willPayload := [], userName := [], password := [], remaining := 0)
    requires at + |WillAndAfter(p)| == p.remaining
    ensures ParseWill(q, WillAndAfter(p) + rest, at) == Done(p, p.remaining)
  {
    hide Body, IsText, IsBinary, Opt, Rest, TakeText, TakeBinary, Credentials, ParseCredentials;
    var on := p.flags.will;
    var t, w := Opt(on, p.willTopic), Opt(on, p.willPayload);
    assert WillAndAfter(p) + rest == t + (w + (Credentials(p) + rest));
    TextTaken(on, p.willTopic, w + (Credentials(p) + rest));
    BinaryTaken(on, p.willPayload, Credentials(p) + rest);
    CredentialsParse(p, q.(willTopic := p.willTopic, willPayload := p.willPayload), rest, at + |t| + |w|);
  }

  lemma HeadIs(p: ConnectFrame, rest: seq<Byte>)
    requires p.keepAlive <= 0xFFFF
    ensures var data := Body(p) + rest;
      && |data| >= 10 && data[..6] == PREAMBLE[..6] && data[6] == 4 && data[7] == ToByte(p.flags)
      && FromBe16(data[8], data[9]) == p.keepAlive
      && data[10..] == Field(p.clientId) + (WillAndAfter(p) + rest)
      && |Body(p)| == 10 + |Field(p.clientId)| + |WillAndAfter(p)|
  {
    var head := PREAMBLE + [ToByte(p.flags)] + Be16(p.keepAlive);
    hide Field, WillAndAfter;
    assert |head| == 10 && Body(p) + rest == head + (Field(p.clientId) + (WillAndAfter(p) + rest));
    assert FromBe16(head[8], head[9]) == p.keepAlive;
    assert head[..6] == PREAMBLE[..6];
    assert (Body(p) + rest)[..6] == head[..6];
  }

  /** A printed body parses back to the packet, and parsing stops where the packet ends. */
  lemma BodyParses(p: ConnectFrame, rest: seq<Byte>)
    requires Built(p)
    ensures Parse(Body(p) + rest) == Done(p, |Body(p)|)
  {
    hide Body, IsText, IsBinary, WillAndAfter, ParseWill, DecodeString;
    HeadIs(p, rest);
    FlagsRoundTrip(p.flags);
    hide ToByte, FromByte;
    StringRoundTrip(p.clientId, WillAndAfter(p) + rest);
    var tail := Field(p.clientId) + (WillAndAfter(p) + rest);
    assert Rest(tail, |Field(p.clientId)|) == WillAndAfter(p) + rest;
    var q := ConnectFrame(0, p.flags, p.keepAlive, p.clientId, [], [], [], []);
    WillParse(p, q, rest, 10 + |Field(p.clientId)|);
  }

  // ---------------------------------------------------------------- bodies that are cut short

  lemma CutTaken(on: bool, s: seq<Byte>, rest: seq<Byte>, n: nat)
    requires IsBinary(s) && n < |Opt(on, s)|
    ensures TakeText(on, (Opt(on, s) + rest)[..n]) == Broken(MalformedPacket)
    ensures TakeBinary(on, (Opt(on, s) + rest)[..n]) == Broken(MalformedPacket)
  {
    CutField(s, n);
    assert (Opt(on, s) + rest)[..n] == Opt(on, s)[..n];
    hide Field;
  }

  lemma CutBehind(head: seq<Byte>, rest: seq<Byte>, n: nat)
    requires |head| <= n <= |head| + |rest|
    ensures (head + rest)[..n] == head + rest[..n - |head|]
  {
  }

  lemma CredentialsCut(p: ConnectFrame, q: ConnectFrame, at: nat, n: nat)
    requires Built(p) && q.flags == p.flags && n < |Credentials(p)|
    ensures ParseCredentials(q, Credentials(p)[..n], at) == Broken(BadUserNameOrPassword)
  {
    hide Body, ValidUtf8, Opt, Rest, TakeText, TakeBinary;
    var u, w := Opt(p.flags.user, p.userName), Opt(p.flags.password, p.password);
    if n < |u| {
      CutTaken(p.flags.user, p.userName, w, n);
    } else {
      CutBehind(u, w, n);
      TextTaken(p.flags.user, p.userName, w[..n - |u|]);
      CutTaken(p.flags.password, p.password, [], n - |u|);
      assert w + [] == w;
    }
  }

  lemma WillCut(p: ConnectFrame, q: ConnectFrame, at: nat, n: nat)
    requires Built(p) && q.flags == p.flags && n < |WillAndAfter(p)|
    ensures ParseWill(q, WillAndAfter(p)[..n], at) ==
      Broken(if n < |WillAndAfter(p)| - |Credentials(p)| then MalformedPacket else BadUserNameOrPassword)
  {
    hide Body, ValidUtf8, Opt, Rest, TakeText, TakeBinary, Credentials, ParseCredentials;
    var on := p.flags.will;
    var t, w, c := Opt(on, p.willTopic), Opt(on, p.willPayload), Credentials(p);
    if n < |t| {
      CutTaken(on, p.willTopic, w + c, n);
    } else {
      var k := n - |t|;
      CutBehind(t, w + c, n);
      TextTaken(on, p.willTopic, (w + c)[..k]);
      if k < |w| {
        CutTaken(on, p.willPayload, c, k);
      } else {
        CutBehind(w, c, k);
        BinaryTaken(on, p.willPayload, c[..k - |w|]);
        CredentialsCut(p, q.(willTopic := p.willTopic, willPayload := p.willPayload), at + |t| + |w|, k - |w|);
      }
    }
  }

  /** No body of a CONNECT that is cut short parses, and where it is cut decides on the error. */
  lemma CutRefused(p: ConnectFrame, n: nat)
    requires Built(p) && n < |Body(p)|
    ensures Parse(Body(p)[..n]) == Broken(
      if n < 10 then MalformedPacket else if n < 12 + |p.clientId| then ClientIdentifierNotValid
      else if n < |Body(p)| - |Credentials(p)| then MalformedPacket else BadUserNameOrPassword)
  {
    hide Body, ValidUtf8, WillAndAfter, ParseWill, DecodeString, Credentials;
    HeadIs(p, []);
    FlagsRoundTrip(p.flags);
    hide ToByte, FromByte;
    var b, tail := Body(p), WillAndAfter(p);
    assert b + [] == b && tail + [] == tail && |Field(p.clientId)| == 2 + |p.clientId|;
    assert |tail| >= |Credentials(p)| by { TailLength(p); }
    hide Field;
    if n >= 10 {
      var k := n - 10;
      assert b[..n][..6] == b[..6] && b[..n][10..] == (Field(p.clientId) + tail)[..k];
      if k < |Field(p.clientId)| {
        CutField(p.clientId, k);
        assert (Field(p.clientId) + tail)[..k] == Field(p.clientId)[..k];
      } else {
        var m := k - |Field(p.clientId)|;
        CutBehind(Field(p.clientId), tail, k);
        StringRoundTrip(p.clientId, tail[..m]);
        assert Rest(Field(p.clientId) + tail[..m], |Field(p.clientId)|) == tail[..m];
        WillCut(p, ConnectFrame(0, p.flags, p.keepAlive, p.clientId, [], [], [], []), 10 + |Field(p.clientId)|, m);
      }
    }
  }

  lemma TailLength(p: ConnectFrame)
    ensures |WillAndAfter(p)| >= |Credentials(p)|
  {
  }

  // ---------------------------------------------------------------- printing what was parsed

  lemma TextPrinted(on: bool, data: seq<Byte>)
    requires TakeText(on, data).Done?
    ensures var d := TakeText(on, data);
      d.used <= |data| && data == Opt(on, d.value) + Rest(data, d.used) && d.used == |Opt(on, d.value)|
  {
    if on { StringPrints(data); }
  }

  lemma BinaryPrinted(on: bool, data: seq<Byte>)
    requires TakeBinary(on, data).Done?
    ensures var d := TakeBinary(on, data);
      d.used <= |data| && data == Opt(on, d.value) + Rest(data, d.used) && d.used == |Opt(on, d.value)|
  {
    if on { BinaryPrints(data); }
  }

  lemma RestOfRest(data: seq<Byte>, n: nat, m: nat)
    requires n <= |data| && m <= |Rest(data, n)|
    ensures n + m <= |data| && Rest(Rest(data, n), m) == Rest(data, n + m)
  {
  }

  lemma CredentialsPrint(p: ConnectFrame, data: seq<Byte>, at: nat)
    requires ParseCredentials(p, data, at).Done?
    ensures var d := ParseCredentials(p, data, at);
      && d.value == p.(userName := d.value.userName, password := d.value.password, remaining := d.used)
      && d.used == at + |Credentials(d.value)| && |Credentials(d.value)| <= |data|
      && data == Credentials(d.value) + Rest(data, |Credentials(d.value)|)
  {
    hide Opt, TakeText, TakeBinary, Rest;
    var u := TakeText(p.flags.user, data);
    TextPrinted(p.flags.user, data);
    var rest := Rest(data, u.used);
    BinaryPrinted(p.flags.password, rest);
    var w := TakeBinary(p.flags.password, rest);
    RestOfRest(data, u.used, w.used);
    assert data == Opt(p.flags.user, u.value) + Opt(p.flags.password, w.value) + Rest(rest, w.used);
  }

  lemma WillPrint(p: ConnectFrame, data: seq<Byte>, at: nat)
    requires ParseWill(p, data, at).Done?
    ensures var d := ParseWill(p, data, at);
      var q := d.value;
      && q.flags == p.flags && q.keepAlive == p.keepAlive && q.clientId == p.clientId && q.remaining == d.used
      && d.used == at + |WillAndAfter(q)| && |WillAndAfter(q)| <= |data|
      && data == WillAndAfter(q) + Rest(data, |WillAndAfter(q)|)
  {
    hide Opt, TakeText, TakeBinary, Credentials, ParseCredentials, Rest;
    var on := p.flags.will;
    TextPrinted(on, data);
    var t := TakeText(on, data);
    var rest := Rest(data, t.used);
    BinaryPrinted(on, rest);
    var w := TakeBinary(on, rest);
    var last := Rest(rest, w.used);
    CredentialsPrint(p.(willTopic := t.value, willPayload := w.value), last, at + t.used + w.used);
    var q := ParseWill(p, data, at).value;
    var k := |Credentials(q)|;
    var tail := Rest(last, k);
    assert data == Opt(on, t.value) + (Opt(on, w.value) + (Credentials(q) + tail));
    assert data == WillAndAfter(q) + tail;
    RestIs(data, WillAndAfter(q), tail);
  }

  lemma RestIs(data: seq<Byte>, front: seq<Byte>, tail: seq<Byte>)
    requires data == front + tail
    ensures Rest(data, |front|) == tail
  {
  }

  /** Printing a packet that was parsed gives back exactly the bytes that were read; bytes behind them
      are ignored. */
  lemma ParsePrints(data: seq<Byte>)
    requires Parse(data).Done?
    ensures var d := Parse(data);
      Body(d.value) == Prefix(data, d.used) && d.used <= |data| && d.value.remaining == d.used
  {
    hide DecodeString, WillAndAfter, ParseWill, Field, ToByte, FromByte, Be16, FromBe16, Body, Rest;
    var rest := data[10..];
    StringPrints(rest);
    var id := DecodeString(rest);
    var p := ConnectFrame(0, FromByte(data[7]), FromBe16(data[8], data[9]), id.value, [], [], [], []);
    WillPrint(p, Rest(rest, id.used), 10 + id.used);
    var q := Parse(data).value;
    var tail := Rest(Rest(rest, id.used), |WillAndAfter(q)|);
    RestOf(rest, id.used);
    assert data[..10] == PREAMBLE + [ToByte(q.flags)] + Be16(q.keepAlive) by {
      Be16Prints(data[8], data[9]);
      ByteRoundTrip(data[7]);
      hide ToByte, FromByte, Be16, FromBe16;
      assert PREAMBLE == data[..7] by { assert PREAMBLE == PREAMBLE[..6] + [4]; }
      assert data[..10] == data[..7] + [data[7]] + [data[8], data[9]];
    }
    JoinBody(data, q, tail);
  }

  lemma RestOf(data: seq<Byte>, n: nat)
    requires n <= |data|
    ensures data == data[..n] + Rest(data, n)
  {
  }

  lemma JoinBody(data: seq<Byte>, q: ConnectFrame, tail: seq<Byte>)
    requires |data| >= 10 && data[..10] == PREAMBLE + [ToByte(q.flags)] + Be16(q.keepAlive)
    requires data[10..] == Field(q.clientId) + (WillAndAfter(q) + tail)
    ensures Body(q) == Prefix(data, 10 + |Field(q.clientId)| + |WillAndAfter(q)|)
    ensures 10 + |Field(q.clientId)| + |WillAndAfter(q)| <= |data|
  {
    hide ToByte, Be16, Field, WillAndAfter;
    assert data == data[..10] + data[10..];
    assert data == Body(q) + tail;
  }

  // ---------------------------------------------------------------- the builder

  datatype ConnectBuilder = ConnectBuilder(
    flags: Option<Flags>, keepAlive: Option<nat>, clientId: Option<seq<Byte>>,
    willTopic: Option<seq<Byte>>, willPayload: Option<seq<Byte>>, userName: Option<seq<Byte>>,
        password: Option<seq<Byte>>)

  const EMPTY: ConnectBuilder := ConnectBuilder(None, None, None, None, None, None, None)

  /** One call of a setter. */
  datatype Setter =
    | SetClientId(id: seq<Byte>) | SetClean(clean: bool) | SetKeepAlive(seconds: nat)
    | SetWill(topic: seq<Byte>, payload: seq<Byte>, qos: Qos, retain: bool)
    | SetUser(name: seq<Byte>) | SetPassword(pwd: seq<Byte>)

  const NONE: Flags := Flags(false, false, false, false, false, false, false, false)

  const DEFAULT: Flags := NONE.(clean := true)

  function FlagsOr(b: ConnectBuilder, default: Flags): Flags { match b.flags case Some(f) => f case None => default }

  /** `will_message` only ever sets bits. */
  function WithWill(f: Flags, qos: Qos, retain: bool): Flags {
    f.(will := true, willQos1 := f.willQos1 || qos.AtLeastOnce?, willQos2 := f.willQos2 || qos.ExactlyOnce?,
       willRetain := f.willRetain || retain)
  }

  function Apply(b: ConnectBuilder, s: Setter): Outcome<ConnectBuilder> {
    match s
    case SetClientId(id) => if |id| > FIELD_LIMIT then Broken(MalformedPacket) else Done(b.(clientId := Some(id)), 0)
    case SetClean(on) =>
      Done(b.(flags := Some(FlagsOr(b, NONE).(clean := on))), 0)
    case SetKeepAlive(n) => Done(b.(keepAlive := Some(n)), 0)
    case SetWill(t, w, q, r) =>
      if |t| > FIELD_LIMIT || |w| > FIELD_LIMIT then Broken(MalformedPacket)
      else Done(b.(willTopic := Some(t), willPayload := Some(w), flags := Some(WithWill(FlagsOr(b, DEFAULT), q, r))), 0)
    case SetUser(u) =>
      if |u| > FIELD_LIMIT then Broken(MalformedPacket)
      else Done(b.(userName := Some(u), flags := Some(FlagsOr(b, DEFAULT).(user := true))), 0)
    case SetPassword(w) =>
      if |w| > FIELD_LIMIT then Broken(MalformedPacket)
      else Done(b.(password := Some(w), flags := Some(FlagsOr(b, DEFAULT).(password := true))), 0)
  }

  function Configure(calls: seq<Setter>): Outcome<ConnectBuilder> {
    if calls == [] then Done(EMPTY, 0)
    else
      var n := |calls| - 1;
      match Configure(calls[..n])
      case Done(b, _) => Apply(b, calls[n])
      case other => other
  }

  function OrEmpty(s: Option<seq<Byte>>): seq<Byte> { match s case Some(v) => v case None => [] }

  /** `validate` and `build` */
  function Build(b: ConnectBuilder): Outcome<ConnectFrame> {
    var f := FlagsOr(b, DEFAULT);
    if f.password && !f.user then Broken(ProtocolError)
    else if f.will && (b.willTopic.None? || b.willPayload.None?) then Broken(MalformedPacket)
    else
      var p := ConnectFrame(0, f, match b.keepAlive { case Some(n) => n case None => 0 }, OrEmpty(b.clientId),
                            OrEmpty(b.willTopic), OrEmpty(b.willPayload), OrEmpty(b.userName), OrEmpty(b.password));
      var remaining := 6 + 1 + 1 + 2 + |Field(p.clientId)|
        + (if f.will then |Field(p.willTopic)| + |Field(p.willPayload)| else 0)
        + (if f.user then |Field(p.userName)| else 0)
        + (if f.password then |Field(p.password)| else 0);
      if remaining > MAX_REMAINING then Panics else Done(p.(remaining := remaining), 0)
  }

  /** What the types of the setters allow. */
  ghost predicate CallOk(s: Setter) {
    && (s.SetClientId? ==> ValidUtf8(s.id)) && (s.SetWill? ==> ValidUtf8(s.topic)) && (s.SetUser? ==> ValidUtf8(s.name))
    && (s.SetKeepAlive? ==> s.seconds <= 0xFFFF)
  }

  ghost predicate TextOk(s: Option<seq<Byte>>) { IsText(OrEmpty(s)) }

  ghost predicate BinaryOk(s: Option<seq<Byte>>) { IsBinary(OrEmpty(s)) }

  /** A flag is set exactly when its field is. */
  ghost predicate BuilderOk(b: ConnectBuilder) {
    var f := FlagsOr(b, DEFAULT);
    && (f.will <==> b.willTopic.Some?) && (f.will <==> b.willPayload.Some?)
    && (f.user <==> b.userName.Some?) && (f.password <==> b.password.Some?)
    && (b.keepAlive.Some? ==> b.keepAlive.value <= 0xFFFF)
    && TextOk(b.clientId) && TextOk(b.willTopic) && BinaryOk(b.willPayload) && TextOk(b.userName)
        && BinaryOk(b.password)
  }

  lemma ApplyOk(b: ConnectBuilder, s: Setter)
    requires BuilderOk(b) && CallOk(s)
    ensures Apply(b, s).Done? ==> BuilderOk(Apply(b, s).value)
  {
    hide ValidUtf8;
  }

  lemma {:induction false} ConfigureOk(calls: seq<Setter>)
    requires forall k :: 0 <= k < |calls| ==> CallOk(calls[k])
    ensures Configure(calls).Done? ==> BuilderOk(Configure(calls).value)
  {
    if calls != [] {
      var n := |calls| - 1;
      ConfigureOk(calls[..n]);
      if Configure(calls[..n]).Done? { ApplyOk(Configure(calls[..n]).value, calls[n]); }
    }
  }

  lemma BodySize(p: ConnectFrame)
    ensures |Body(p)| == 10 + |Field(p.clientId)|
      + (if p.flags.will then |Field(p.willTopic)| + |Field(p.willPayload)| else 0)
      + (if p.flags.user then |Field(p.userName)| else 0) + (if p.flags.password then |Field(p.password)| else 0)
  {
    hide Field, ToByte;
  }

  /** A builder whose setters succeeded gives a packet unless a password has no user name: no other error
      and no failed unwrap can happen. */
  lemma BuildGives(calls: seq<Setter>)
    requires (forall k :: 0 <= k < |calls| ==> CallOk(calls[k])) && Configure(calls).Done?
    ensures var b := Configure(calls).value;
      var r := Build(b);
      && (r.Done? <==> (b.password.Some? ==> b.userName.Some?)) && (!r.Done? ==> r == Broken(ProtocolError))
      && (r.Done? ==> Built(r.value))
  {
    ConfigureOk(calls);
    BuilderBuilds(Configure(calls).value);
    hide Configure, Build, Built;
  }

  lemma BuilderBuilds(b: ConnectBuilder)
    requires BuilderOk(b)
    ensures var r := Build(b);
      && (r.Done? <==> (b.password.Some? ==> b.userName.Some?)) && (!r.Done? ==> r == Broken(ProtocolError))
      && (r.Done? ==> Built(r.value) && r.value.remaining < Framing.BODY_LIMIT)
  {
    TextSizes(b);
    hide IsText, Body, Field, IsBinary;
    assert b.password.Some? && b.userName.None? <==> Build(b) == Broken(ProtocolError);
    if Build(b).Done? {
      BodySize(Build(b).value);
      assert Built(Build(b).value);
    }
  }

  lemma TextSizes(b: ConnectBuilder)
    requires BuilderOk(b)
    ensures |Field(OrEmpty(b.clientId))| <= 2 + FIELD_LIMIT && |Field(OrEmpty(b.userName))| <= 2 + FIELD_LIMIT
    ensures |Field(OrEmpty(b.willTopic))| <= 2 + FIELD_LIMIT && |Field(OrEmpty(b.willPayload))| <= 2 + FIELD_LIMIT
    ensures |Field(OrEmpty(b.password))| <= 2 + FIELD_LIMIT
    ensures IsText([]) && IsBinary([])
  {
  }

  /** Printed, sent through a stream and parsed, the packet is what it was. */
  ghost predicate Travels(p: ConnectFrame, rest: seq<Byte>) {
    && |Print(p)| == SizeOf(p)
    && Framing.First(Print(p) + rest)
       == Framing.Take(Framing.Complete(Framing.RawPacket(CONNECT_HEADER, Framing.Normal(Body(p)))), SizeOf(p))
    && Parse(Body(p)) == Done(p, |Body(p)|)
  }

  /** Every CONNECT that builds survives; none is too long for the packet builder. */
  lemma ConnectRoundTrip(calls: seq<Setter>, rest: seq<Byte>)
    requires forall k :: 0 <= k < |calls| ==> CallOk(calls[k])
    requires Configure(calls).Done? && Build(Configure(calls).value).Done?
    ensures Travels(Build(Configure(calls).value).value, rest)
  {
    hide Configure, Build, Body, Parse, Framing.First, BuilderOk;
    ConfigureOk(calls);
    BuilderBuilds(Configure(calls).value);
    BuiltTravels(Build(Configure(calls).value).value, rest);
  }

  lemma BuiltTravels(p: ConnectFrame, rest: seq<Byte>)
    requires Built(p) && p.remaining < Framing.BODY_LIMIT
    ensures Travels(p, rest)
  {
    assert p.remaining == |Body(p)|;
    hide Body, Parse, Framing.First, Built;
    BodyParses(p, []);
    assert Body(p) + [] == Body(p);
    var f := Framing.Frame(CONNECT_HEADER, Body(p));
    assert Framing.Print(f) == Print(p);
    Framing.PrintReads(f, rest);
  }

  // ---------------------------------------------------------------- what the setters mean

  /** The bits of the flags byte that `will_message` may set. */
  datatype WillBit = Qos1Bit | Qos2Bit | RetainBit

  predicate Asks(s: Setter, b: WillBit) {
    s.SetWill? &&
    match b case Qos1Bit => s.qos.AtLeastOnce? case Qos2Bit => s.qos.ExactlyOnce? case RetainBit => s.retain
  }

  ghost predicate EverAsked(calls: seq<Setter>, b: WillBit) { exists k :: 0 <= k < |calls| && Asks(calls[k], b) }

  function LastWill(calls: seq<Setter>): (r: Option<Setter>)
    ensures r.Some? ==> r.value.SetWill?
  {
    if calls == [] then None
    else if calls[|calls| - 1].SetWill? then Some(calls[|calls| - 1]) else LastWill(calls[..|calls| - 1])
  }

  predicate LastClean(calls: seq<Setter>) {
    if calls == [] then true
    else if calls[|calls| - 1].SetClean? then calls[|calls| - 1].clean else LastClean(calls[..|calls| - 1])
  }

  /** `will_qos` of a packet. */
  function WillQos(f: Flags): Qos {
    if f.willQos1 && !f.willQos2 then AtLeastOnce else if f.willQos2 && !f.willQos1 then ExactlyOnce else AtMostOnce
  }

  /** What one setter does to the flags. */
  lemma ApplyFlags(b: ConnectBuilder, s: Setter)
    requires Apply(b, s).Done?
    ensures var f, g := FlagsOr(b, DEFAULT), FlagsOr(Apply(b, s).value, DEFAULT);
      && g.clean == (if s.SetClean? then s.clean else f.clean) && g.will == (f.will || s.SetWill?)
      && g.willQos1 == (f.willQos1 || Asks(s, Qos1Bit)) && g.willQos2 == (f.willQos2 || Asks(s, Qos2Bit))
      && g.willRetain == (f.willRetain || Asks(s, RetainBit))
  {
  }

  lemma {:induction false} FlagsMean(calls: seq<Setter>)
    requires Configure(calls).Done?
    ensures var f := FlagsOr(Configure(calls).value, DEFAULT);
      && f.clean == LastClean(calls)
      && (f.will <==> LastWill(calls).Some?)
      && (f.willQos1 <==> EverAsked(calls, Qos1Bit)) && (f.willQos2 <==> EverAsked(calls, Qos2Bit))
      && (f.willRetain <==> EverAsked(calls, RetainBit))
  {
    if calls != [] {
      var n := |calls| - 1;
      FlagsMean(calls[..n]);
      ApplyFlags(Configure(calls[..n]).value, calls[n]);
      AskedLast(calls, Qos1Bit);
      AskedLast(calls, Qos2Bit);
      AskedLast(calls, RetainBit);
      hide EverAsked, Apply, Asks, FlagsOr;
    }
  }

  lemma AskedLast(calls: seq<Setter>, b: WillBit)
    requires calls != []
    ensures EverAsked(calls, b) <==> EverAsked(calls[..|calls| - 1], b) || Asks(calls[|calls| - 1], b)
  {
    var n := |calls| - 1;
    if EverAsked(calls[..n], b) {
      var k :| 0 <= k < n && Asks(calls[..n][k], b);
      assert Asks(calls[k], b);
    }
    if EverAsked(calls, b) && !Asks(calls[n], b) {
      var k :| 0 <= k < |calls| && Asks(calls[k], b);
      assert Asks(calls[..n][k], b);
    }
  }

  /** The will QoS of the packet is the one asked for last exactly when the earlier calls left no other
      bit behind: `will_message` sets bits and never clears them. */
  lemma WillQosIff(calls: seq<Setter>)
    requires Configure(calls).Done? && LastWill(calls).Some?
    ensures WillQos(FlagsOr(Configure(calls).value, DEFAULT)) == LastWill(calls).value.qos <==>
      match LastWill(calls).value.qos {
        case AtMostOnce => EverAsked(calls, Qos1Bit) <==> EverAsked(calls, Qos2Bit)
        case AtLeastOnce => !EverAsked(calls, Qos2Bit)
        case ExactlyOnce => !EverAsked(calls, Qos1Bit)
      }
  {
    FlagsMean(calls);
    LastIsAsked(calls);
    hide EverAsked, Configure;
  }

  /** The will is retained as asked for last exactly when that was yes or no call ever said yes. */
  lemma WillRetainIff(calls: seq<Setter>)
    requires Configure(calls).Done? && LastWill(calls).Some?
    ensures FlagsOr(Configure(calls).value, DEFAULT).willRetain == LastWill(calls).value.retain <==>
      LastWill(calls).value.retain || !EverAsked(calls, RetainBit)
  {
    FlagsMean(calls);
    LastIsAsked(calls);
    hide EverAsked, Configure;
  }

  lemma {:induction false} LastIsAsked(calls: seq<Setter>)
    requires LastWill(calls).Some?
    ensures forall b :: Asks(LastWill(calls).value, b) ==> EverAsked(calls, b)
  {
    var n := |calls| - 1;
    if calls[n].SetWill? {
      forall b | Asks(calls[n], b) ensures EverAsked(calls, b) {}
    } else {
      LastIsAsked(calls[..n]);
      forall b | Asks(LastWill(calls).value, b) ensures EverAsked(calls, b) { AskedLast(calls, b); }
    }
  }

  /** Asking for QoS 1 and then for QoS 2 builds a CONNECT whose will has QoS 0. */
  lemma WillQosLost()
    ensures var calls := [SetWill([116], [], AtLeastOnce, false), SetWill([116], [], ExactlyOnce, false)];
      Configure(calls).Done? && WillQos(FlagsOr(Configure(calls).value, DEFAULT)) == AtMostOnce
  {
    var a, b := SetWill([116], [], AtLeastOnce, false), SetWill([116], [], ExactlyOnce, false);
    assert [a, b][..1] == [a] && [a][..0] == [];
    assert Configure([]) == Done(EMPTY, 0);
    assert Configure([a]) == Apply(EMPTY, a);
    assert Configure([a, b]) == Apply(Configure([a]).value, b);
  }

  /** A will that is retained although the last call said it is not. */
  lemma WillRetainKept()
    ensures var calls := [SetWill([116], [], AtMostOnce, true), SetWill([116], [], AtMostOnce, false)];
      Configure(calls).Done? && FlagsOr(Configure(calls).value, DEFAULT).willRetain
  {
    var a, b := SetWill([116], [], AtMostOnce, true), SetWill([116], [], AtMostOnce, false);
    assert [a, b][..1] == [a] && [a][..0] == [];
    assert Configure([]) == Done(EMPTY, 0);
    assert Configure([a]) == Apply(EMPTY, a);
    assert Configure([a, b]) == Apply(Configure([a]).value, b);
  }

  // ---------------------------------------------------------------- the bytes

  /** The connect flags byte as section 3.1.2.3 of MQTT 3.1.1 has it. */
  lemma FlagsByte(f: Flags)
    ensures ToByte(f) ==
      (if f.user then 128 else 0) + (if f.password then 64 else 0) + (if f.willRetain then 32 else 0)
      + (if f.willQos2 then 16 else 0) + (if f.willQos1 then 8 else 0) + (if f.will then 4 else 0)
      + (if f.clean then 2 else 0) + (if f.reserved then 1 else 0)
  {
  }

  /** The fixed part of the body byte by byte: protocol name and level, the flags, keep alive and the length of the
      client identifier, high byte first, and behind it what the flags announce in the order of section 3.1.3. */
  lemma BodyLayout(p: ConnectFrame)
    requires p.keepAlive <= 65535 && |p.clientId| <= 65535
    ensures var b, n := Body(p), |p.clientId|;
      && b[..7] == [0, 4, 77, 81, 84, 84, 4] && b[7] == ToByte(p.flags)
      && b[8] == p.keepAlive / 256 && b[9] == p.keepAlive % 256
      && b[10] == n / 256 && b[11] == n % 256 && b[12..12 + n] == p.clientId
      && b[12 + n..] ==
         (if p.flags.will then Field(p.willTopic) + Field(p.willPayload) else [])
         + (if p.flags.user then Field(p.userName) else [])
         + (if p.flags.password then Field(p.password) else [])
  {
    hide ToByte;
    var tail := WillAndAfter(p);
    assert tail == (if p.flags.will then Field(p.willTopic) + Field(p.willPayload) else [])
      + (if p.flags.user then Field(p.userName) else []) + (if p.flags.password then Field(p.password) else []);
    hide WillAndAfter;
    assert Body(p) == [0, 4, 77, 81, 84, 84, 4] + [ToByte(p.flags)] + Be16(p.keepAlive) + Be16(|p.clientId|)
      + p.clientId + tail;
    hide Body;
  }
}
