/** From a list of packets through a byte stream and back. */
module Wire {
  import opened Packets
  import opened Fields
  import Framing
  import ConnectCodec
  import PublishCodec
  import P = Properties
  import Vbi

  datatype WirePacket =
    | ConnectFrame(connect: ConnectCodec.ConnectFrame)
    | PublishFrame(publish: PublishCodec.PublishFrame)

  /** Packets that a builder gave and that are short enough for the packet builder. */
  ghost predicate Sendable(p: WirePacket) {
    match p
    case ConnectFrame(c) => ConnectCodec.Built(c) && c.remaining < Framing.BODY_LIMIT
    case PublishFrame(q) => PublishCodec.Built(q) && q.remaining < Framing.BODY_LIMIT
  }

  function Print(p: WirePacket): seq<Byte> {
    match p
    case ConnectFrame(c) => ConnectCodec.Print(c)
    case PublishFrame(q) => PublishCodec.Print(q)
  }

  function PrintAll(ps: seq<WirePacket>): seq<Byte> {
    if ps == [] then [] else Print(ps[0]) + PrintAll(ps[1..])
  }

  function FrameOf(p: WirePacket): Framing.Frame {
    match p
    case ConnectFrame(c) => Framing.Frame(ConnectCodec.CONNECT_HEADER, ConnectCodec.Body(c))
    case PublishFrame(q) => Framing.Frame(q.header, PublishCodec.Body(q))
  }

  /** The parser for a packet type, given the data in the form that type comes in. */
  function ParseRaw(raw: Framing.RawPacket): Option<WirePacket> {
    if Framing.PacketType(raw) == 1 then
      match ConnectCodec.Parse(raw.data.bytes) case Done(c, _) => Some(ConnectFrame(c)) case _ => None
    else if Framing.PacketType(raw) == 3 && raw.data.PublishData? then
      match PublishCodec.Parse(raw.fixedHeader % 16, raw.data.bytes) case Done(q,
          _) => Some(PublishFrame(q)) case _ => None
    else None
  }

  lemma OneTravels(p: WirePacket)
    requires Sendable(p)
    ensures var f := FrameOf(p);
      && Framing.Print(f) == Print(p) && |f.body| < Framing.BODY_LIMIT
      && ParseRaw(Framing.Raw(f.header, f.body)) == Some(p)
  {
    match p {
      case ConnectFrame(c) =>
        assert c.remaining == |ConnectCodec.Body(c)|;
        hide ConnectCodec.Body, ConnectCodec.Parse, ConnectCodec.Built;
        ConnectCodec.BuiltTravels(c, []);
      case PublishFrame(q) =>
        assert q.remaining == |PublishCodec.Body(q)|;
        assert q.header / 16 == 3;
        hide PublishCodec.Body, PublishCodec.Parse, PublishCodec.Built;
        PublishCodec.BuiltTravels(q, []);
    }
  }

  function FramesOf(ps: seq<WirePacket>): seq<Framing.Frame> {
    if ps == [] then [] else [FrameOf(ps[0])] + FramesOf(ps[1..])
  }

  lemma {:induction false} AllTravel(ps: seq<WirePacket>)
    requires forall k :: 0 <= k < |ps| ==> Sendable(ps[k])
    ensures var fs := FramesOf(ps);
      && |fs| == |ps| && Framing.Framable(fs) && Framing.PrintAll(fs) == PrintAll(ps)
      && forall k :: 0 <= k < |ps| ==> ParseRaw(Framing.Raw(fs[k].header, fs[k].body)) == Some(ps[k])
    decreases |ps|
  {
    if ps != [] {
      AllTravel(ps[1..]);
      OneTravels(ps[0]);
      hide FrameOf, Print, Framing.Print, ParseRaw, Framing.Raw, Sendable;
      assert FramesOf(ps)[1..] == FramesOf(ps[1..]);
    }
  }

  /** The results of a stream of printed packets. */
  ghost predicate Carries(results: seq<Framing.BuildResult>, ps: seq<WirePacket>) {
    && |results| == |ps|
    && forall k :: 0 <= k < |ps| ==> results[k].Complete? && ParseRaw(results[k].packet) == Some(ps[k])
  }

  lemma StreamCarries(ps: seq<WirePacket>)
    requires forall k :: 0 <= k < |ps| ==> Sendable(ps[k])
    ensures Carries(Framing.Frames(PrintAll(ps)).outs, ps)
  {
    hide PrintAll, FramesOf, ParseRaw, Sendable, Framing.Raw, Framing.Frames;
    AllTravel(ps);
    Framing.StreamRoundTrip(FramesOf(ps));
  }

  /** Whatever packets are sent, and however their bytes are cut on the way, the same packets are parsed
      at the other end, in the same order. */
  method Transmit(ps: seq<WirePacket>, chunks: seq<seq<Byte>>) returns (received: seq<WirePacket>)
    requires forall k :: 0 <= k < |ps| ==> Sendable(ps[k])
    requires Framing.Flatten(chunks) == PrintAll(ps)
    ensures received == ps
  {
    hide PrintAll, ParseRaw, Framing.Flatten, Sendable, Framing.Frames;
    StreamCarries(ps);
    var results := Framing.Receive(chunks);
    received := [];
    for i := 0 to |results|
      invariant received == ps[..i]
    {
      if results[i].Complete? {
        var p := ParseRaw(results[i].packet);
        if p.Some? { received := received + [p.value]; }
      }
    }
  }

  // ---------------------------------------------------------------- the size the engine goes by

  /** The engine measures a v3.1.1 PUBLISH by the bytes it prints into. */
  lemma PublishSize(pub: Publish, p: PublishCodec.PublishFrame)
    requires PublishCodec.Built(p)
    requires p.topic == pub.topic && p.payload == pub.payload && (p.pid.Some? <==> pub.qos != AtMostOnce)
    ensures Size(V3_1_1, PublishPacket(pub)) == |PublishCodec.Print(p)|
  {
    assert p.remaining == |PublishCodec.Body(p)| == PublishRemaining(V3_1_1, pub);
    Vbi.EncodeSize(p.remaining);
    hide PublishCodec.Body, Vbi.Encode;
  }

  /** A v5.0 PUBLISH has in addition its properties behind their total size; a topic alias is one of them. */
  lemma PublishSize5(pub: Publish, props: seq<P.Property>)
    requires P.AllValid(props) && P.TotalSizeOf(props) == pub.otherProps
    requires pub.alias.Some? ==> 1 <= pub.alias.value <= 65535
    requires pub.otherProps + 3 <= MAX_REMAINING
    ensures var all := if pub.alias.Some? then [P.Property(35, P.Number(pub.alias.value))] + props else props;
      PublishRemaining(V5_0, pub) ==
        |Field(pub.topic)| + (if pub.qos == AtMostOnce then 0 else 2)
        + |Vbi.Encode(P.TotalSizeOf(all))| + |P.PrintAll(all)| + |pub.payload|
  {
    var all := if pub.alias.Some? then [P.Property(35, P.Number(pub.alias.value))] + props else props;
    if pub.alias.Some? {
      assert all[1..] == props;
      assert P.Valid(all[0]);
    }
    P.AllRoundTrip(all);
    assert P.TotalSizeOf(all) == pub.otherProps + if pub.alias.Some? then 3 else 0;
    Vbi.EncodeSize(P.TotalSizeOf(all));
    hide P.PrintAll, Vbi.Encode, P.TotalSizeOf;
  }
}
