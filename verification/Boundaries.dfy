/** Where a peer or a new session meets an edge of the engine: the exact condition of each, and an input. */
module Boundaries {
  import opened Packets
  import opened TopicAlias
  import opened Engine
  import opened Duplicates
  import opened Store
  import opened Traffic
  import opened Frames
  import opened Receptions
  import opened Settings
  import opened Sendings

  // ---------------------------------------------------------------- a topic alias maximum of 0

  /** Limits of 0, which are not allowed. */
  predicate ZeroLimit(props: seq<Prop>) { ReceiveMaximum(0) in props || MaximumPacketSize(0) in props }

  lemma {:induction false} PropsPanicIff(c: Conn, props: seq<Prop>, connect: bool)
    ensures ApplyReceivedProps(c, props, connect).c.panicked <==>
      c.panicked || (if connect then TopicAliasMaximum(0) in props else ZeroLimit(props))
    decreases |props|
  {
    if props != [] {
      var d := ReceivedProp(c, props[0], connect).c;
      assert d.panicked <==>
        c.panicked || (if connect then props[0] == TopicAliasMaximum(0) else ZeroLimit([props[0]]));
      hide ReceivedProp;
      PropsPanicIff(d, props[1..], connect);
      assert props == [props[0]] + props[1..];
    }
  }

  /** A received v5.0 CONNECT fails the allocator's assert exactly if it is taken up and announces a topic
      alias maximum of 0. */
  lemma ConnectPanicsIff(c: Conn, p: Packet)
    requires IsV5(c) && !c.panicked && p.Connect?
    ensures ReceiveConnect(c, p).c.panicked <==> c.status.Disconnected? && TopicAliasMaximum(0) in p.props
  {
    if c.status.Disconnected? {
      var c1 := Initialize(c, false).(status := Connecting);
      var c2 := if p.keepAlive > 0 then c1.(timers := c1.timers.(recvTimeoutMs := p.keepAlive * 1000 * 3 / 2)) else c1;
      PropsPanicIff(if p.clean then ClearSession(c2) else c2, p.props, true);
      hide ApplyReceivedProps;
    }
  }

  // ---------------------------------------------------------------- a PUBLISH with identifier 0

  lemma AcceptPanicsIff(c: Conn, p: Publish, respond: bool, again: bool)
    requires !c.panicked
    ensures AcceptPublish(c, p, respond, again).c.panicked <==> respond && p.pid == 0
  {
  }

  lemma TopicPanicsIff(c: Conn, p: Publish, respond: bool, again: bool)
    requires !c.panicked
    ensures ReceiveTopic(c, p, respond, again).c.panicked <==> Understood(c, p) && respond && p.pid == 0
  {
    hide AcceptPublish;
    AcceptPanicsIff(c, p, respond, again);
    if p.alias.Some? && RecvAliasValid(c, p.alias.value) {
      var m := c.alias.recv.value;
      AcceptPanicsIff(c.(alias := c.alias.(recv := Some(m.(aliases := m.aliases[p.alias.value := p.topic])))), p,
          respond, again);
      if RecvGet(m, p.alias.value).Some? {
        AcceptPanicsIff(c, p.(topic := RecvGet(m, p.alias.value).value, extracted := true), respond, again);
      }
    }
  }

  /** It gets past quota and topic checks and is answered automatically. */
  predicate Answered(c: Conn, p: Publish) {
    && !p.qos.AtMostOnce? && IsConnected(c) && Understood(c, p)
    && !(c.flow.recvMax.Some? && |c.flow.publishRecv| >= c.flow.recvMax.value)
    && (c.opt.autoPub || (p.qos.ExactlyOnce? && p.pid in c.session.handled))
  }

  /** A received v5.0 PUBLISH makes the engine panic exactly if it carries identifier 0, gets past quota and topic
      checks and is answered automatically. */
  lemma PublishPanicsIff5(c: Conn, p: Publish)
    requires !c.panicked
    ensures ReceivePublishV5(c, p).c.panicked <==> p.pid == 0 && Answered(c, p)
  {
    hide ReceiveTopic;
    var c1 := c.(flow := c.flow.(publishRecv := c.flow.publishRecv + {p.pid}));
    var c2 := c1.(session := c1.session.(handled := c1.session.handled + {p.pid}));
    var again := p.pid in c.session.handled;
    TopicPanicsIff(c, p, false, false);
    TopicPanicsIff(c1, p, c.opt.autoPub && IsConnected(c), false);
    TopicPanicsIff(c2, p, IsConnected(c) && (c.opt.autoPub || again), again);
  }

  // ---------------------------------------------------------------- a v5.0 PUBLISH that is taken and lost

  lemma TakenSends(c: Conn, p: Publish)
    requires IsV5(c) && !p.qos.AtMostOnce? && Admitted(c, p) && !Unresolved(c, p) && !TurnedAway(c, p)
    ensures Sends(SendPublishV5(c, p).ev) == [] <==> !IsConnected(c)
  {
    hide SendPublishV5, OnWire, GivenBack, BadAlias, Sends, Visible;
    Sendings.PublishV5Shows(c, p);
    SendsVisible(SendPublishV5(c, p).ev);
    FirstSent(PublishPacket(OnWire(c, p)), GivenBack(c, p), Restart(c));
  }

  lemma FirstSent(p: Packet, release: Option<nat>, rest: seq<Event>)
    ensures Sends([]) == [] && Sends([RequestSendPacket(p, release)] + rest) != []
  {
  }

  /** A v5.0 QoS 1 or 2 PUBLISH that is not turned away is neither sent nor stored exactly if there is no
      connection and it is not stored. */
  lemma PublishLostIff5(c: Conn, p: Publish)
    requires IsV5(c) && !p.qos.AtMostOnce? && Admitted(c, p) && !Unresolved(c, p) && !TurnedAway(c, p)
    ensures Sends(SendPublishV5(c, p).ev) == [] && SendPublishV5(c, p).c.session.store == c.session.store <==>
      !IsConnected(c) && !Kept(c, p)
  {
    hide SendPublishV5, Step;
    TakenSends(c, p);
    PublishPasses(c, p);
    hide SendPublishV5, Sends, Admitted, BadAlias, QuotaFull, Has, ForStore;
  }

  // ---------------------------------------------------------------- a new session and the duplicate filter

  ghost predicate Told(ev: seq<Event>, id: nat) { exists k :: 0 <= k < |ev| && Tells(ev[k], id) }

  /** A PUBLISH that no check but the duplicate filter can hold back. */
  predicate Unhindered(c: Conn, p: Publish) {
    && p.qos.ExactlyOnce? && p.topic != [] && p.alias.None?
    && (IsV5(c) && c.flow.recvMax.Some? ==> |c.flow.publishRecv| < c.flow.recvMax.value)
  }

  function ReceivePublish(c: Conn, p: Publish): R { ReceivePacket(c, PublishPacket(p)) }

  /** Nothing but the filter decides. */
  lemma ToldIff(c: Conn, p: Publish)
    requires Unhindered(c, p)
    ensures Told(ReceivePublish(c, p).ev, p.pid) <==> p.pid !in c.session.handled
  {
    var ev := ReceivePublish(c, p).ev;
    var again := p.pid in c.session.handled;
    PacketShows(c, PublishPacket(p));
    AnswersHandNothing(c, PublishPacket(p));
    HandedVisible(ev);
    if again {
      NothingHanded(Visible(ev));
      NoneTold(ev);
    } else {
      HandedLast(Answers(c, PublishPacket(p)) + Stirred(c, PublishPacket(p)), PublishPacket(p));
      PublishEnds(c, p);
      ToldLast(ev, p);
    }
    hide ReceivePublish, Handed, Visible, Answers, Stirred;
  }

  /** A server that takes up a clean CONNECT hands over the first QoS 2 PUBLISH of an identifier in the new
      session exactly if the old session had not left the identifier in the filter. */
  lemma NewServerSession(c: Conn, hello: Packet, p: Publish)
    requires hello.Connect? && hello.clean && c.status.Disconnected? && !c.version.Undetermined?
    ensures var d := ReceiveConnect(c, hello).c;
      Unhindered(d, p) ==> (Told(ReceivePublish(d, p).ev, p.pid) <==> p.pid !in c.session.handled)
  {
    var d := ReceiveConnect(c, hello).c;
    assert ReceivePacket(c, hello) == ReceiveConnect(c, hello) by { hide ReceiveConnect; }
    PacketTerms(c, hello);
    ReceivingMemory(c, hello);
    assert TermsOf(d).handled == d.session.handled;
    hide ReceiveConnect, ReceivePacket, AfterReceiving, TermsOf;
    if Unhindered(d, p) { ToldIff(d, p); }
    hide ReceivePublish;
  }

  /** The same for a client that receives a CONNACK without session. */
  lemma NewClientSession(c: Conn, ack: Packet, p: Publish)
    requires ack.Connack? && ack.accepted && !ack.sessionPresent
    ensures var d := ReceiveConnack(c, ack).c;
      Unhindered(d, p) ==> (Told(ReceivePublish(d, p).ev, p.pid) <==> p.pid !in c.session.handled)
  {
    var d := ReceiveConnack(c, ack).c;
    assert ReceivePacket(c, ack) == ReceiveConnack(c, ack) by { hide ReceiveConnack; }
    PacketTerms(c, ack);
    ReceivingMemory(c, ack);
    assert TermsOf(d).handled == d.session.handled;
    hide ReceiveConnack, ReceivePacket, AfterReceiving, TermsOf;
    if Unhindered(d, p) { ToldIff(d, p); }
    hide ReceivePublish;
  }
}
