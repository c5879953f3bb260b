/** What a call puts on the wire and what it hands to the host, for a v3.1.1 connection. */
module Traffic {
  import opened Packets
  import opened Store
  import opened Engine
  import opened Tokens

  /** The packets that `ev` asks the host to send, in order. */
  function Sends(ev: seq<Event>): seq<Packet> {
    if ev == [] then []
    else (if ev[0].RequestSendPacket? then [ev[0].packet] else []) + Sends(ev[1..])
  }

  /** A message, however often it is retransmitted. */
  function Content(p: Publish): Publish { p.(dup := false) }

  /** The QoS 2 messages that `ev` hands to the host, in order. */
  function Notices(ev: seq<Event>): seq<Publish> {
    if ev == [] then []
    else (if ev[0].NotifyPacketReceived? && IsQos2(ev[0].packet) then [Content(ev[0].packet.pub)] else [])
         + Notices(ev[1..])
  }

  ghost predicate Emits(ev: seq<Event>, ps: seq<Packet>, ns: seq<Publish>) {
    Sends(ev) == ps && Notices(ev) == ns
  }

  lemma {:induction false} SendsAppend(e1: seq<Event>, e2: seq<Event>)
    ensures Sends(e1 + e2) == Sends(e1) + Sends(e2)
  {
    if e1 == [] {
      assert e1 + e2 == e2;
    } else {
      assert (e1 + e2)[1..] == e1[1..] + e2;
      SendsAppend(e1[1..], e2);
      var head := if e1[0].RequestSendPacket? then [e1[0].packet] else [];
      assert Sends(e1 + e2) == head + Sends(e1[1..] + e2);
    }
  }

  lemma {:induction false} NoticesAppend(e1: seq<Event>, e2: seq<Event>)
    ensures Notices(e1 + e2) == Notices(e1) + Notices(e2)
  {
    if e1 == [] {
      assert e1 + e2 == e2;
    } else {
      assert (e1 + e2)[1..] == e1[1..] + e2;
      NoticesAppend(e1[1..], e2);
      var head := if e1[0].NotifyPacketReceived? && IsQos2(e1[0].packet) then [Content(e1[0].packet.pub)] else [];
      assert Notices(e1 + e2) == head + Notices(e1[1..] + e2);
    }
  }

  lemma Both(e1: seq<Event>, ps1: seq<Packet>, ns1: seq<Publish>, e2: seq<Event>, ps2: seq<Packet>, ns2: seq<Publish>)
    requires Emits(e1, ps1, ns1) && Emits(e2, ps2, ns2)
    ensures Emits(e1 + e2, ps1 + ps2, ns1 + ns2)
  {
    SendsAppend(e1, e2);
    NoticesAppend(e1, e2);
  }

  lemma One(e: Event)
    ensures Emits([e], if e.RequestSendPacket? then [e.packet] else [],
                  if e.NotifyPacketReceived? && IsQos2(e.packet) then [Content(e.packet.pub)] else [])
  {
    assert [e][1..] == [];
  }

  /** Neither sent nor handed over. */
  lemma {:induction false} Mute(ev: seq<Event>)
    requires forall k :: 0 <= k < |ev| ==> !ev[k].RequestSendPacket? && !ev[k].NotifyPacketReceived?
    ensures Emits(ev, [], [])
  {
    if ev != [] { Mute(ev[1..]); }
  }

  lemma SendNowEmits(c: Conn, p: Packet, release: Option<nat>)
    ensures Emits(SendNow(c, p, release).ev, [p], [])
  {
    One(RequestSendPacket(p, release));
    Mute(PostSend(c).ev);
    Both([RequestSendPacket(p, release)], [p], [], PostSend(c).ev, [], []);
  }

  function NoticeOf(p: Packet): seq<Publish> { if IsQos2(p) then [Content(p.pub)] else [] }

  lemma DeliverEmits(c: Conn, p: Packet)
    ensures Emits(Deliver(c, p).ev, [], NoticeOf(p))
  {
    Mute(RefreshRecv(c).ev);
    One(NotifyPacketReceived(p));
    Both(RefreshRecv(c).ev, [], [], [NotifyPacketReceived(p)], [], NoticeOf(p));
  }

  lemma FinishEmits(c: Conn, id: nat, p: Packet, counted: bool)
    requires !IsQos2(p)
    ensures Emits(Finish(c, id, p, counted).ev, [], [])
  {
    var r := Release(c, id);
    Mute(r.ev);
    DeliverEmits(if counted then FreeSlot(r.c) else r.c, p);
    Both(r.ev, [], [], Deliver(if counted then FreeSlot(r.c) else r.c, p).ev, [], []);
  }

  function StoredPackets(s: seq<StorePacket>): seq<Packet> {
    if s == [] then [] else [ToPacket(s[0])] + StoredPackets(s[1..])
  }

  lemma {:induction false} ResendEmits(c: Conn, s: seq<StorePacket>)
    requires forall k :: 0 <= k < |s| ==> Fits(c, s[k])
    ensures Emits(Resend(c, s).ev, StoredPackets(s), [])
    decreases |s|
  {
    if s != [] {
      ResendEmits(c, s[1..]);
      One(RequestSendPacket(ToPacket(s[0]), None));
      Both([RequestSendPacket(ToPacket(s[0]), None)], [ToPacket(s[0])], [], Resend(c, s[1..]).ev,
          StoredPackets(s[1..]), []);
    }
  }

  // ---------------------------------------------------------------- operations of v3.1.1

  lemma SendWhenConnectedEmits(c: Conn, p: Packet)
    requires c.version.V3_1_1?
    ensures Emits(SendWhenConnected(c, p).ev, if IsConnected(c) then [p] else [], [])
  {
    if IsConnected(c) { SendNowEmits(AfterResponse(c, p), p, None); } else { Mute(SendWhenConnected(c, p).ev); }
  }

  /** A response followed by a delivery or by a mere timer refresh. */
  lemma AnswerEmits(r: R, ps: seq<Packet>, p: Packet, again: bool)
    requires Emits(r.ev, ps, [])
    ensures Emits(Before(r.ev, if again then RefreshRecv(r.c) else Deliver(r.c, p)).ev, ps, if again then []
        else NoticeOf(p))
  {
    Mute(RefreshRecv(r.c).ev);
    DeliverEmits(r.c, p);
    if again {
      Both(r.ev, ps, [], RefreshRecv(r.c).ev, [], []);
    } else {
      Both(r.ev, ps, [], Deliver(r.c, p).ev, [], NoticeOf(p));
    }
    assert ps + [] == ps;
  }

  lemma ReceivePublishEmits(c: Conn, p: Publish)
    requires c.version.V3_1_1? && IsConnected(c) && c.opt.autoPub && (!p.qos.AtMostOnce? ==> p.pid != 0)
    ensures Emits(ReceivePublishV3(c, p).ev,
                  match p.qos case AtMostOnce => [] case AtLeastOnce => [Puback(p.pid, None, 2)]
                              case ExactlyOnce => [Pubrec(p.pid, None, 2)],
                  if p.qos.ExactlyOnce? && p.pid !in c.session.handled then [Content(p)] else [])
  {
    match p.qos
    case AtMostOnce => DeliverEmits(c, PublishPacket(p));
    case AtLeastOnce =>
      SendWhenConnectedEmits(c, Puback(p.pid, None, 2));
      AnswerEmits(Respond(c, Puback(p.pid, None, 2)), [Puback(p.pid, None, 2)], PublishPacket(p), false);
    case ExactlyOnce =>
      var c1 := c.(session := c.session.(handled := c.session.handled + {p.pid}));
      SendWhenConnectedEmits(c1, Pubrec(p.pid, None, 2));
      AnswerEmits(Respond(c1, Pubrec(p.pid, None, 2)), [Pubrec(p.pid, None, 2)], PublishPacket(p),
          p.pid in c.session.handled);
  }

  lemma ReceivePubrelEmits(c: Conn, p: Packet)
    requires p.Pubrel? && c.version.V3_1_1? && IsConnected(c) && c.opt.autoPub && p.pid != 0
    ensures Emits(ReceivePubrel(c, p).ev, [Pubcomp(p.pid, None, 2)], [])
  {
    var c1 := c.(session := c.session.(handled := c.session.handled - {p.pid}));
    SendWhenConnectedEmits(c1, Pubcomp(p.pid, None, 2));
    AnswerEmits(Respond(c1, Pubcomp(p.pid, None, 2)), [Pubcomp(p.pid, None, 2)], p, false);
  }

  lemma ReceivePubrecEmits(c: Conn, p: Packet)
    requires p.Pubrec? && c.version.V3_1_1? && IsConnected(c) && c.opt.autoPub
    requires p.pid in c.ids.pubrec && IsUsed(c, p.pid)
    ensures Emits(ReceivePubrec(c, p).ev, [Pubrel(p.pid, None, 2)], [])
  {
    var c1 := c.(ids := c.ids.(pubrec := c.ids.pubrec - {p.pid}),
                 session := c.session.(store := Erase(c.session.store, Response(c.version, AwaitPubrec), p.pid)));
    var rel := Pubrel(p.pid, None, 2);
    var c2 := if c1.session.needStore then Keep(c1, StoredPubrel(c1.version, p.pid, None, 2)) else c1;
    SendNowEmits(c2.(ids := c2.ids.(pubcomp := c2.ids.pubcomp + {p.pid})), rel, None);
    AnswerEmits(SendPubrel(c1, rel), [rel], p, false);
  }

  lemma SendStoredEmits(c: Conn)
    requires forall k :: 0 <= k < |c.session.store| ==> Fits(c, c.session.store[k])
    ensures Emits(SendStored(c).ev, StoredPackets(c.session.store), [])
  {
    ResendEmits(c, c.session.store);
  }

  lemma SendPublishEmits(c: Conn, p: Publish)
    requires c.version.V3_1_1?
    ensures Emits(SendPublish(c, p).ev, if AcceptsPublish(c, p) && IsConnected(c) then [PublishPacket(p)] else [], [])
  {
    hide Emits, Has, SendPublishV5, Step;
    var c1 := if p.qos.AtMostOnce? then c
              else Await(if Stores(c) then Keep(c, StoredPublish(V3_1_1, p.(dup := true))) else c, p);
    if AcceptsPublish(c, p) && IsConnected(c) {
      SendNowEmits(c1, PublishPacket(p), if p.qos.AtMostOnce? || Stores(c) then None else Some(p.pid));
    } else {
      Mute(SendPublish(c, p).ev);
    }
  }

  predicate AcceptsPublish(c: Conn, p: Publish) {
    if p.qos.AtMostOnce? then IsConnected(c) else MayPublish(c) && IsUsed(c, p.pid)
  }
}
