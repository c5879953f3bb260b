/** What becomes of a received packet, in both versions and from any state: it is handed to the host exactly
    once, behind its answer, or turned away with an error, or it is a QoS 2 duplicate. */
module Receptions {
  import opened Packets
  import opened TopicAlias
  import opened Store
  import opened Engine
  import opened Frames
  import T = Traffic

  /** Everything but timers that are cancelled and identifiers that are given back. */
  predicate Loud(e: Event) { !e.RequestTimerCancel? && !e.NotifyPacketIdReleased? }

  function Visible(ev: seq<Event>): seq<Event> {
    if ev == [] then [] else (if Loud(ev[0]) then [ev[0]] else []) + Visible(ev[1..])
  }

  lemma VisibleFirst(e: Event, ev: seq<Event>)
    ensures Visible([e] + ev) == (if Loud(e) then [e] else []) + Visible(ev)
  {
    hide Loud;
    assert ([e] + ev)[1..] == ev;
  }

  lemma {:induction false} VisibleAppend(e1: seq<Event>, e2: seq<Event>)
    ensures Visible(e1 + e2) == Visible(e1) + Visible(e2)
  {
    if e1 == [] {
      assert e1 + e2 == e2;
    } else {
      hide Loud, Visible;
      VisibleFirst(e1[0], e1[1..]);
      VisibleFirst(e1[0], e1[1..] + e2);
      VisibleAppend(e1[1..], e2);
      assert [e1[0]] + e1[1..] == e1 && [e1[0]] + (e1[1..] + e2) == e1 + e2;
    }
  }

  lemma {:induction false} AllQuiet(ev: seq<Event>)
    requires forall k :: 0 <= k < |ev| ==> !Loud(ev[k])
    ensures Visible(ev) == []
  {
    if ev != [] { AllQuiet(ev[1..]); }
  }

  lemma {:induction false} AllLoud(ev: seq<Event>)
    requires forall k :: 0 <= k < |ev| ==> Loud(ev[k])
    ensures Visible(ev) == ev
  {
    if ev != [] {
      AllLoud(ev[1..]);
      assert ev == [ev[0]] + ev[1..];
    }
  }

  lemma {:induction false} SendsVisible(ev: seq<Event>)
    ensures T.Sends(Visible(ev)) == T.Sends(ev)
  {
    if ev != [] {
      SendsVisible(ev[1..]);
      var head := if Loud(ev[0]) then [ev[0]] else [];
      T.SendsAppend(head, Visible(ev[1..]));
      if Loud(ev[0]) { assert [ev[0]][1..] == []; }
    }
  }

  // ---------------------------------------------------------------- the parts of a reception

  /** How long a client may be silent: as its host says, else as the server says, else as its CONNECT said. */
  function Silence(c: Conn): nat {
    match c.timers.userSendMs
    case Some(ms) => ms
    case None => match c.timers.serverKeepAliveMs case Some(ms) => ms case None => c.timers.keepAliveMs
  }

  /** A client that has sent a packet restarts its PINGREQ timer. */
  function Restart(c: Conn): seq<Event> {
    if c.opt.isClient && Silence(c) > 0 then [RequestTimerReset(PingreqSend, Silence(c))] else []
  }

  /** A sign of life of the peer restarts the timer that watches it. */
  function Wake(c: Conn): seq<Event> {
    if c.timers.recvTimeoutMs > 0 then [RequestTimerReset(PingreqRecv, c.timers.recvTimeoutMs)] else []
  }

  lemma TimersShow(c: Conn)
    ensures Visible(PostSend(c).ev) == Restart(c) && Visible(RefreshRecv(c).ev) == Wake(c)
    ensures Visible(CancelTimers(c).ev) == []
  {
    AllLoud(PostSend(c).ev);
    AllLoud(RefreshRecv(c).ev);
    AllQuiet(CancelTimers(c).ev);
  }

  lemma SendNowShows(c: Conn, p: Packet, release: Option<nat>)
    ensures Visible(SendNow(c, p, release).ev) == [RequestSendPacket(p, release)] + Restart(c)
  {
    TimersShow(c);
    AllLoud([RequestSendPacket(p, release)]);
    VisibleAppend([RequestSendPacket(p, release)], PostSend(c).ev);
  }

  lemma DeliverShows(c: Conn, p: Packet)
    ensures Visible(Deliver(c, p).ev) == Wake(c) + [NotifyPacketReceived(p)]
  {
    TimersShow(c);
    AllLoud([NotifyPacketReceived(p)]);
    VisibleAppend(RefreshRecv(c).ev, [NotifyPacketReceived(p)]);
  }

  /** A DISCONNECT with a reason code takes three bytes. */
  lemma DisconnectShows(c: Conn, e: MqttError)
    ensures Visible(SendDisconnect(c, Disconnect(Some(e), 1), true).ev) ==
      if c.flow.maxSend < 3 then [NotifyError(PacketTooLarge)]
      else if !c.status.Connected? then [NotifyError(PacketNotAllowedToSend)]
      else [RequestSendPacket(Disconnect(Some(e), 1), None), RequestClose]
  {
    var p := Disconnect(Some(e), 1);
    var r := SendDisconnect(c, p, true);
    if c.flow.maxSend < 3 || !c.status.Connected? {
      AllLoud(r.ev);
    } else {
      var d := c.(status := Disconnected);
      TimersShow(d);
      AllLoud([RequestSendPacket(p, None), RequestClose]);
      VisibleAppend(CancelTimers(d).ev, [RequestSendPacket(p, None), RequestClose]);
    }
  }

  /** How an error is dealt with: v3.1.1 asks to close; v5.0 sends DISCONNECT with the reason first, if it can. */
  function Objection(c: Conn, e: MqttError): seq<Event> {
    (if c.version != V5_0 then [RequestClose]
     else if c.flow.maxSend < 3 then [NotifyError(PacketTooLarge)]
     else if !c.status.Connected? then [NotifyError(PacketNotAllowedToSend)]
     else [RequestSendPacket(Disconnect(Some(e), 1), None), RequestClose])
    + [NotifyError(e)]
  }

  lemma FailShows(c: Conn, e: MqttError)
    ensures Visible(Fail(c, e).ev) == Objection(c, e)
  {
    hide SendDisconnect;
    if IsV5(c) {
      var r := SendDisconnect(c, Disconnect(Some(e), 1), true);
      DisconnectShows(c, e);
      VisibleAppend(r.ev, [NotifyError(e)]);
      AllLoud([NotifyError(e)]);
    } else {
      AllLoud([RequestClose, NotifyError(e)]);
    }
  }

  /** An answer is sent, unless the peer announced that it cannot take a packet of `size` bytes. */
  function Answer(c: Conn, p: Packet, size: nat): seq<Event> {
    if c.version == V5_0 && c.flow.maxSend < size then [NotifyError(PacketTooLarge)]
    else [RequestSendPacket(p, None)] + Restart(c)
  }

  lemma AnswerShows(c: Conn, p: Packet, size: nat)
    requires IsConnected(c) && size == Size(c.version, p)
    ensures Visible(SendWhenConnected(c, p).ev) == Answer(c, p, size)
    ensures Wake(SendWhenConnected(c, p).c) == Wake(c)
  {
    if TooLarge(c, p) { AllLoud([NotifyError(PacketTooLarge)]); } else { SendNowShows(AfterResponse(c, p), p, None); }
  }

  /** The automatic response to a PUBLISH or PUBREL. One to identifier 0 does not build; that is a panic. */
  function Reply(c: Conn, p: Packet, size: nat): seq<Event>
    requires p.Puback? || p.Pubrec? || p.Pubcomp?
  {
    if p.pid == 0 then [] else Answer(c, p, size)
  }

  lemma RespondShows(c: Conn, p: Packet, size: nat)
    requires (p.Puback? || p.Pubrec? || p.Pubcomp?) && IsConnected(c) && size == Size(c.version, p)
    ensures Visible(Respond(c, p).ev) == Reply(c, p, size) && Wake(Respond(c, p).c) == Wake(c)
  {
    AnswerShows(c, p, size);
  }

  lemma ReleaseQuiet(c: Conn, id: nat)
    ensures Visible(Release(c, id).ev) == []
  {
    AllQuiet(Release(c, id).ev);
  }

  lemma FinishShows(c: Conn, id: nat, p: Packet, counted: bool)
    ensures Visible(Finish(c, id, p, counted).ev) == Wake(c) + [NotifyPacketReceived(p)]
  {
    hide Deliver;
    var r := Release(c, id);
    var c1 := if counted then FreeSlot(r.c) else r.c;
    ReleaseQuiet(c, id);
    DeliverShows(c1, p);
    VisibleAppend(r.ev, Deliver(c1, p).ev);
  }

  // ---------------------------------------------------------------- what a packet comes to

  /** Why a packet is turned away, if it is. */
  function Complaint(c: Conn, p: Packet): Option<MqttError> {
    match p
    case Connect(_, _, _, _) => if c.status == Disconnected then None else Some(ProtocolError)
    case PublishPacket(pub) =>
      if c.version != V5_0 then None
      else if pub.qos != AtMostOnce && c.flow.recvMax.Some? && c.flow.recvMax.value <= |c.flow.publishRecv|
      then Some(ReceiveMaximumExceeded)
      else if Understood(c, pub) then None else Some(TopicAliasInvalid)
    case Puback(id, _, _) => if id in c.ids.puback then None else Some(ProtocolError)
    case Pubrec(id, _, _) => if id in c.ids.pubrec then None else Some(ProtocolError)
    case Pubcomp(id, _, _) => if id in c.ids.pubcomp then None else Some(ProtocolError)
    case Suback(id, _) => if id in c.ids.suback then None else Some(ProtocolError)
    case Unsuback(id, _) => if id in c.ids.unsuback then None else Some(ProtocolError)
    case _ => None
  }

  /** A QoS 2 message that was handed over before. */
  predicate Duplicate(c: Conn, p: Packet) {
    p.PublishPacket? && p.pub.qos == ExactlyOnce && p.pub.pid in c.session.handled
  }

  /** The packet as the host gets to see it: an alias alone is replaced by the topic it stands for. */
  function AsSeen(c: Conn, p: Packet): Packet {
    match p
    case PublishPacket(pub) =>
      if c.version == V5_0 && pub.topic == [] && pub.alias.Some? && c.alias.recv.Some?
          && RecvGet(c.alias.recv.value, pub.alias.value).Some?
      then PublishPacket(pub.(topic := RecvGet(c.alias.recv.value, pub.alias.value).value, extracted := true))
      else p
    case _ => p
  }

  /** The automatic answer. A duplicate is answered even if the host answers for itself. */
  function Answers(c: Conn, p: Packet): seq<Event> {
    if c.status != Connected then []
    else match p {
      case PublishPacket(pub) =>
        if pub.qos == AtLeastOnce && c.opt.autoPub then Reply(c, Puback(pub.pid, None, 2), 4)
        else if pub.qos == ExactlyOnce && (c.opt.autoPub || Duplicate(c, p)) then Reply(c, Pubrec(pub.pid, None, 2), 4)
        else []
      case Pubrec(id, rc, _) =>
        if !c.opt.autoPub || (c.version == V5_0 && rc.Some? && rc.value != 0) then []
        else if c.version == V5_0 && c.flow.maxSend < 4 then [NotifyError(PacketTooLarge)]
        else if 1 <= id <= 65535 && id !in c.ids.used then [NotifyError(PacketIdentifierInvalid)]
        else [RequestSendPacket(Pubrel(id, None, 2), None)] + Restart(c)
      case Pubrel(id, _, _) =>
        if !c.opt.autoPub then []
        else if c.version == V5_0 && id !in c.session.handled then Reply(c, Pubcomp(id, Some(146), 3), 5)
        else Reply(c, Pubcomp(id, None, 2), 4)
      case Pingreq =>
        if c.opt.autoPing && c.opt.role != Client && !c.opt.isClient then Answer(c, Pingresp, 2) else []
      case _ => []
    }
  }

  /** The sign of life: a CONNECT tells the keep alive, after one and a half of which the peer counts as gone. PINGRESP
      and DISCONNECT do not count. */
  function Stirred(c: Conn, p: Packet): seq<Event> {
    match p
    case Connect(_, keep, _, _) =>
      if keep > 0 then [RequestTimerReset(PingreqRecv, keep * 1500)] else Wake(c)
    case Pingresp => []
    case Disconnect(_, _) => []
    case _ => Wake(c)
  }

  function Shown(c: Conn, p: Packet): seq<Event> {
    match Complaint(c, p)
    case Some(e) => Objection(c, e)
    case None =>
      Answers(c, p) + Stirred(c, p) + if Duplicate(c, p) then [] else [NotifyPacketReceived(AsSeen(c, p))]
  }

  lemma DeliveredBehind(r: R, p: Packet, ev: seq<Event>, again: bool)
    requires Visible(r.ev) == ev
    ensures Visible(Before(r.ev, if again then RefreshRecv(r.c) else Deliver(r.c, p)).ev) ==
      ev + Wake(r.c) + if again then [] else [NotifyPacketReceived(p)]
  {
    DeliverShows(r.c, p);
    TimersShow(r.c);
    VisibleAppend(r.ev, if again then RefreshRecv(r.c).ev else Deliver(r.c, p).ev);
    hide Deliver;
  }

  lemma PublishV3Shows(c: Conn, p: Publish)
    requires !IsV5(c)
    ensures Visible(ReceivePublishV3(c, p).ev) == Shown(c, PublishPacket(p))
  {
    hide Respond, Deliver, RefreshRecv;
    match p.qos
    case AtMostOnce => DeliverShows(c, PublishPacket(p));
    case AtLeastOnce =>
      var r := if IsConnected(c) && c.opt.autoPub then Respond(c, Puback(p.pid, None, 2)) else R(c, []);
      if IsConnected(c) { RespondShows(c, Puback(p.pid, None, 2), 4); }
      DeliveredBehind(r, PublishPacket(p), Answers(c, PublishPacket(p)), false);
    case ExactlyOnce =>
      var again := p.pid in c.session.handled;
      var c1 := c.(session := c.session.(handled := c.session.handled + {p.pid}));
      var r := if IsConnected(c) && (c.opt.autoPub || again) then Respond(c1, Pubrec(p.pid, None, 2)) else R(c1, []);
      if IsConnected(c) { RespondShows(c1, Pubrec(p.pid, None, 2), 4); }
      DeliveredBehind(r, PublishPacket(p), Answers(c, PublishPacket(p)), again);
  }

  lemma AcceptShows(c: Conn, p: Publish, respond: bool, again: bool)
    requires respond ==> IsConnected(c)
    ensures Visible(AcceptPublish(c, p, respond, again).ev) ==
      (if !respond then [] else Reply(c, if p.qos.AtLeastOnce? then Puback(p.pid, None, 2)
                                         else Pubrec(p.pid, None, 2), 4))
      + Wake(c) + if again then [] else [NotifyPacketReceived(PublishPacket(p))]
  {
    hide Respond, Deliver, RefreshRecv;
    var ack := if p.qos.AtLeastOnce? then Puback(p.pid, None, 2) else Pubrec(p.pid, None, 2);
    var r := if !respond then R(c, []) else Respond(c, ack);
    if respond { RespondShows(c, ack, 4); }
    DeliveredBehind(r, PublishPacket(p), if respond then Reply(c, ack, 4) else [], again);
  }

  lemma TopicShows(c: Conn, p: Publish, respond: bool, again: bool)
    requires IsV5(c) && (respond ==> IsConnected(c))
    ensures Visible(ReceiveTopic(c, p, respond, again).ev) ==
      if !Understood(c, p) then Objection(c, TopicAliasInvalid)
      else (if !respond then [] else Reply(c, if p.qos.AtLeastOnce? then Puback(p.pid, None, 2)
                                             else Pubrec(p.pid, None, 2), 4))
           + Wake(c) + if again then [] else [NotifyPacketReceived(AsSeen(c, PublishPacket(p)))]
  {
    hide AcceptPublish, Fail;
    FailShows(c, TopicAliasInvalid);
    AcceptShows(c, p, respond, again);
    if p.alias.Some? && RecvAliasValid(c, p.alias.value) {
      var m := c.alias.recv.value;
      AcceptShows(c.(alias := c.alias.(recv := Some(m.(aliases := m.aliases[p.alias.value := p.topic])))), p,
          respond, again);
      if RecvGet(m, p.alias.value).Some? {
        AcceptShows(c, p.(topic := RecvGet(m, p.alias.value).value, extracted := true), respond, again);
      }
    }
  }

  lemma PublishV5Shows(c: Conn, p: Publish)
    requires IsV5(c)
    ensures Visible(ReceivePublishV5(c, p).ev) == Shown(c, PublishPacket(p))
  {
    hide ReceiveTopic, Fail, Answer, Wake, Understood, RecvGet, Objection;
    FailShows(c, ReceiveMaximumExceeded);
    match p.qos
    case AtMostOnce => TopicShows(c, p, false, false);
    case AtLeastOnce => OpenShows(c, p);
    case ExactlyOnce => OpenShows(c, p);
  }

  /** QoS 1 and 2: the identifier is received until the host's side answers it. */
  lemma OpenShows(c: Conn, p: Publish)
    requires IsV5(c) && p.qos != AtMostOnce
    ensures var c1 := c.(flow := c.flow.(publishRecv := c.flow.publishRecv + {p.pid}));
      var c2 := c1.(session := c1.session.(handled := c1.session.handled + {p.pid}));
      var again := p.pid in c.session.handled;
      Visible(if p.qos == AtLeastOnce then ReceiveTopic(c1, p, c.opt.autoPub && IsConnected(c), false).ev
              else ReceiveTopic(c2, p, IsConnected(c) && (c.opt.autoPub || again), again).ev) ==
        if !Understood(c, p) then Objection(c, TopicAliasInvalid)
        else Answers(c, PublishPacket(p)) + Wake(c)
             + if Duplicate(c, PublishPacket(p)) then [] else [NotifyPacketReceived(AsSeen(c, PublishPacket(p)))]
  {
    hide ReceiveTopic, Understood;
    var again := p.pid in c.session.handled;
    var c1 := c.(flow := c.flow.(publishRecv := c.flow.publishRecv + {p.pid}));
    var c2 := c1.(session := c1.session.(handled := c1.session.handled + {p.pid}));
    if p.qos == AtLeastOnce {
      TopicShows(c1, p, c.opt.autoPub && IsConnected(c), false);
      SameTopic(c, c1, p);
    } else {
      TopicShows(c2, p, IsConnected(c) && (c.opt.autoPub || again), again);
      SameTopic(c, c2, p);
    }
  }

  lemma SameTopic(c: Conn, d: Conn, p: Publish)
    requires d == c.(flow := d.flow, session := d.session) && d.flow.maxSend == c.flow.maxSend
    ensures Understood(d, p) == Understood(c, p) && AsSeen(d, PublishPacket(p)) == AsSeen(c, PublishPacket(p))
    ensures Objection(d, TopicAliasInvalid) == Objection(c, TopicAliasInvalid) && Wake(d) == Wake(c)
    ensures forall a: Packet, n: nat :: Answer(d, a, n) == Answer(c, a, n)
  {
  }

  lemma AckShows(c: Conn, p: Packet)
    requires p.Puback? || p.Pubcomp? || p.Suback? || p.Unsuback?
    ensures Visible(ReceivePacket(c, p).ev) == Shown(c, p)
  {
    hide Finish, Erase, Fail;
    FailShows(c, ProtocolError);
    var st := c.session.store;
    match p {
      case Puback(id, _, _) =>
        FinishShows(c.(ids := c.ids.(puback := c.ids.puback - {id}),
            session := c.session.(store := Erase(st, Response(c.version, AwaitPuback), id))), id, p, true);
      case Pubcomp(id, _, _) =>
        FinishShows(c.(ids := c.ids.(pubcomp := c.ids.pubcomp - {id}),
            session := c.session.(store := Erase(st, Response(c.version, AwaitPubcomp), id))), id, p, true);
      case Suback(id, _) => FinishShows(c.(ids := c.ids.(suback := c.ids.suback - {id})), id, p, false);
      case Unsuback(id, _) => FinishShows(c.(ids := c.ids.(unsuback := c.ids.unsuback - {id})), id, p, false);
    }
  }

  lemma PubrelSentShows(c: Conn, p: Packet)
    requires p.Pubrel? && IsConnected(c)
    ensures Visible(SendPubrel(c, p).ev) ==
      if TooLarge(c, p) then [NotifyError(PacketTooLarge)]
      else if !IsUsed(c, p.pid) then [NotifyError(PacketIdentifierInvalid)]
      else [RequestSendPacket(p, None)] + Restart(c)
    ensures Wake(SendPubrel(c, p).c) == Wake(c)
  {
    hide Has;
    var r := SendPubrel(c, p);
    if TooLarge(c, p) || !IsUsed(c, p.pid) {
      AllLoud(r.ev);
    } else {
      var c1 := if c.session.needStore then Keep(c, StoredPubrel(c.version, p.pid, p.rc, p.rem)) else c;
      SendNowShows(c1.(ids := c1.ids.(pubcomp := c1.ids.pubcomp + {p.pid})), p, None);
    }
  }

  lemma PubrecShows(c: Conn, p: Packet)
    requires p.Pubrec?
    ensures Visible(ReceivePubrec(c, p).ev) == Shown(c, p)
  {
    hide Finish, Erase, Fail, SendPubrel, Deliver;
    FailShows(c, ProtocolError);
    var c1 := c.(ids := c.ids.(pubrec := c.ids.pubrec - {p.pid}),
        session := c.session.(store := Erase(c.session.store, Response(c.version, AwaitPubrec), p.pid)));
    FinishShows(c1, p.pid, p, true);
    var rel := Pubrel(p.pid, None, 2);
    if IsConnected(c) { PubrelSentShows(c1, rel); }
    var r := if c.opt.autoPub && IsConnected(c) then SendPubrel(c1, rel) else R(c1, []);
    if p.pid in c.ids.pubrec && !(IsV5(c) && p.rc.Some? && p.rc.value != 0) {
      DeliveredBehind(r, p, Answers(c, p), false);
    }
  }

  lemma PubrelShows(c: Conn, p: Packet)
    requires p.Pubrel?
    ensures Visible(ReceivePubrel(c, p).ev) == Shown(c, p)
  {
    hide Respond, Deliver;
    var c1 := c.(session := c.session.(handled := c.session.handled - {p.pid}));
    var unknown := IsV5(c) && p.pid !in c.session.handled;
    var answer := if unknown then Pubcomp(p.pid, Some(0x92), 3) else Pubcomp(p.pid, None, 2);
    if IsConnected(c) { RespondShows(c1, answer, if unknown then 5 else 4); }
    var r := if c.opt.autoPub && IsConnected(c) then Respond(c1, answer) else R(c1, []);
    DeliveredBehind(r, p, Answers(c, p), false);
  }

  lemma PingreqShows(c: Conn)
    ensures Visible(ReceivePingreq(c).ev) == Shown(c, Pingreq)
  {
    hide SendWhenConnected, Deliver;
    var r := if !c.opt.role.Client? && !c.opt.isClient && c.opt.autoPing && IsConnected(c)
             then SendWhenConnected(c, Pingresp) else R(c, []);
    if IsConnected(c) { AnswerShows(c, Pingresp, 2); }
    DeliveredBehind(r, Pingreq, Answers(c, Pingreq), false);
  }

  lemma ConnectShows(c: Conn, p: Packet)
    requires p.Connect?
    ensures Visible(ReceiveConnect(c, p).ev) == Shown(c, p)
  {
    hide Welcomed, Deliver, Fail;
    FailShows(c, ProtocolError);
    DeliverShows(Welcomed(c, p), p);
    WelcomedTimeout(c, p);
  }

  lemma WelcomedTimeout(c: Conn, p: Packet)
    requires p.Connect?
    ensures Welcomed(c, p).timers.recvTimeoutMs == if p.keepAlive > 0 then p.keepAlive * 1500
      else c.timers.recvTimeoutMs
  {
    hide ApplyReceivedProps;
    var c1 := Initialize(c, false).(status := Connecting);
    var c2 := if p.keepAlive > 0 then c1.(timers := c1.timers.(recvTimeoutMs := p.keepAlive * 1000 * 3 / 2)) else c1;
    PropsTimeout(if p.clean then ClearSession(c2) else c2, p.props);
  }

  lemma {:induction false} PropsTimeout(c: Conn, props: seq<Prop>)
    ensures ApplyReceivedProps(c, props, true).c.timers.recvTimeoutMs == c.timers.recvTimeoutMs
    decreases |props|
  {
    if props != [] {
      var d := ReceivedProp(c, props[0], true).c;
      assert d.timers == c.timers;
      hide ReceivedProp;
      PropsTimeout(d, props[1..]);
    }
  }

  lemma PlainShows(c: Conn, p: Packet)
    requires p.Pingresp? || p.Disconnect? || p.Subscribe? || p.Unsubscribe? || p.Auth?
    ensures Visible(ReceivePacket(c, p).ev) == Shown(c, p)
  {
    hide Deliver;
    match p {
      case Pingresp =>
        AllLoud([NotifyPacketReceived(p)]);
        AllQuiet([RequestTimerCancel(PingrespRecv)]);
        VisibleAppend([RequestTimerCancel(PingrespRecv)], [NotifyPacketReceived(p)]);
      case Disconnect(_, _) =>
        TimersShow(c);
        AllLoud([NotifyPacketReceived(p)]);
        VisibleAppend(CancelTimers(c).ev, [NotifyPacketReceived(p)]);
      case _ => DeliverShows(c, p);
    }
  }

  /** All but CONNACK, behind which the store is resent. */
  lemma PacketShows(c: Conn, p: Packet)
    requires !p.Connack?
    ensures Visible(ReceivePacket(c, p).ev) == Shown(c, p)
  {
    hide ReceivePublishV3, ReceivePublishV5, ReceiveConnect, ReceiveConnack, ReceivePuback, ReceivePubcomp,
      ReceivePubrec, ReceivePubrel, ReceivePingreq, Shown, Deliver, Finish, Fail;
    match p
    case PublishPacket(pub) => if IsV5(c) { PublishV5Shows(c, pub); } else { PublishV3Shows(c, pub); }
    case Puback(_, _, _) => AckShows(c, p);
    case Pubcomp(_, _, _) => AckShows(c, p);
    case Suback(_, _) => AckShows(c, p);
    case Unsuback(_, _) => AckShows(c, p);
    case Pubrec(_, _, _) => PubrecShows(c, p);
    case Pubrel(_, _, _) => PubrelShows(c, p);
    case Pingreq => PingreqShows(c);
    case Connect(_, _, _, _) => ConnectShows(c, p);
    case _ => PlainShows(c, p);
  }

  // ---------------------------------------------------------------- CONNACK

  function Resent(s: seq<StorePacket>): seq<Event> {
    if s == [] then [] else [RequestSendPacket(ToPacket(s[0]), None)] + Resent(s[1..])
  }

  lemma {:induction false} ResendShows(c: Conn, s: seq<StorePacket>)
    ensures Visible(Resend(c, s).ev) == Resent(Sendable(c, s))
    decreases |s|
  {
    if s != [] {
      var id := IdOf(s[0]);
      var c1 := c.(ids := c.ids.(used := c.ids.used - {id}));
      ResendShows(c, s[1..]);
      ResendShows(c1, s[1..]);
      ResendShows(Panic(c), s[1..]);
      SameSendable(c, c1, s[1..]);
      SameSendable(c, Panic(c), s[1..]);
      AllLoud([RequestSendPacket(ToPacket(s[0]), None)]);
      AllQuiet([NotifyPacketIdReleased(id)]);
      VisibleAppend([RequestSendPacket(ToPacket(s[0]), None)], Resend(c, s[1..]).ev);
      VisibleAppend([NotifyPacketIdReleased(id)], Resend(c1, s[1..]).ev);
    }
  }

  lemma {:induction false} SameSendable(c: Conn, d: Conn, s: seq<StorePacket>)
    requires d.flow.maxSend == c.flow.maxSend
    ensures Sendable(d, s) == Sendable(c, s)
  {
    if s != [] { SameSendable(c, d, s[1..]); }
  }

  /** A server keep alive restarts the PINGREQ timer, unless the host has set its own interval. */
  function Alive(user: Option<nat>, props: seq<Prop>): seq<Event> {
    if props == [] then []
    else
      (match props[0]
       case ServerKeepAlive(v) => if user == None && v > 0 then [RequestTimerReset(PingreqSend, v * 1000)] else []
       case _ => [])
      + Alive(user, props[1..])
  }

  lemma {:induction false} PropsShow(c: Conn, props: seq<Prop>)
    ensures Visible(ApplyReceivedProps(c, props, false).ev) == Alive(c.timers.userSendMs, props)
    decreases |props|
  {
    if props != [] {
      var r := ReceivedProp(c, props[0], false);
      assert r.c.timers.userSendMs == c.timers.userSendMs;
      if props[0].ServerKeepAlive? && props[0].val > 0 { AllLoud(r.ev); } else { AllQuiet(r.ev); }
      VisibleAppend(r.ev, ApplyReceivedProps(r.c, props[1..], false).ev);
      hide ReceivedProp;
      PropsShow(r.c, props[1..]);
    }
  }

  /** A CONNACK that finds the session present has the stored packets that fit sent before it is handed over. */
  lemma ConnackShows(c: Conn, p: Packet)
    requires p.Connack?
    ensures Visible(ReceiveConnack(c, p).ev) ==
      (if p.accepted && IsV5(c) then Alive(c.timers.userSendMs, p.props) else [])
      + (if p.accepted && p.sessionPresent then Resent(Sendable(Informed(c, p), c.session.store)) else [])
      + [NotifyPacketReceived(p)]
  {
    hide ApplyReceivedProps, Resend, Sendable;
    AllLoud([NotifyPacketReceived(p)]);
    if p.accepted {
      var c1 := c.(status := Connected);
      var r := if IsV5(c) then ApplyReceivedProps(c1, p.props, false) else R(c1, []);
      PropsShow(c1, p.props);
      InformedMoves(c, p);
      ResendShows(r.c, c.session.store);
      var s := if p.sessionPresent then SendStored(r.c) else R(ClearSession(r.c), []);
      VisibleAppend(r.ev, s.ev);
      VisibleAppend(r.ev + s.ev, [NotifyPacketReceived(p)]);
    }
  }

  // ---------------------------------------------------------------- every received frame

  /** The connection once it knows which version the peer speaks. */
  function Speaking(c: Conn, f: Frame): Conn {
    if c.version != Undetermined then c else c.(version := if f.level == 4 then V3_1_1 else V5_0)
  }

  /** Everything a received packet makes the engine show: its answer and then, once, the packet itself; or the
      objection to it. */
  lemma ReceptionShows(c: Conn, f: Frame)
    requires f.Good? && Arrives(c, f)
    ensures var ev, d := Visible(Step(c, OpReceive(f)).ev), Speaking(c, f);
      if f.packet.Connack? then
        ev == (if f.packet.accepted && IsV5(d) then Alive(c.timers.userSendMs, f.packet.props) else [])
              + (if f.packet.accepted && f.packet.sessionPresent
                 then Resent(Sendable(Informed(d, f.packet), c.session.store)) else [])
              + [NotifyPacketReceived(f.packet)]
      else ev == Shown(d, f.packet)
  {
    hide Shown, Informed, Sendable, ReceiveConnack, ReceivePublishV3, ReceivePublishV5, ReceiveConnect;
    var d := Speaking(c, f);
    if f.packet.Connack? {
      ConnackShows(d, f.packet);
    } else {
      PacketShows(d, f.packet);
      hide ReceivePacket;
    }
  }

  function Handed(ev: seq<Event>): seq<Packet> {
    if ev == [] then []
    else (if ev[0].NotifyPacketReceived? then [ev[0].packet] else []) + Handed(ev[1..])
  }

  lemma {:induction false} HandedAppend(e1: seq<Event>, e2: seq<Event>)
    ensures Handed(e1 + e2) == Handed(e1) + Handed(e2)
  {
    if e1 == [] {
      assert e1 + e2 == e2;
    } else {
      assert (e1 + e2)[1..] == e1[1..] + e2;
      HandedAppend(e1[1..], e2);
      var head := if e1[0].NotifyPacketReceived? then [e1[0].packet] else [];
      assert Handed(e1 + e2) == head + Handed(e1[1..] + e2);
    }
  }

  lemma {:induction false} HandedVisible(ev: seq<Event>)
    ensures Handed(Visible(ev)) == Handed(ev)
  {
    if ev != [] {
      HandedVisible(ev[1..]);
      var head := if Loud(ev[0]) then [ev[0]] else [];
      HandedAppend(head, Visible(ev[1..]));
      if Loud(ev[0]) { assert [ev[0]][1..] == []; }
    }
  }

  lemma {:induction false} NothingHanded(ev: seq<Event>)
    requires forall k :: 0 <= k < |ev| ==> !ev[k].NotifyPacketReceived?
    ensures Handed(ev) == []
  {
    if ev != [] { NothingHanded(ev[1..]); }
  }

  lemma HandedLast(ev: seq<Event>, p: Packet)
    requires forall k :: 0 <= k < |ev| ==> !ev[k].NotifyPacketReceived?
    ensures Handed(ev + [NotifyPacketReceived(p)]) == [p]
  {
    NothingHanded(ev);
    HandedAppend(ev, [NotifyPacketReceived(p)]);
    assert [NotifyPacketReceived(p)][1..] == [];
  }

  lemma {:induction false} ResentHandsNothing(s: seq<StorePacket>)
    ensures forall k :: 0 <= k < |Resent(s)| ==> !Resent(s)[k].NotifyPacketReceived?
  {
    if s != [] { ResentHandsNothing(s[1..]); }
  }

  lemma {:induction false} AliveHandsNothing(user: Option<nat>, props: seq<Prop>)
    ensures forall k :: 0 <= k < |Alive(user, props)| ==> !Alive(user, props)[k].NotifyPacketReceived?
  {
    if props != [] { AliveHandsNothing(user, props[1..]); }
  }

  /** The packet is handed over: it gets through, nothing is wrong with it, and it is no duplicate. */
  predicate Welcome(c: Conn, f: Frame)
    requires f.Good?
  {
    Arrives(c, f) && Complaint(Speaking(c, f), f.packet).None? && !Duplicate(Speaking(c, f), f.packet)
  }

  /** The host is handed the packet exactly once if it is welcome, and nothing otherwise. */
  lemma HandedOver(c: Conn, f: Frame)
    requires f.Good?
    ensures Handed(Step(c, OpReceive(f)).ev) == if Welcome(c, f) then [AsSeen(Speaking(c, f), f.packet)] else []
  {
    hide Complaint, Answers, AsSeen, Duplicate, Step, Informed, Sendable, Stirred, Alive;
    var r := Step(c, OpReceive(f));
    var d := Speaking(c, f);
    HandedVisible(r.ev);
    if !Arrives(c, f) {
      UnreadShows(c, f);
      NothingHanded(Visible(r.ev));
    } else if f.packet.Connack? {
      ReceptionShows(c, f);
      assert Complaint(d, f.packet).None? && !Duplicate(d, f.packet) && AsSeen(d, f.packet) == f.packet by {
        ConnackPlain(d, f.packet);
      }
      var alive := if f.packet.accepted && IsV5(d) then Alive(c.timers.userSendMs, f.packet.props) else [];
      var again := if f.packet.accepted && f.packet.sessionPresent
                   then Resent(Sendable(Informed(d, f.packet), c.session.store)) else [];
      AliveHandsNothing(c.timers.userSendMs, f.packet.props);
      ResentHandsNothing(Sendable(Informed(d, f.packet), c.session.store));
      HandedLast(alive + again, f.packet);
    } else {
      ReceptionShows(c, f);
      AnswersHandNothing(d, f.packet);
      if Complaint(d, f.packet).Some? {
        NothingHanded(Visible(r.ev));
      } else if Duplicate(d, f.packet) {
        assert Visible(r.ev) == Answers(d, f.packet) + Stirred(d, f.packet);
        NothingHanded(Visible(r.ev));
      } else {
        HandedLast(Answers(d, f.packet) + Stirred(d, f.packet), AsSeen(d, f.packet));
      }
    }
  }

  lemma ConnackPlain(c: Conn, p: Packet)
    requires p.Connack?
    ensures Complaint(c, p).None? && !Duplicate(c, p) && AsSeen(c, p) == p
  {
  }

  lemma AnswersHandNothing(c: Conn, p: Packet)
    ensures forall k :: 0 <= k < |Answers(c, p)| ==> !Answers(c, p)[k].NotifyPacketReceived?
    ensures forall k :: 0 <= k < |Stirred(c, p)| ==> !Stirred(c, p)[k].NotifyPacketReceived?
  {
  }

  /** A frame that does not parse or is not let through: nothing is handed over, and the last thing the host hears
      is an error. */
  lemma UnreadShows(c: Conn, f: Frame)
    requires !(f.Good? && Arrives(c, f))
    ensures Turned(Visible(Step(c, OpReceive(f)).ev))
  {
    hide ReceivePacket, Fail, ReceiveBadConnect, Oversized, Turned, SendDisconnect;
    var d := Speaking(c, f);
    OversizedShows(c);
    RefusedShows(c, ProtocolError);
    RefusedShows(c, MalformedPacket);
    RefusedShows(c, UnsupportedProtocolVersion);
    if f.Bad? {
      RefusedShows(d, f.error);
      FailTurned(d, f.error);
      BadConnectTurned(d, f.error);
    }
    hide Refuse;
  }

  /** Nothing is handed over, and an error comes last. */
  predicate Turned(ev: seq<Event>) {
    (forall k :: 0 <= k < |ev| ==> !ev[k].NotifyPacketReceived?) && ev != [] && ev[|ev| - 1].NotifyError?
  }

  lemma RefusedShows(c: Conn, e: MqttError)
    ensures Turned(Visible(Refuse(c, e).ev))
  {
    AllLoud([NotifyError(e)]);
  }

  lemma FailTurned(c: Conn, e: MqttError)
    ensures Turned(Visible(Fail(c, e).ev))
  {
    FailShows(c, e);
    hide Fail;
  }

  lemma BadConnectTurned(c: Conn, e: MqttError)
    ensures Turned(Visible(ReceiveBadConnect(c, e).ev))
  {
    BadConnectShows(c, e);
    hide ReceiveBadConnect;
  }

  lemma OversizedShows(c: Conn)
    ensures Turned(Visible(Oversized(c).ev))
  {
    hide SendDisconnect;
    DisconnectShows(c, PacketTooLarge);
    VisibleAppend(SendDisconnect(c, Disconnect(Some(PacketTooLarge), 1), true).ev, [NotifyError(PacketTooLarge)]);
    AllLoud([NotifyError(PacketTooLarge)]);
  }

  /** A CONNECT that does not parse is answered by a refusing CONNACK, unless there was a CONNECT before. */
  lemma BadConnectShows(c: Conn, e: MqttError)
    ensures Visible(ReceiveBadConnect(c, e).ev) ==
      if !c.status.Disconnected? then Objection(c, ProtocolError)
      else if c.version == V5_0 && c.flow.maxSend < 5 then [NotifyError(PacketTooLarge), NotifyError(e)]
      else [RequestSendPacket(Connack(false, false, [], if c.version == V5_0 then 3 else 2), None), RequestClose,
            NotifyError(e)]
  {
    hide Fail, SendConnack;
    FailShows(c, ProtocolError);
    if c.status.Disconnected? {
      var p := Connack(false, false, [], if IsV5(c) then 3 else 2);
      var d := c.(status := Connecting);
      RejectShows(d, p);
      AllLoud([NotifyError(e)]);
      VisibleAppend(SendConnack(d, p).ev, [NotifyError(e)]);
    }
  }

  lemma RejectShows(c: Conn, p: Packet)
    requires p.Connack? && !p.accepted && c.status.Connecting?
    ensures Visible(SendConnack(c, p).ev) ==
      if TooLarge(c, p) then [NotifyError(PacketTooLarge)] else [RequestSendPacket(p, None), RequestClose]
  {
    hide CancelTimers, ApplySentProps, SendStored;
    if TooLarge(c, p) {
      AllLoud([NotifyError(PacketTooLarge)]);
    } else {
      var t := CancelTimers(c.(status := Disconnected));
      TimersShow(c.(status := Disconnected));
      AllLoud([RequestSendPacket(p, None)]);
      AllLoud([RequestClose]);
      VisibleAppend([RequestSendPacket(p, None)], t.ev + [RequestClose]);
      VisibleAppend(t.ev, [RequestClose]);
    }
  }

  // ---------------------------------------------------------------- a message is heard

  /** A QoS 0 or 1 message to a v3.1.1 connection in whatever state: the host is handed it once, behind the PUBACK if
      one is due. */
  lemma MessageHeard(c: Conn, f: Frame)
    requires c.version == V3_1_1 && f.Good? && Arrives(c, f) && f.packet.PublishPacket?
    requires f.packet.pub.qos == AtMostOnce || (f.packet.pub.qos == AtLeastOnce && f.packet.pub.pid != 0)
    ensures Visible(Step(c, OpReceive(f)).ev) ==
      (if f.packet.pub.qos == AtLeastOnce && c.status == Connected && c.opt.autoPub
       then [RequestSendPacket(Puback(f.packet.pub.pid, None, 2), None)] + Restart(c) else [])
      + Wake(c) + [NotifyPacketReceived(f.packet)]
    ensures Handed(Step(c, OpReceive(f)).ev) == [f.packet]
  {
    hide Step;
    ReceptionShows(c, f);
    HandedOver(c, f);
  }
}
