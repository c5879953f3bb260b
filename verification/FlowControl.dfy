/** Two v5.0 endpoints on one connection without a kept session: the send quota is exact. What an
    endpoint counts is the number of its QoS 1 and QoS 2 messages that are out and unfinished; it never
    exceeds the Receive Maximum of the peer, and the peer never has to complain (section 4.9 of MQTT 5.0). */
module FlowControl {
  import opened Packets
  import opened TopicAlias
  import opened Store
  import opened Engine
  import opened Tokens
  import opened Traffic
  import opened Handshake

  // ---------------------------------------------------------------- one endpoint

  /** A v5.0 endpoint without a kept session and without a packet size limit. */
  predicate Plain5(c: Conn, sendMax: nat, recvMax: nat) {
    && IsV5(c) && c.opt.autoPub && !c.session.needStore && !c.opt.offlinePublish
    && c.flow.maxSend == NO_SIZE_LIMIT && c.flow.maxRecv == NO_SIZE_LIMIT
    && c.flow.sendMax == Some(sendMax) && c.flow.recvMax == Some(recvMax) && sendMax <= 0xFFFF
  }

  /** The send side of a connection goes on unchanged. */
  predicate SenderSame(c: Conn, d: Conn) {
    && d.flow.sendCount == c.flow.sendCount
    && d.ids.puback == c.ids.puback && d.ids.pubrec == c.ids.pubrec && d.ids.pubcomp == c.ids.pubcomp
  }

  predicate ReceiverSame(c: Conn, d: Conn) { d.flow.publishRecv == c.flow.publishRecv }

  /** A packet that may be under way on an established connection. */
  predicate Carried(p: Packet) {
    Size(V5_0, p) <= NO_SIZE_LIMIT && !p.Connect? && !p.Connack? && (p.Pubrec? ==> p.rc.None?)
  }

  predicate AllCarried(ps: seq<Packet>) { forall k :: 0 <= k < |ps| ==> Carried(ps[k]) }

  /** The packet has an encoding, also when an alias takes the place of its topic. */
  predicate Encodable(p: Packet) {
    && Remaining(V5_0, p) <= MAX_REMAINING
    && (p.PublishPacket? ==> Remaining(V5_0, PublishPacket(ByAlias(p.pub, 1))) <= MAX_REMAINING)
  }

  /** Calls a host may make on an established connection. */
  predicate HostMove(c: Conn, op: Op) {
    match op
    case OpSend(v, p) => !p.Connect? && !p.Connack? && !p.Puback? && !p.Pubrec? && !p.Pubrel? && !p.Pubcomp?
    case OpReceive(_) => false
    case OpClosed(_) => false
    case OpOfflinePublish(on) => !on
    case OpAutoPub(on) => on
    case OpRestorePackets(_) => false
    case _ => true
  }

  /** What a call of the host does: a counted PUBLISH goes out exactly when a slot is taken. */
  ghost predicate HostEffect(c: Conn, op: Op, r: R) {
    var ps := Sends(r.ev);
    && ReceiverSame(c, r.c) && AllCarried(ps)
    && c.ids.puback <= r.c.ids.puback && c.ids.pubrec <= r.c.ids.pubrec && r.c.ids.pubcomp == c.ids.pubcomp
    && (|| (NoTokens(ps) && r.c.flow.sendCount == c.flow.sendCount)
        || (&& op.OpSend? && Counted(op.packet) && |ps| == 1 && Counted(ps[0])
            && ps[0].pub.pid == op.packet.pub.pid && ps[0].pub.qos == op.packet.pub.qos
            && c.flow.sendMax.Some? && c.flow.sendCount != c.flow.sendMax.value
            && r.c.flow.sendCount == c.flow.sendCount + 1
            && (if ps[0].pub.qos.AtLeastOnce? then ps[0].pub.pid in r.c.ids.puback
                else ps[0].pub.pid in r.c.ids.pubrec)))
  }

  lemma SendCountedEffect(c: Conn, p: Publish, q: Publish, release: Option<nat>, m: nat, n: nat)
    requires Plain5(c, m, n) && IsConnected(c) && q.qos == p.qos && q.pid == p.pid && Carried(PublishPacket(q))
    requires p.qos.AtLeastOnce? ==> p.pid in c.ids.puback
    requires p.qos.ExactlyOnce? ==> p.pid in c.ids.pubrec
    requires c.flow.sendCount <= m
    ensures var r := SendCounted(c, q, release);
      Plain5(r.c, m, n) && HostEffect(c, OpSend(V5_0, PublishPacket(p)), r)
  {
    hide Step;
    var r := SendCounted(c, q, release);
    if !q.qos.AtMostOnce? && c.flow.sendCount == m {
      Mute(r.ev);
    } else {
      var c1 := if !q.qos.AtMostOnce? then c.(flow := c.flow.(sendCount := c.flow.sendCount + 1)) else c;
      SendNowEmits(c1, PublishPacket(q), release);
    }
  }

  lemma SendPublishEffect(c: Conn, p: Publish, m: nat, n: nat)
    requires Plain5(c, m, n) && c.flow.sendCount <= m && Encodable(PublishPacket(p))
    ensures var r := SendPublishV5(c, p);
      Plain5(r.c, m, n) && HostEffect(c, OpSend(V5_0, PublishPacket(p)), r)
  {
    hide SendAliased, Step;
    var r := SendPublishV5(c, p);
    var c1 := if p.qos.AtMostOnce? then c else Await(c, p);
    if TooLarge(c, PublishPacket(p)) || !IsConnected(c) || (!p.qos.AtMostOnce? && !IsUsed(c, p.pid)) {
      Mute(r.ev);
    } else {
      SendAliasedEffect(c1, p, if p.qos.AtMostOnce? then None else Some(p.pid), m, n);
    }
  }

  lemma EncodableCarried(p: Publish)
    requires Encodable(PublishPacket(p))
    ensures Carried(PublishPacket(p)) && forall a {:trigger ByAlias(p, a)} :: Carried(PublishPacket(ByAlias(p, a)))
  {
  }

  lemma SendAliasedEffect(c: Conn, p: Publish, release: Option<nat>, m: nat, n: nat)
    requires Plain5(c, m, n) && IsConnected(c) && Encodable(PublishPacket(p))
    requires p.qos.AtLeastOnce? ==> p.pid in c.ids.puback
    requires p.qos.ExactlyOnce? ==> p.pid in c.ids.pubrec
    requires c.flow.sendCount <= m
    ensures var r := SendAliased(c, p, release, false);
      Plain5(r.c, m, n) && HostEffect(c, OpSend(V5_0, PublishPacket(p)), r)
  {
    hide HostEffect, SendCounted, Touch, InsertOrUpdate, FindByTopic, LruAlias, RefusePublish, Carried, Encodable;
    EncodableCarried(p);
    var r := SendAliased(c, p, release, false);
    if p.topic == [] {
      var (c1, t) := ResolveAlias(c, p.alias);
      if t.None? { RefusedEffect(c1, p); SameEffect(c, c1, p, RefusePublish(c1, PacketNotAllowedToSend, p)); }
      else { SendCountedEffect(c1, p, p, release, m, n); SameEffect(c, c1, p, r); }
    } else if p.alias.Some? {
      var c1 := BindAlias(c, p.topic, p.alias.value);
      if AliasInRange(c, p.alias.value) { SendCountedEffect(c1, p, p, release, m, n); SameEffect(c, c1, p, r); }
      else { RefusedEffect(c, p); }
    } else {
      SendCountedEffect(c, p, p, release, m, n);
      if c.alias.send.Some? {
        var f := FindByTopic(c.alias.send.value, p.topic);
        var a := if f.Some? then f.value else LruAlias(c.alias.send.value);
        var c1 := BindAlias(c, p.topic, a);
        SendCountedEffect(c, p, ByAlias(p, a), release, m, n);
        SendCountedEffect(c1, p, ByAlias(p, a), release, m, n);
        SameEffect(c, c1, p, SendCounted(c1, ByAlias(p, a), release));
      }
    }
  }

  /** Alias bookkeeping does not matter here. */
  lemma SameEffect(c: Conn, c1: Conn, p: Publish, r: R)
    requires c1 == c.(alias := c1.alias, panicked := c1.panicked)
    requires HostEffect(c1, OpSend(V5_0, PublishPacket(p)), r)
    ensures HostEffect(c, OpSend(V5_0, PublishPacket(p)), r)
  {
  }

  lemma RefusedEffect(c: Conn, p: Publish)
    ensures var r := RefusePublish(c, PacketNotAllowedToSend, p);
      && HostEffect(c, OpSend(V5_0, PublishPacket(p)), r)
      && r.c == c.(ids := c.ids.(used := r.c.ids.used), panicked := r.c.panicked)
  {
    hide Step;
    Mute(RefusePublish(c, PacketNotAllowedToSend, p).ev);
  }

  /** No packet of an exchange is sent. */
  predicate Apart(ev: seq<Event>) {
    forall k :: 0 <= k < |ev| && ev[k].RequestSendPacket? ==> !IsToken(ev[k].packet) && Carried(ev[k].packet)
  }

  lemma {:induction false} ApartSends(ev: seq<Event>)
    requires Apart(ev)
    ensures NoTokens(Sends(ev)) && AllCarried(Sends(ev))
  {
    if ev != [] { ApartSends(ev[1..]); }
  }

  /** Only status and timers differ. */
  predicate Aside(c: Conn, d: Conn) { d == c.(status := d.status, timers := d.timers, panicked := d.panicked) }

  lemma AsideHost(c: Conn, op: Op, r: R, m: nat, n: nat)
    requires Plain5(c, m, n) && Apart(r.ev)
    requires r.c == c.(status := r.c.status, timers := r.c.timers, panicked := r.c.panicked, ids := r.c.ids)
    requires r.c.ids.puback == c.ids.puback && r.c.ids.pubrec == c.ids.pubrec && r.c.ids.pubcomp == c.ids.pubcomp
    ensures Plain5(r.c, m, n) && HostEffect(c, op, r)
  {
    ApartSends(r.ev);
  }

  lemma DisconnectAside(c: Conn, p: Packet, v5: bool)
    requires !IsToken(p) && Carried(p)
    ensures Aside(c, SendDisconnect(c, p, v5).c) && Apart(SendDisconnect(c, p, v5).ev)
  {
  }

  lemma FailAside(c: Conn, e: MqttError)
    requires IsV5(c)
    ensures Aside(c, Fail(c, e).c) && Apart(Fail(c, e).ev)
  {
    hide SendDisconnect;
    DisconnectAside(c, Disconnect(Some(e), 1), true);
  }

  lemma PingreqAside(c: Conn)
    ensures Aside(c, SendPingreq(c).c) && Apart(SendPingreq(c).ev)
  {
  }

  lemma SendWhenConnectedAside(c: Conn, p: Packet)
    requires !IsToken(p) && Carried(p)
    ensures Aside(c, SendWhenConnected(c, p).c) && Apart(SendWhenConnected(c, p).ev)
  {
  }

  lemma OtherSendEffect(c: Conn, v: Version, p: Packet, m: nat, n: nat)
    requires Plain5(c, m, n) && HostMove(c, OpSend(v, p)) && !p.PublishPacket? && Encodable(p)
    ensures var r := Send(c, v, p); Plain5(r.c, m, n) && HostEffect(c, OpSend(v, p), r)
  {
    hide HostEffect, Dispatch, Plain5, RoleMaySend;
    DispatchAside(c, v, p);
    assert Apart([NotifyError(VersionMismatch)]) && Apart([NotifyError(PacketNotAllowedToSend)]);
    AsideHost(c, OpSend(v, p), Send(c, v, p), m, n);
  }

  lemma DispatchAside(c: Conn, v: Version, p: Packet)
    requires HostMove(c, OpSend(v, p)) && !p.PublishPacket? && Encodable(p)
    ensures var r := Dispatch(c, p);
      && Apart(r.ev) && r.c.ids.puback == c.ids.puback && r.c.ids.pubrec == c.ids.pubrec
          && r.c.ids.pubcomp == c.ids.pubcomp
      && r.c == c.(status := r.c.status, timers := r.c.timers, panicked := r.c.panicked, ids := r.c.ids)
  {
    hide SendConnect, SendConnack, SendPublish, SendPubrel, SendDisconnect, SendPingreq, SendWhenConnected, SendRequest;
    match p
    case Disconnect(_, _) => DisconnectAside(c, p, IsV5(c));
    case Pingreq => PingreqAside(c);
    case Subscribe(_, _) => RequestAside(c, p);
    case Unsubscribe(_, _) => RequestAside(c, p);
    case Auth(_) =>
    case _ => SendWhenConnectedAside(c, p);
  }

  lemma RequestAside(c: Conn, p: Packet)
    requires (p.Subscribe? || p.Unsubscribe?) && Carried(p)
    ensures var r := SendRequest(c, p);
      && Apart(r.ev) && r.c.ids.puback == c.ids.puback && r.c.ids.pubrec == c.ids.pubrec
          && r.c.ids.pubcomp == c.ids.pubcomp
      && r.c == c.(status := r.c.status, timers := r.c.timers, panicked := r.c.panicked, ids := r.c.ids)
  {
  }

  lemma TimerEffect(c: Conn, k: TimerKind, m: nat, n: nat)
    requires Plain5(c, m, n)
    ensures var r := TimerFired(c, k); Plain5(r.c, m, n) && HostEffect(c, OpTimer(k), r)
  {
    hide HostEffect, SendDisconnect, SendPingreq;
    PingreqAside(Disarm(c, k));
    DisconnectAside(Disarm(c, k), Disconnect(Some(KeepAliveTimeout), 1), true);
    AsideHost(c, OpTimer(k), TimerFired(c, k), m, n);
  }

  lemma SettingEffect(c: Conn, op: Op, m: nat, n: nat)
    requires Plain5(c, m, n) && HostMove(c, op) && !op.OpSend? && !op.OpTimer?
    ensures var r := Step(c, op); Plain5(r.c, m, n) && HostEffect(c, op, r)
  {
    hide Acquire, Receive, Register, Send, TimerFired;
    var r := Step(c, op);
    if op.OpAcquire? || op.OpRegister? { AcquireState(c, op); }
    ApartSends(r.ev);
  }

  lemma AcquireState(c: Conn, op: Op)
    requires op.OpAcquire? || op.OpRegister?
    ensures Step(c, op).c == c.(ids := c.ids.(used := Step(c, op).c.ids.used)) && Step(c, op).ev == []
  {
    hide Receive, Send, TimerFired;
  }

  lemma HostFacts(c: Conn, op: Op, m: nat, n: nat)
    requires Plain5(c, m, n) && HostMove(c, op) && c.flow.sendCount <= m && (op.OpSend? ==> Encodable(op.packet))
    ensures var r := Step(c, op); Plain5(r.c, m, n) && HostEffect(c, op, r) && AllCarried(Sends(r.ev))
  {
    match op
    case OpSend(v, PublishPacket(p)) =>
      if v.V5_0? { SendPublishEffect(c, p, m, n); } else { ApartSends(Step(c, op).ev); }
    case OpSend(v, p) => OtherSendEffect(c, v, p, m, n);
    case OpTimer(k) => TimerEffect(c, k, m, n);
    case _ => SettingEffect(c, op, m, n);
  }

  // ---------------------------------------------------------------- receiving

  ghost predicate ReceiveEffect(c: Conn, p: Packet, r: R) {
    var ps := Sends(r.ev);
    && AllCarried(ps)
    && match p
    case PublishPacket(pub) =>
      && SenderSame(c, r.c)
      && (if pub.qos.AtMostOnce? then ReceiverSame(c, r.c) && NoTokens(ps)
          else
            && r.c.flow.publishRecv <= c.flow.publishRecv + {pub.pid}
            && (|| NoTokens(ps)
                || (pub.qos.AtLeastOnce? && ps == [Puback(pub.pid, None, 2)] && pub.pid !in r.c.flow.publishRecv)
                || (pub.qos.ExactlyOnce? && ps == [Pubrec(pub.pid, None, 2)])))
    case Puback(i, _, _) =>
      && ReceiverSame(c, r.c) && NoTokens(ps)
      && r.c.ids.pubrec == c.ids.pubrec && r.c.ids.pubcomp == c.ids.pubcomp && r.c.ids.puback == c.ids.puback - {i}
      && (i in c.ids.puback && c.flow.sendCount > 0 ==> r.c.flow.sendCount == c.flow.sendCount - 1)
    case Pubrec(i, _, _) =>
      && ReceiverSame(c, r.c) && r.c.flow.sendCount == c.flow.sendCount
      && r.c.ids.puback == c.ids.puback && r.c.ids.pubrec == c.ids.pubrec - {i}
      && (|| (NoTokens(ps) && r.c.ids.pubcomp == c.ids.pubcomp)
          || (ps == [Pubrel(i, None, 2)] && r.c.ids.pubcomp == c.ids.pubcomp + {i}))
    case Pubrel(i, _, _) =>
      && SenderSame(c, r.c) && r.c.flow.publishRecv <= c.flow.publishRecv
      && (NoTokens(ps) || (|ps| == 1 && ps[0].Pubcomp? && ps[0].pid == i && i !in r.c.flow.publishRecv))
    case Pubcomp(i, _, _) =>
      && ReceiverSame(c, r.c) && NoTokens(ps)
      && r.c.ids.puback == c.ids.puback && r.c.ids.pubrec == c.ids.pubrec && r.c.ids.pubcomp == c.ids.pubcomp - {i}
      && (i in c.ids.pubcomp && c.flow.sendCount > 0 ==> r.c.flow.sendCount == c.flow.sendCount - 1)
    case _ => SenderSame(c, r.c) && ReceiverSame(c, r.c) && NoTokens(ps)
  }

  lemma AsideReceive(c: Conn, p: Packet, r: R, m: nat, n: nat)
    requires Plain5(c, m, n) && Apart(r.ev) && Aside(c, r.c)
    requires p.Puback? ==> p.pid !in c.ids.puback
    requires p.Pubrec? ==> p.pid !in c.ids.pubrec
    requires p.Pubcomp? ==> p.pid !in c.ids.pubcomp
    ensures Plain5(r.c, m, n) && ReceiveEffect(c, p, r)
  {
    ApartSends(r.ev);
  }

  lemma DeliverAside(c: Conn, p: Packet)
    ensures Aside(c, Deliver(c, p).c) && Apart(Deliver(c, p).ev)
  {
  }

  lemma RespondState(c: Conn, p: Packet, m: nat, n: nat)
    requires Plain5(c, m, n) && IsConnected(c) && (p.Puback? || p.Pubrec? || p.Pubcomp?) && p.rem <= 3
    requires p.Pubrec? ==> p.rc.None?
    ensures var r := Respond(c, p);
      && Aside(if p.Pubrec? || p.pid == 0 then c
          else c.(flow := c.flow.(publishRecv := c.flow.publishRecv - {p.pid})), r.c)
      && Emits(r.ev, if p.pid == 0 then [] else [p], [])
  {
    if p.pid == 0 { Mute([]); } else { SendNowEmits(AfterResponse(c, p), p, None); }
  }

  lemma AcceptPublishEffect(c: Conn, p: Publish, respond: bool, again: bool, m: nat, n: nat)
    requires Plain5(c, m, n) && !p.qos.AtMostOnce? && (respond ==> IsConnected(c))
    ensures var r := AcceptPublish(c, p, respond, again);
      && Aside(if respond && p.pid != 0 && p.qos.AtLeastOnce?
          then c.(flow := c.flow.(publishRecv := c.flow.publishRecv - {p.pid})) else c, r.c)
      && Sends(r.ev) == if !respond || p.pid == 0 then []
                        else if p.qos.AtLeastOnce? then [Puback(p.pid, None, 2)] else [Pubrec(p.pid, None, 2)]
  {
    hide Respond, Deliver, Plain5;
    var answer := if p.qos.AtLeastOnce? then Puback(p.pid, None, 2) else Pubrec(p.pid, None, 2);
    var r1 := if respond then Respond(c, answer) else R(c, []);
    if respond { RespondState(c, answer, m, n); } else { Mute([]); }
    DeliverAside(r1.c, PublishPacket(p));
    AnswerEmits(r1, if respond && p.pid != 0 then [answer] else [], PublishPacket(p), again);
  }

  /** What a counted PUBLISH can lead to. */
  ghost predicate PublishOutcome(c: Conn, p: Publish, r: R) {
    && SenderSame(c, r.c) && r.c.flow.publishRecv <= c.flow.publishRecv && AllCarried(Sends(r.ev))
    && (|| NoTokens(Sends(r.ev))
        || (p.qos.AtLeastOnce? && Sends(r.ev) == [Puback(p.pid, None, 2)] && p.pid !in r.c.flow.publishRecv)
        || (p.qos.ExactlyOnce? && Sends(r.ev) == [Pubrec(p.pid, None, 2)]))
  }

  lemma AcceptOutcome(c0: Conn, c: Conn, p: Publish, q: Publish, respond: bool, again: bool, m: nat, n: nat)
    requires Plain5(c, m, n) && !p.qos.AtMostOnce? && (respond ==> IsConnected(c)) && q.qos == p.qos && q.pid == p.pid
    requires c == c0.(alias := c.alias)
    ensures var r := AcceptPublish(c, q, respond, again); Plain5(r.c, m, n) && PublishOutcome(c0, p, r)
  {
    hide AcceptPublish;
    AcceptPublishEffect(c, q, respond, again, m, n);
  }

  lemma FailOutcome(c: Conn, p: Publish, m: nat, n: nat)
    requires Plain5(c, m, n)
    ensures var r := Fail(c, TopicAliasInvalid); Plain5(r.c, m, n) && PublishOutcome(c, p, r)
  {
    hide Fail;
    FailAside(c, TopicAliasInvalid);
    ApartSends(Fail(c, TopicAliasInvalid).ev);
  }

  lemma ReceiveTopicEffect(c: Conn, p: Publish, respond: bool, again: bool, m: nat, n: nat)
    requires Plain5(c, m, n) && !p.qos.AtMostOnce? && (respond ==> IsConnected(c))
    ensures var r := ReceiveTopic(c, p, respond, again); Plain5(r.c, m, n) && PublishOutcome(c, p, r)
  {
    hide AcceptPublish, Fail, PublishOutcome, Plain5;
    FailOutcome(c, p, m, n);
    AcceptOutcome(c, c, p, p, respond, again, m, n);
    if p.alias.Some? && RecvAliasValid(c, p.alias.value) {
      var aliases := c.alias.recv.value;
      if p.topic != [] {
        var c1 := c.(alias := c.alias.(recv := Some(aliases.(aliases := aliases.aliases[p.alias.value := p.topic]))));
        assert Plain5(c1, m, n) by { PlainAlias(c, c1, m, n); }
        AcceptOutcome(c, c1, p, p, respond, again, m, n);
      } else if RecvGet(aliases, p.alias.value).Some? {
        AcceptOutcome(c, c, p, p.(topic := RecvGet(aliases, p.alias.value).value, extracted := true), respond, again,
            m, n);
      }
    }
  }

  lemma PlainAlias(c: Conn, d: Conn, m: nat, n: nat)
    requires Plain5(c, m, n) && d == c.(alias := d.alias)
    ensures Plain5(d, m, n)
  {
  }

  lemma {:induction false} ReceiveQos0Effect(c: Conn, p: Publish, m: nat, n: nat)
    requires Plain5(c, m, n) && p.qos.AtMostOnce?
    ensures var r := ReceivePublishV5(c, p); Plain5(r.c, m, n) && ReceiveEffect(c, PublishPacket(p), r)
  {
    hide Fail, Deliver;
    var r := ReceivePublishV5(c, p);
    FailAside(c, TopicAliasInvalid);
    DeliverAside(c, PublishPacket(p));
    if p.alias.Some? && RecvAliasValid(c, p.alias.value) {
      var aliases := c.alias.recv.value;
      if p.topic != [] {
        DeliverAside(c.(alias := c.alias.(recv :=
            Some(aliases.(aliases := aliases.aliases[p.alias.value := p.topic])))), PublishPacket(p));
      } else if RecvGet(aliases, p.alias.value).Some? {
        DeliverAside(c, PublishPacket(p.(topic := RecvGet(aliases, p.alias.value).value, extracted := true)));
      }
    }
    ApartSends(r.ev);
  }

  lemma ReceivePublishEffect(c: Conn, p: Publish, m: nat, n: nat)
    requires Plain5(c, m, n) && (!p.qos.AtMostOnce? ==> |c.flow.publishRecv| < n)
    ensures var r := ReceivePublishV5(c, p); Plain5(r.c, m, n) && ReceiveEffect(c, PublishPacket(p), r)
  {
    if p.qos.AtMostOnce? {
      ReceiveQos0Effect(c, p, m, n);
    } else {
      hide ReceiveTopic;
      var again := p.qos.ExactlyOnce? && p.pid in c.session.handled;
      var c1 := c.(flow := c.flow.(publishRecv := c.flow.publishRecv + {p.pid}));
      var c2 := if p.qos.AtLeastOnce? then c1 else c1.(session := c1.session.(handled := c1.session.handled + {p.pid}));
      ReceiveTopicEffect(c2, p, IsConnected(c), again, m, n);
    }
  }

  lemma ReceivePubrecEffect(c: Conn, p: Packet, m: nat, n: nat)
    requires Plain5(c, m, n) && p.Pubrec? && p.rc.None?
    ensures var r := ReceivePubrec(c, p); Plain5(r.c, m, n) && ReceiveEffect(c, p, r)
  {
    hide Fail, Deliver, Erase;
    var r := ReceivePubrec(c, p);
    if p.pid !in c.ids.pubrec {
      FailAside(c, ProtocolError);
      AsideReceive(c, p, r, m, n);
    } else {
      var c1 := c.(ids := c.ids.(pubrec := c.ids.pubrec - {p.pid}),
                   session := c.session.(store := Erase(c.session.store, Response(c.version, AwaitPubrec), p.pid)));
      var rel := Pubrel(p.pid, None, 2);
      if c.opt.autoPub && IsConnected(c) {
        var r1 := SendPubrel(c1, rel);
        DeliverAside(r1.c, p);
        if IsUsed(c1, p.pid) {
          SendNowEmits(c1.(ids := c1.ids.(pubcomp := c1.ids.pubcomp + {p.pid})), rel, None);
          AnswerEmits(r1, [rel], p, false);
        } else {
          Mute(r1.ev);
          AnswerEmits(r1, [], p, false);
        }
      } else {
        DeliverAside(c1, p);
        ApartSends(r.ev);
      }
    }
  }

  lemma ReceivePubrelEffect(c: Conn, p: Packet, m: nat, n: nat)
    requires Plain5(c, m, n) && p.Pubrel?
    ensures var r := ReceivePubrel(c, p); Plain5(r.c, m, n) && ReceiveEffect(c, p, r)
  {
    hide Respond, Deliver;
    var c1 := c.(session := c.session.(handled := c.session.handled - {p.pid}));
    var answer := if p.pid !in c.session.handled then Pubcomp(p.pid, Some(0x92), 3) else Pubcomp(p.pid, None, 2);
    var r1 := if IsConnected(c) then Respond(c1, answer) else R(c1, []);
    if IsConnected(c) { RespondState(c1, answer, m, n); } else { Mute([]); }
    DeliverAside(r1.c, p);
    AnswerEmits(r1, if IsConnected(c) && p.pid != 0 then [answer] else [], p, false);
  }

  lemma FinishState(c: Conn, id: nat, p: Packet, counted: bool, m: nat, n: nat)
    requires Plain5(c, m, n)
    ensures var r := Finish(c, id, p, counted);
      && r.c == c.(status := r.c.status, timers := r.c.timers, panicked := r.c.panicked,
                   ids := c.ids.(used := r.c.ids.used), flow := r.c.flow)
      && r.c.flow == c.flow.(sendCount := if counted && c.flow.sendCount > 0 then c.flow.sendCount - 1
          else c.flow.sendCount)
      && Apart(r.ev)
  {
    hide Deliver;
    var r := Release(c, id);
    DeliverAside(if counted then FreeSlot(r.c) else r.c, p);
  }

  lemma ReceiveAckEffect(c: Conn, p: Packet, m: nat, n: nat)
    requires Plain5(c, m, n) && (p.Puback? || p.Pubcomp?)
    ensures var r := ReceivePacket(c, p); Plain5(r.c, m, n) && ReceiveEffect(c, p, r)
  {
    hide Fail, Finish, Erase;
    var r := ReceivePacket(c, p);
    if (p.Puback? && p.pid !in c.ids.puback) || (p.Pubcomp? && p.pid !in c.ids.pubcomp) {
      FailAside(c, ProtocolError);
      AsideReceive(c, p, r, m, n);
    } else {
      var c1 := if p.Puback?
        then c.(ids := c.ids.(puback := c.ids.puback - {p.pid}),
                session := c.session.(store := Erase(c.session.store, Response(c.version, AwaitPuback), p.pid)))
        else c.(ids := c.ids.(pubcomp := c.ids.pubcomp - {p.pid}),
                session := c.session.(store := Erase(c.session.store, Response(c.version, AwaitPubcomp), p.pid)));
      FinishState(c1, p.pid, p, true, m, n);
      ApartSends(r.ev);
    }
  }

  lemma ReceiveSubackEffect(c: Conn, p: Packet, m: nat, n: nat)
    requires Plain5(c, m, n) && (p.Suback? || p.Unsuback?)
    ensures var r := ReceivePacket(c, p); Plain5(r.c, m, n) && ReceiveEffect(c, p, r)
  {
    hide Fail, Finish;
    var r := ReceivePacket(c, p);
    FailAside(c, ProtocolError);
    if p.Suback? { FinishState(c.(ids := c.ids.(suback := c.ids.suback - {p.pid})), p.pid, p, false, m, n); }
    else { FinishState(c.(ids := c.ids.(unsuback := c.ids.unsuback - {p.pid})), p.pid, p, false, m, n); }
    ApartSends(r.ev);
  }

  lemma ReceiveOtherEffect(c: Conn, p: Packet, m: nat, n: nat)
    requires Plain5(c, m, n) && !IsToken(p) && !p.PublishPacket? && !p.Connect? && !p.Connack? && !p.Suback?
        && !p.Unsuback?
    ensures var r := ReceivePacket(c, p); Plain5(r.c, m, n) && ReceiveEffect(c, p, r)
  {
    hide Deliver, SendWhenConnected;
    DeliverAside(c, p);
    SendWhenConnectedAside(c, Pingresp);
    DeliverAside(SendWhenConnected(c, Pingresp).c, p);
    AsideReceive(c, p, ReceivePacket(c, p), m, n);
  }

  lemma DeliveryFacts(c: Conn, p: Packet, m: nat, n: nat)
    requires Plain5(c, m, n) && Carried(p) && (Counted(p) ==> |c.flow.publishRecv| < n)
    ensures var r := Step(c, Arrival(p));
      Plain5(r.c, m, n) && ReceiveEffect(c, p, r) && AllCarried(Sends(r.ev))
  {
    hide ReceivePacket;
    var r := Step(c, Arrival(p));
    if CanReceive(c, TypeCode(p)) {
      PacketEffect(c, p, m, n);
      assert r == ReceivePacket(c, p);
    } else {
      RefusedPacket(c, p);
      assert r == Refuse(c, ProtocolError);
    }
  }

  lemma RefusedPacket(c: Conn, p: Packet)
    requires !IsToken(p) && !p.PublishPacket?
    ensures ReceiveEffect(c, p, Refuse(c, ProtocolError))
  {
    ApartSends([NotifyError(ProtocolError)]);
  }

  lemma PacketEffect(c: Conn, p: Packet, m: nat, n: nat)
    requires Plain5(c, m, n) && Carried(p) && (Counted(p) ==> |c.flow.publishRecv| < n)
    ensures var r := ReceivePacket(c, p); Plain5(r.c, m, n) && ReceiveEffect(c, p, r)
  {
    hide ReceiveEffect;
    match p
    case PublishPacket(pub) => ReceivePublishEffect(c, pub, m, n);
    case Pubrec(_, _, _) => ReceivePubrecEffect(c, p, m, n);
    case Pubrel(_, _, _) => ReceivePubrelEffect(c, p, m, n);
    case Puback(_, _, _) => ReceiveAckEffect(c, p, m, n);
    case Pubcomp(_, _, _) => ReceiveAckEffect(c, p, m, n);
    case Suback(_, _) => ReceiveSubackEffect(c, p, m, n);
    case Unsuback(_, _) => ReceiveSubackEffect(c, p, m, n);
    case _ => ReceiveOtherEffect(c, p, m, n);
  }

  // ---------------------------------------------------------------- one direction

  /** `flight` holds the identifiers of the counted messages that `s` has sent and that are not
      finished. At most one packet of each exchange is under way, and a receive slot is taken only for
      a message in flight whose PUBLISH has arrived and whose last acknowledgement is not yet sent. */
  ghost predicate HalfAt(s: Conn, r: Conn, out: seq<Packet>, back: seq<Packet>, flight: set<nat>, i: nat) {
    var nP, nL := Count(out, TCounted, i), Count(out, TPubrel, i);
    var nA, nR, nC := Count(back, TPuback, i), Count(back, TPubrec, i), Count(back, TPubcomp, i);
    && nP + nL + nA + nR + nC <= (if i in flight then 1 else 0)
    && (i in r.flow.publishRecv ==> i in flight && nP == 0 && nA == 0 && nC == 0)
    && (nA > 0 ==> i in s.ids.puback)
    && (nR > 0 ==> i in s.ids.pubrec)
    && (nC > 0 || nL > 0 ==> i in s.ids.pubcomp)
    && (forall p :: p in out && Is(p, TCounted, i) ==>
          if p.pub.qos.AtLeastOnce? then i in s.ids.puback else i in s.ids.pubrec)
  }

  ghost predicate Half(s: Conn, r: Conn, out: seq<Packet>, back: seq<Packet>, flight: set<nat>, m: nat) {
    && (forall i: nat :: HalfAt(s, r, out, back, flight, i))
    && s.flow.sendCount == |flight| <= m
  }

  /** The counted messages among the packets just sent. */
  function Started(ps: seq<Packet>): set<nat> { set k | 0 <= k < |ps| && Counted(ps[k]) :: ps[k].pub.pid }

  /** A packet that ends an exchange when its sender receives it. */
  function Ended(p: Packet): set<nat> {
    match p
    case Puback(i, _, _) => {i}
    case Pubcomp(i, _, _) => {i}
    case Pubrec(i, rc, _) => if rc.Some? && rc.value != 0 then {i} else {}
    case _ => {}
  }

  /** What the appended packets add to the counts of `i`. */
  lemma Appended(out: seq<Packet>, ps: seq<Packet>, i: nat)
    requires NoTokens(ps) || |ps| == 1
    ensures forall t :: Count(out + ps, t, i) == Count(out, t, i) + (if |ps| == 1 && Is(ps[0], t, i) then 1 else 0)
  {
    forall t ensures Count(out + ps, t, i) == Count(out, t, i) + (if |ps| == 1 && Is(ps[0], t, i) then 1 else 0) {
      CountAppend(out, ps, t, i);
      if |ps| == 1 { assert ps == [ps[0]]; CountOne(ps[0], t, i); } else { NoTokensCount(ps, i); }
    }
  }

  lemma SenderHost(s: Conn, r: Conn, out: seq<Packet>, back: seq<Packet>, flight: set<nat>, op: Op, e: R, m: nat)
    requires Half(s, r, out, back, flight, m) && HostEffect(s, op, e) && s.flow.sendMax == Some(m)
    requires op.OpSend? && Counted(op.packet) ==> op.packet.pub.pid !in flight
    ensures Half(e.c, r, out + Sends(e.ev), back, flight + Started(Sends(e.ev)), m)
  {
    var ps := Sends(e.ev);
    var flight' := flight + Started(ps);
    if NoTokens(ps) { assert flight' == flight; } else { assert flight' == flight + {ps[0].pub.pid}; }
    forall i: nat ensures HalfAt(e.c, r, out + ps, back, flight', i) {
      assert HalfAt(s, r, out, back, flight, i);
      Appended(out, ps, i);
      forall p | p in out + ps && Is(p, TCounted, i)
        ensures if p.pub.qos.AtLeastOnce? then i in e.c.ids.puback else i in e.c.ids.pubrec
      {
      }
    }
  }

  lemma ReceiverHost(s: Conn, r: Conn, out: seq<Packet>, back: seq<Packet>, flight: set<nat>, op: Op, e: R, m: nat)
    requires Half(s, r, out, back, flight, m) && HostEffect(r, op, e)
    ensures Half(s, e.c, out, back + Sends(e.ev), flight, m)
  {
    forall i: nat ensures HalfAt(s, e.c, out, back + Sends(e.ev), flight, i) {
      assert HalfAt(s, r, out, back, flight, i);
      Appended(back, Sends(e.ev), i);
    }
  }

  lemma SenderReceives(s: Conn, r: Conn, out: seq<Packet>, back: seq<Packet>, flight: set<nat>, e: R, m: nat)
    requires Half(s, r, out, back, flight, m) && back != [] && ReceiveEffect(s, back[0], e) && Carried(back[0])
    ensures Half(e.c, r, out + Sends(e.ev), back[1..], flight - Ended(back[0]), m)
  {
    var p := back[0];
    var ps := Sends(e.ev);
    var flight' := flight - Ended(p);
    if p.Puback? || p.Pubcomp? {
      var i := p.pid;
      assert HalfAt(s, r, out, back, flight, i);
      assert Is(p, if p.Puback? then TPuback else TPubcomp, i);
      assert i in flight && |flight'| == |flight| - 1;
    } else {
      assert flight' == flight;
    }
    forall i: nat ensures HalfAt(e.c, r, out + ps, back[1..], flight', i) {
      assert HalfAt(s, r, out, back, flight, i);
      Appended(out, ps, i);
      SenderReceivesAt(s, r, out, back, flight, e, i);
    }
  }

  lemma SenderReceivesAt(s: Conn, r: Conn, out: seq<Packet>, back: seq<Packet>, flight: set<nat>, e: R, i: nat)
    requires HalfAt(s, r, out, back, flight, i) && back != [] && ReceiveEffect(s, back[0], e) && Carried(back[0])
    ensures HalfAt(e.c, r, out + Sends(e.ev), back[1..], flight - Ended(back[0]), i)
  {
    var p := back[0];
    var ps := Sends(e.ev);
    hide Sends;
    Appended(out, ps, i);
    CountHead(back, TPuback, i);
    CountHead(back, TPubrec, i);
    CountHead(back, TPubcomp, i);
    hide Count;
    forall q | q in out + ps && Is(q, TCounted, i)
      ensures if q.pub.qos.AtLeastOnce? then i in e.c.ids.puback else i in e.c.ids.pubrec
    {
      assert q in out;
      CountMember(out, q, TCounted, i);
    }
  }

  lemma ReceiverReceives(s: Conn, r: Conn, out: seq<Packet>, back: seq<Packet>, flight: set<nat>, e: R, m: nat)
    requires Half(s, r, out, back, flight, m) && out != [] && ReceiveEffect(r, out[0], e) && Carried(out[0])
    ensures Half(s, e.c, out[1..], back + Sends(e.ev), flight, m)
  {
    forall i: nat ensures HalfAt(s, e.c, out[1..], back + Sends(e.ev), flight, i) {
      assert HalfAt(s, r, out, back, flight, i);
      ReceiverReceivesAt(s, r, out, back, flight, e, i);
    }
  }

  lemma ReceiverReceivesAt(s: Conn, r: Conn, out: seq<Packet>, back: seq<Packet>, flight: set<nat>, e: R, i: nat)
    requires HalfAt(s, r, out, back, flight, i) && out != [] && ReceiveEffect(r, out[0], e) && Carried(out[0])
    ensures HalfAt(s, e.c, out[1..], back + Sends(e.ev), flight, i)
  {
    assert out[0] in out;
    Appended(back, Sends(e.ev), i);
  }

  /** The receiver has a free slot for every counted PUBLISH on its way. */
  lemma SlotFree(s: Conn, r: Conn, out: seq<Packet>, back: seq<Packet>, flight: set<nat>, m: nat, p: Packet)
    requires Half(s, r, out, back, flight, m) && p in out && Counted(p)
    ensures |r.flow.publishRecv| < m
  {
    var i := p.pub.pid;
    assert HalfAt(s, r, out, back, flight, i);
    CountMember(out, p, TCounted, i);
    assert i in flight;
    forall j: nat | j in r.flow.publishRecv ensures j in flight - {i} { assert HalfAt(s, r, out, back, flight, j); }
    Subset(r.flow.publishRecv, flight - {i});
  }

  lemma {:induction false} Subset(x: set<nat>, y: set<nat>)
    requires x <= y
    ensures |x| <= |y|
  {
    if x != {} {
      var e :| e in x;
      Subset(x - {e}, y - {e});
    }
  }

  // ---------------------------------------------------------------- the connection

  /** Both endpoints, the packets under way, and the counted messages in flight in each direction. */
  datatype Net = Net(a: Conn, b: Conn, ab: seq<Packet>, ba: seq<Packet>, flightA: set<nat>, flightB: set<nat>)

  datatype Move = HostA(op: Op) | HostB(op: Op) | ToB | ToA

  /** Packets are encodable, and an identifier is not reused while its message is in flight. */
  predicate HostOk(c: Conn, flight: set<nat>, op: Op) {
    && HostMove(c, op)
    && (op.OpSend? ==> Encodable(op.packet))
    && (op.OpSend? && Counted(op.packet) ==> op.packet.pub.pid !in flight)
  }

  predicate Enabled(n: Net, m: Move) {
    match m
    case HostA(op) => HostOk(n.a, n.flightA, op)
    case HostB(op) => HostOk(n.b, n.flightB, op)
    case ToB => n.ab != []
    case ToA => n.ba != []
  }

  function Next(n: Net, m: Move): Net {
    match m
    case HostA(op) =>
      var r := Step(n.a, op);
      n.(a := r.c, ab := n.ab + Sends(r.ev), flightA := n.flightA + Started(Sends(r.ev)))
    case HostB(op) =>
      var r := Step(n.b, op);
      n.(b := r.c, ba := n.ba + Sends(r.ev), flightB := n.flightB + Started(Sends(r.ev)))
    case ToB =>
      if n.ab == [] then n
      else
        var r := Step(n.b, Arrival(n.ab[0]));
        n.(b := r.c, ab := n.ab[1..], ba := n.ba + Sends(r.ev), flightB := n.flightB - Ended(n.ab[0]))
    case ToA =>
      if n.ba == [] then n
      else
        var r := Step(n.a, Arrival(n.ba[0]));
        n.(a := r.c, ba := n.ba[1..], ab := n.ab + Sends(r.ev), flightA := n.flightA - Ended(n.ba[0]))
  }

  /** `ma` is the Receive Maximum of `b`, which binds `a`; `mb` that of `a`. */
  ghost predicate Inv(n: Net, ma: nat, mb: nat) {
    && Plain5(n.a, ma, mb) && Plain5(n.b, mb, ma)
    && AllCarried(n.ab) && AllCarried(n.ba)
    && Half(n.a, n.b, n.ab, n.ba, n.flightA, ma)
    && Half(n.b, n.a, n.ba, n.ab, n.flightB, mb)
  }

  /** The moment after the handshake of a clean connection. */
  predicate Start(n: Net, ma: nat, mb: nat) {
    && Plain5(n.a, ma, mb) && Plain5(n.b, mb, ma)
    && n.a.flow.sendCount == 0 && n.b.flow.sendCount == 0 && n.a.flow.publishRecv == {} && n.b.flow.publishRecv == {}
    && n.ab == [] && n.ba == [] && n.flightA == {} && n.flightB == {}
  }

  lemma HostAKeeps(n: Net, op: Op, ma: nat, mb: nat)
    requires Inv(n, ma, mb) && HostOk(n.a, n.flightA, op)
    ensures Inv(Next(n, HostA(op)), ma, mb)
  {
    hide Step, HalfAt, HostEffect, ReceiveEffect, HostMove, Plain5, Encodable;
    var e := Step(n.a, op);
    HostFacts(n.a, op, ma, mb);
    PlainMax(n.a, ma, mb);
    SenderHost(n.a, n.b, n.ab, n.ba, n.flightA, op, e, ma);
    ReceiverHost(n.b, n.a, n.ba, n.ab, n.flightB, op, e, mb);
  }

  lemma HostBKeeps(n: Net, op: Op, ma: nat, mb: nat)
    requires Inv(n, ma, mb) && HostOk(n.b, n.flightB, op)
    ensures Inv(Next(n, HostB(op)), ma, mb)
  {
    hide Step, HalfAt, HostEffect, ReceiveEffect, HostMove, Plain5, Encodable;
    var e := Step(n.b, op);
    HostFacts(n.b, op, mb, ma);
    PlainMax(n.b, mb, ma);
    SenderHost(n.b, n.a, n.ba, n.ab, n.flightB, op, e, mb);
    ReceiverHost(n.a, n.b, n.ab, n.ba, n.flightA, op, e, ma);
  }

  lemma ToBKeeps(n: Net, ma: nat, mb: nat)
    requires Inv(n, ma, mb) && n.ab != []
    ensures Inv(Next(n, ToB), ma, mb)
  {
    hide Step, HalfAt, HostEffect, ReceiveEffect, HostMove, Plain5, Encodable;
    var p := n.ab[0];
    var e := Step(n.b, Arrival(p));
    if Counted(p) { SlotFree(n.a, n.b, n.ab, n.ba, n.flightA, ma, p); }
    DeliveryFacts(n.b, p, mb, ma);
    SenderReceives(n.b, n.a, n.ba, n.ab, n.flightB, e, mb);
    ReceiverReceives(n.a, n.b, n.ab, n.ba, n.flightA, e, ma);
  }

  lemma ToAKeeps(n: Net, ma: nat, mb: nat)
    requires Inv(n, ma, mb) && n.ba != []
    ensures Inv(Next(n, ToA), ma, mb)
  {
    hide Step, HalfAt, HostEffect, ReceiveEffect, HostMove, Plain5, Encodable;
    var p := n.ba[0];
    var e := Step(n.a, Arrival(p));
    if Counted(p) { SlotFree(n.b, n.a, n.ba, n.ab, n.flightB, mb, p); }
    DeliveryFacts(n.a, p, ma, mb);
    SenderReceives(n.a, n.b, n.ab, n.ba, n.flightA, e, ma);
    ReceiverReceives(n.b, n.a, n.ba, n.ab, n.flightB, e, mb);
  }

  lemma NextKeeps(n: Net, m: Move, ma: nat, mb: nat)
    requires Inv(n, ma, mb) && Enabled(n, m)
    ensures Inv(Next(n, m), ma, mb)
  {
    hide Step, Inv, Next, HostOk;
    match m
    case HostA(op) => HostAKeeps(n, op, ma, mb);
    case HostB(op) => HostBKeeps(n, op, ma, mb);
    case ToB => ToBKeeps(n, ma, mb);
    case ToA => ToAKeeps(n, ma, mb);
  }

  lemma PlainMax(c: Conn, m: nat, n: nat)
    requires Plain5(c, m, n)
    ensures c.flow.sendMax == Some(m) && c.flow.recvMax == Some(n)
  {
  }

  // ---------------------------------------------------------------- the theorem

  ghost predicate Run(ns: seq<Net>, ms: seq<Move>, ma: nat, mb: nat) {
    && |ns| == |ms| + 1 && Start(ns[0], ma, mb)
    && forall k :: 0 <= k < |ms| ==> Enabled(ns[k], ms[k]) && ns[k + 1] == Next(ns[k], ms[k])
  }

  lemma {:induction false} RunInv(ns: seq<Net>, ms: seq<Move>, ma: nat, mb: nat, k: nat)
    requires Run(ns, ms, ma, mb) && k < |ns|
    ensures Inv(ns[k], ma, mb)
  {
    hide Step;
    if k > 0 {
      RunInv(ns, ms, ma, mb, k - 1);
      NextKeeps(ns[k - 1], ms[k - 1], ma, mb);
    }
  }

  /** An acknowledgement that frees a slot finds the count above zero. */
  lemma NoUnderflow(s: Conn, r: Conn, out: seq<Packet>, back: seq<Packet>, flight: set<nat>, m: nat, p: Packet)
    requires Half(s, r, out, back, flight, m) && p in back && Ended(p) != {}
    ensures s.flow.sendCount > 0 && Ended(p) <= flight
  {
    var i := p.pid;
    assert HalfAt(s, r, out, back, flight, i);
    CountMember(back, p, if p.Puback? then TPuback else if p.Pubcomp? then TPubcomp else TPubrec, i);
    assert i in flight;
    assert flight != {};
  }

  /** At every moment of every run: the quota counts exactly the messages in flight, stays within the
      peer's Receive Maximum and is above zero when an acknowledgement lowers it, and the next PUBLISH
      always finds a free slot at its receiver. */
  lemma QuotaExact(ns: seq<Net>, ms: seq<Move>, ma: nat, mb: nat, k: nat)
    requires Run(ns, ms, ma, mb) && k < |ns|
    ensures var n := ns[k];
      && n.a.flow.sendCount == |n.flightA| <= ma && n.b.flow.sendCount == |n.flightB| <= mb
      && (n.ba != [] && Ended(n.ba[0]) != {} ==> n.a.flow.sendCount > 0)
      && (n.ab != [] && Ended(n.ab[0]) != {} ==> n.b.flow.sendCount > 0)
      && (n.ab != [] && Counted(n.ab[0]) ==> n.b.flow.recvMax == Some(ma) && |n.b.flow.publishRecv| < ma)
      && (n.ba != [] && Counted(n.ba[0]) ==> n.a.flow.recvMax == Some(mb) && |n.a.flow.publishRecv| < mb)
  {
    hide Step;
    RunInv(ns, ms, ma, mb, k);
    var n := ns[k];
    if n.ba != [] && Ended(n.ba[0]) != {} { NoUnderflow(n.a, n.b, n.ab, n.ba, n.flightA, ma, n.ba[0]); }
    if n.ab != [] && Ended(n.ab[0]) != {} { NoUnderflow(n.b, n.a, n.ba, n.ab, n.flightB, mb, n.ab[0]); }
    if n.ab != [] && Counted(n.ab[0]) { SlotFree(n.a, n.b, n.ab, n.ba, n.flightA, ma, n.ab[0]); }
    if n.ba != [] && Counted(n.ba[0]) { SlotFree(n.b, n.a, n.ba, n.ab, n.flightB, mb, n.ba[0]); }
  }

  /** A handshake that announces a Receive Maximum on both sides leads to a start of these runs. */
  lemma FlowStart(ma: nat, mb: nat)
    requires 1 <= ma <= 0xFFFF && 1 <= mb <= 0xFFFF
    ensures var pc, ps := [ReceiveMaximum(mb)], [ReceiveMaximum(ma)];
      Start(Net(ClientAt(false, pc, ps), ServerAt(pc, ps), [], [], {}, {}), ma, mb)
  {
    hide ClientAt, ServerAt;
    ClientIs(false, [ReceiveMaximum(mb)], ReceiveMaximum(ma));
    ServerIs([ReceiveMaximum(mb)], ReceiveMaximum(ma));
  }
}
