/** What one call of a v3.1.1 endpoint with automatic responses and a kept session does to QoS 2 exchanges. */
module Qos2 {
  import opened Packets
  import opened Store
  import opened Engine
  import opened Frames
  import opened Session
  import opened Tokens
  import opened Traffic

  predicate StoresMessage(s: seq<StorePacket>, i: nat, m: Publish) {
    match Find(s, i)
    case Some(StoredPublish(_, q)) => q.qos.ExactlyOnce? && Content(q) == m
    case _ => false
  }

  predicate StoresRelease(s: seq<StorePacket>, i: nat) {
    match Find(s, i)
    case Some(StoredPubrel(_, _, _, _)) => true
    case _ => false
  }

  // ---------------------------------------------------------------- endpoints

  /** A kept session with automatic responses. */
  predicate Kept(c: Conn) {
    && c.opt.autoPub && c.flow.maxRecv == NO_SIZE_LIMIT
    && (!c.status.Disconnected? ==> c.session.needStore)
    && (!c.session.needStore ==> c.ids.pubrec == {} && c.ids.pubcomp == {} && c.session.handled == {})
  }

  ghost predicate Endpoint(c: Conn) { Consistent(c) && Kept(c) }

  /** What is published while disconnected is stored. */
  predicate KeepsOffline(c: Conn) { c.opt.offlinePublish && c.session.needStore }

  /** Calls a host may make. Connecting, accepting and closing are moves of their own. */
  ghost predicate HostMove(c: Conn, op: Op) {
    && HostOk(c, op)
    && match op
       case OpSend(v, p) =>
         && v.V3_1_1?
         && (p.PublishPacket? || p.Subscribe? || p.Unsubscribe? || p.Suback? || p.Unsuback? || p.Pingreq?
             || p.Pingresp?)
         && (p.PublishPacket? && !p.pub.qos.AtMostOnce? && c.status.Disconnected? ==> KeepsOffline(c))
       case OpAutoPub(on) => on
       case OpReceive(_) => false
       case OpClosed(_) => false
       case OpRestoreHandled(_) => false
       case OpRestorePackets(_) => false
       case _ => true
  }

  predicate Refused(ev: seq<Event>) { exists k :: 0 <= k < |ev| && ev[k].NotifyError? }

  /** The QoS 2 message that a call commits the connection to deliver. */
  function Taken(c: Conn, op: Op): seq<Publish> {
    if op.OpSend? && IsQos2(op.packet) && !Refused(Step(c, op).ev) then [Content(op.packet.pub)] else []
  }

  /** A packet of a QoS 2 exchange. */
  predicate Involved(p: Packet) { IsQos2(p) || p.Pubrec? || p.Pubrel? || p.Pubcomp? }

  predicate Uninvolved(ps: seq<Packet>) { forall k :: 0 <= k < |ps| ==> !Involved(ps[k]) }

  /** QoS 2 exchanges in which this end is the sender go on unchanged. */
  ghost predicate SenderStays(c: Conn, d: Conn) {
    && d.ids.pubrec == c.ids.pubrec && d.ids.pubcomp == c.ids.pubcomp
    && (forall i :: i in c.ids.pubrec || i in c.ids.pubcomp ==> Find(d.session.store, i) == Find(c.session.store, i))
  }

  /** An identifier in use that no exchange waits for stays so. */
  ghost predicate Parked(c: Conn, d: Conn, i: nat) {
    i in c.ids.used && !InFlight(c.ids, i) ==> i in d.ids.used && !InFlight(d.ids, i)
  }

  /** The identifier a call uses for something new or gives back. */
  predicate Touches(op: Op, i: nat) {
    match op
    case OpSend(_, PublishPacket(p)) => !p.qos.AtMostOnce? && p.pid == i
    case OpSend(_, Subscribe(id, _)) => id == i
    case OpSend(_, Unsubscribe(id, _)) => id == i
    case OpRelease(id) => id == i
    case _ => false
  }

  lemma AppendStays(c: Conn, p: StorePacket)
    requires Consistent(c)
    requires forall i :: i in c.ids.pubrec || i in c.ids.pubcomp ==> IdOf(p) != i
    ensures forall i :: i in c.ids.pubrec || i in c.ids.pubcomp ==>
      Find(c.session.store + [p], i) == Find(c.session.store, i)
  {
    forall i | i in c.ids.pubrec || i in c.ids.pubcomp
      ensures Find(c.session.store + [p], i) == Find(c.session.store, i) { FindAppend(c.session.store, p, i); }
  }

  lemma AcceptedNotRefused(c: Conn, p: Publish)
    requires c.version.V3_1_1?
    ensures Refused(SendPublish(c, p).ev) <==> !AcceptsPublish(c, p)
  {
    hide SendPublishV5;
    var ev := SendPublish(c, p).ev;
    if !AcceptsPublish(c, p) { assert ev[0].NotifyError?; }
  }

  lemma HostPublish(c: Conn, p: Publish)
    requires Endpoint(c) && HostMove(c, OpSend(V3_1_1, PublishPacket(p)))
    ensures var r := SendPublish(c, p);
      && Endpoint(r.c) && r.c.status == c.status && r.c.opt == c.opt && r.c.session.handled == c.session.handled
      && (forall i: nat :: !(!p.qos.AtMostOnce? && p.pid == i) ==> Parked(c, r.c, i))
      && (!IsConnected(c) ==> Sends(r.ev) == [])
      && (if p.qos.ExactlyOnce? && AcceptsPublish(c, p) then
            && Fresh(c, p.pid)
            && r.c.ids.pubrec == c.ids.pubrec + {p.pid} && r.c.ids.pubcomp == c.ids.pubcomp
            && r.c.session.store == c.session.store + [StoredPublish(V3_1_1, p.(dup := true))]
            && Emits(r.ev, if IsConnected(c) then [PublishPacket(p)] else [], [])
          else SenderStays(c, r.c) && exists ps :: Emits(r.ev, ps, []) && Uninvolved(ps) && ps <= [PublishPacket(p)])
  {
    var r := SendPublish(c, p);
    PublishKeeps(c, p);
    SendPublishEmits(c, p);
    if !p.qos.AtMostOnce? && AcceptsPublish(c, p) {
      var s := StoredPublish(V3_1_1, p.(dup := true));
      forall q | q in c.session.store ensures IdOf(q) != p.pid { assert Awaited(c.ids, q); }
      AppendStays(c, s);
    }
  }

  /** A packet that belongs on an established connection and that a v3.1.1 endpoint can take. */
  predicate Clean(p: Packet) {
    && Size(V3_1_1, p) <= NO_SIZE_LIMIT && !p.Connect? && !p.Connack?
    && WireOk(Good(p, 4)) && (p.PublishPacket? && !p.pub.qos.AtMostOnce? ==> p.pub.pid != 0)
  }

  predicate AllClean(ps: seq<Packet>) { forall k :: 0 <= k < |ps| ==> Clean(ps[k]) }

  /** What one call of the host does, as far as QoS 2 is concerned. */
  ghost predicate HostEffect(c: Conn, op: Op, r: R) {
    && Endpoint(r.c) && r.c.status == c.status && r.c.opt.role == c.opt.role && r.c.session.handled == c.session.handled
    && (forall i: nat :: !Touches(op, i) ==> Parked(c, r.c, i)) && (c.session.needStore ==> r.c.session.needStore)
    && Notices(r.ev) == [] && AllClean(Sends(r.ev)) && (!IsConnected(c) ==> Sends(r.ev) == [])
    && (if op.OpSend? && IsQos2(op.packet) && !Refused(r.ev) then
          var p := op.packet.pub;
          && Fresh(c, p.pid)
          && r.c.ids.pubrec == c.ids.pubrec + {p.pid} && r.c.ids.pubcomp == c.ids.pubcomp
          && r.c.session.store == c.session.store + [StoredPublish(V3_1_1, p.(dup := true))]
          && Sends(r.ev) == if IsConnected(c) then [PublishPacket(p)] else []
        else SenderStays(c, r.c) && Uninvolved(Sends(r.ev)))
  }

  lemma PublishEffect(c: Conn, p: Publish)
    requires Endpoint(c) && HostMove(c, OpSend(V3_1_1, PublishPacket(p)))
    ensures HostEffect(c, OpSend(V3_1_1, PublishPacket(p)), SendPublish(c, p))
  {
    HostPublish(c, p);
    AcceptedNotRefused(c, p);
  }

  lemma RequestEffect(c: Conn, p: Packet)
    requires Endpoint(c) && HostMove(c, OpSend(V3_1_1, p)) && (p.Subscribe? || p.Unsubscribe?)
    ensures HostEffect(c, OpSend(V3_1_1, p), SendRequest(c, p))
  {
    hide Consistent, Sends, Notices;
    RequestKeeps(c, p);
    assert c.version.V3_1_1? && c.flow.maxSend == NO_SIZE_LIMIT by { LimitsOf(c); }
    assert var ev := SendRequest(c, p).ev; Emits(ev, [], []) || (IsConnected(c) && Emits(ev, [p], [])) by {
      var c1 := if p.Subscribe? then c.(ids := c.ids.(suback := c.ids.suback + {p.pid}))
                else c.(ids := c.ids.(unsuback := c.ids.unsuback + {p.pid}));
      if !TooLarge(c, p) && IsConnected(c) && IsUsed(c, p.pid) { SendNowEmits(c1, p, Some(p.pid)); }
      else { Mute(SendRequest(c, p).ev); }
    }
    assert var d := SendRequest(c, p).c;
      && d.status == c.status && d.opt == c.opt && d.session == c.session && d.flow == c.flow
      && SenderStays(c, d) && forall i: nat :: i != p.pid ==> Parked(c, d, i);
    hide SendRequest;
  }

  lemma LimitsOf(c: Conn)
    requires Consistent(c)
    ensures c.version.V3_1_1? && c.flow.maxSend == NO_SIZE_LIMIT
  {
  }

  /** A call that changes neither identifiers nor session, and sends no packet of an exchange. */
  lemma TimersOnly(c: Conn, op: Op, r: R, ps: seq<Packet>)
    requires Endpoint(c) && !(op.OpSend? && IsQos2(op.packet))
    requires r.c == c.(timers := r.c.timers)
    requires Emits(r.ev, ps, []) && AllClean(ps) && Uninvolved(ps) && (!IsConnected(c) ==> ps == [])
    ensures HostEffect(c, op, r)
  {
  }

  lemma SendEffect(c: Conn, p: Packet)
    requires Endpoint(c) && HostMove(c, OpSend(V3_1_1, p))
    ensures HostEffect(c, OpSend(V3_1_1, p), Send(c, V3_1_1, p))
  {
    hide HostEffect, SendPublish, SendConnect, SendConnack, SendRequest, SendPubrel, SendDisconnect, Emits;
    var op := OpSend(V3_1_1, p);
    var r := Send(c, V3_1_1, p);
    if !RoleMaySend(c.opt.role, V3_1_1, p) {
      Mute(r.ev);
      if IsQos2(p) { assert false; }
      TimersOnly(c, op, r, []);
    } else {
      match p
      case PublishPacket(pub) => PublishEffect(c, pub);
      case Subscribe(_, _) => RequestEffect(c, p);
      case Unsubscribe(_, _) => RequestEffect(c, p);
      case Pingreq => PingreqEmits(c); TimersOnly(c, op, r, if IsConnected(c) then [p] else []);
      case _ => SendWhenConnectedEmits(c, p); TimersOnly(c, op, r, if IsConnected(c) then [p] else []);
    }
  }

  lemma SettingEffect(c: Conn, op: Op)
    requires Endpoint(c) && HostMove(c, op) && !op.OpSend? && !op.OpTimer?
    ensures HostEffect(c, op, Step(c, op))
  {
    hide Step;
    StepKeeps(c, op);
    SettingState(c, op);
    SettingQuiet(c, op);
    hide Step, Sends, Notices, Consistent, Touches, HostMove;
  }

  lemma SettingQuiet(c: Conn, op: Op)
    requires HostMove(c, op) && !op.OpSend? && !op.OpTimer?
    ensures Emits(Step(c, op).ev, [], [])
  {
    hide Receive, Send, TimerFired;
    Mute(Step(c, op).ev);
  }

  lemma SettingState(c: Conn, op: Op)
    requires HostMove(c, op) && !op.OpSend? && !op.OpTimer? && Endpoint(c)
    ensures var d := Step(c, op).c;
      && Kept(d) && d.status == c.status && d.opt.role == c.opt.role && d.session.handled == c.session.handled
      && SenderStays(c, d) && (c.session.needStore ==> d.session.needStore)
      && forall i: nat :: !Touches(op, i) ==> Parked(c, d, i)
  {
    hide Consistent, Receive, Send, TimerFired;
  }

  lemma TimerEffect(c: Conn, k: TimerKind)
    requires Endpoint(c)
    ensures HostEffect(c, OpTimer(k), TimerFired(c, k))
  {
    hide HostEffect, Consistent, Kept;
    var op, r := OpTimer(k), TimerFired(c, k);
    assert c.version.V3_1_1? by { VersionOf(c); }
    if k.PingreqSend? && IsConnected(c) {
      PingreqEmits(Disarm(c, k));
      TimersOnly(c, op, r, [Pingreq]);
    } else {
      Mute(r.ev);
      TimersOnly(c, op, r, []);
    }
  }

  lemma VersionOf(c: Conn)
    requires Consistent(c)
    ensures c.version.V3_1_1?
  {
  }

  /** One call of the host of endpoint `c`. */
  lemma HostFacts(c: Conn, op: Op)
    requires Endpoint(c) && HostMove(c, op)
    ensures HostEffect(c, op, Step(c, op))
  {
    hide Endpoint, HostEffect, Receive, Send, TimerFired;
    match op
    case OpSend(v, p) => SendEffect(c, p);
    case OpTimer(k) => TimerEffect(c, k);
    case _ => SettingEffect(c, op);
  }

  lemma PingreqEmits(c: Conn)
    requires c.version.V3_1_1?
    ensures Emits(SendPingreq(c).ev, if IsConnected(c) then [Pingreq] else [], [])
  {
    if !IsConnected(c) {
      Mute(SendPingreq(c).ev);
    } else if c.timers.respTimeoutMs == 0 {
      SendNowEmits(c, Pingreq, None);
    } else {
      var c1 := c.(timers := c.timers.(respSet := true));
      var e1, e2 := RequestSendPacket(Pingreq, None), RequestTimerReset(PingrespRecv, c.timers.respTimeoutMs);
      One(e1);
      Mute([e2] + PostSend(c1).ev);
      Both([e1], [Pingreq], [], [e2] + PostSend(c1).ev, [], []);
      assert [e1] + ([e2] + PostSend(c1).ev) == [e1, e2] + PostSend(c1).ev;
    }
  }

  /** Reception of a packet by an endpoint that is connected or has sent DISCONNECT, as far as QoS 2 is
      concerned. Only a connected endpoint answers. */
  ghost predicate ReceiveFacts(c: Conn, p: Packet, r: R) {
    && Endpoint(r.c) && r.c.status == c.status && r.c.opt.role == c.opt.role && AllClean(Sends(r.ev))
    && (!p.Pubrec? ==> forall i: nat :: Parked(c, r.c, i)) && r.c.session.needStore == c.session.needStore
    && match p
       case PublishPacket(pub) =>
         && SenderStays(c, r.c)
         && (if pub.qos.ExactlyOnce? then
               && r.c.session.handled == c.session.handled + {pub.pid}
               && Emits(r.ev, Answer(c, Pubrec(pub.pid, None, 2)), if pub.pid in c.session.handled then []
                   else [Content(pub)])
             else r.c.session.handled == c.session.handled && Uninvolved(Sends(r.ev)) && Notices(r.ev) == [])
       case Pubrel(i, _, _) =>
         && SenderStays(c, r.c) && r.c.session.handled == c.session.handled - {i}
         && Emits(r.ev, Answer(c, Pubcomp(i, None, 2)), [])
       case Pubrec(i, _, _) =>
         && r.c.session.handled == c.session.handled && r.c.ids.used == c.ids.used
         && (if i in c.ids.pubrec then
               && r.c.ids == c.ids.(pubrec := c.ids.pubrec - {i}, pubcomp := c.ids.pubcomp + if IsConnected(c)
                   then {i} else {})
               && (IsConnected(c) ==> StoresRelease(r.c.session.store, i))
               && (forall j :: j != i ==> Find(r.c.session.store, j) == Find(c.session.store, j))
               && Emits(r.ev, Answer(c, Pubrel(i, None, 2)), [])
             else SenderStays(c, r.c) && r.c.ids == c.ids && Emits(r.ev, [], []))
       case Pubcomp(i, _, _) =>
         && r.c.session.handled == c.session.handled && Emits(r.ev, [], [])
         && r.c.ids.pubrec == c.ids.pubrec && r.c.ids.pubcomp == c.ids.pubcomp - {i}
         && (i in c.ids.pubcomp ==> i !in r.c.ids.used)
         && (forall j :: j != i ==> Find(r.c.session.store, j) == Find(c.session.store, j))
       case _ =>
         SenderStays(c, r.c) && r.c.session.handled == c.session.handled && Uninvolved(Sends(r.ev))
             && Notices(r.ev) == []
  }

  function Answer(c: Conn, p: Packet): seq<Packet> { if IsConnected(c) then [p] else [] }

  lemma FindOthers(s: seq<StorePacket>, r: Response, i: nat)
    ensures forall j :: j != i ==> Find(Erase(s, r, i), j) == Find(s, j)
  {
    forall j | j != i ensures Find(Erase(s, r, i), j) == Find(s, j) { FindErase(s, r, i, j); }
  }

  lemma PubrecFacts(c: Conn, p: Packet)
    requires Endpoint(c) && !c.status.Connecting? && p.Pubrec? && p.pid != 0
    ensures ReceiveFacts(c, p, ReceivePubrec(c, p))
  {
    ReceivePubrecKeeps(c, p);
    if p.pid !in c.ids.pubrec {
      Mute(ReceivePubrec(c, p).ev);
    } else if IsConnected(c) {
      PubrecAnswered(c, p);
    } else {
      PubrecAbandoned(c, p);
    }
  }

  lemma PubrecAnswered(c: Conn, p: Packet)
    requires Endpoint(c) && IsConnected(c) && p.Pubrec? && p.pid != 0 && p.pid in c.ids.pubrec
    ensures ReceiveFacts(c, p, ReceivePubrec(c, p))
  {
    var r := ReceivePubrec(c, p);
    var i := p.pid;
    ReceivePubrecKeeps(c, p);
    ReceivePubrecEmits(c, p);
    var resp := Response(V3_1_1, AwaitPubrec);
    var st := Erase(c.session.store, resp, i);
    AckKeeps(c, c.ids.(pubrec := c.ids.pubrec - {i}), resp, i);
    FindOthers(c.session.store, resp, i);
    var rel := StoredPubrel(V3_1_1, i, None, 2);
    forall j ensures Find(st + [rel], j) == if Find(st, j).Some? then Find(st, j) else if i == j then Some(rel)
        else None {
      FindAppend(st, rel, j);
    }
    FindHas(st, i);
    assert r.c.session.store == st + [rel];
  }

  /** Without a connection the stored PUBLISH goes and no PUBREL takes its place. */
  lemma PubrecAbandoned(c: Conn, p: Packet)
    requires Endpoint(c) && !IsConnected(c) && p.Pubrec? && p.pid != 0 && p.pid in c.ids.pubrec
    ensures ReceiveFacts(c, p, ReceivePubrec(c, p))
  {
    ReceivePubrecKeeps(c, p);
    FindOthers(c.session.store, Response(V3_1_1, AwaitPubrec), p.pid);
    var c1 := c.(ids := c.ids.(pubrec := c.ids.pubrec - {p.pid}),
                 session := c.session.(store := Erase(c.session.store, Response(c.version, AwaitPubrec), p.pid)));
    DeliverEmits(c1, p);
    assert [] + Deliver(c1, p).ev == Deliver(c1, p).ev;
  }

  lemma PubcompFacts(c: Conn, p: Packet)
    requires Endpoint(c) && !c.status.Connecting? && p.Pubcomp? && p.pid != 0
    ensures ReceiveFacts(c, p, ReceivePubcomp(c, p))
  {
    ReceiveAckKeeps(c, p);
    if p.pid in c.ids.pubcomp {
      var c1 := c.(ids := c.ids.(pubcomp := c.ids.pubcomp - {p.pid}),
                   session := c.session.(store := Erase(c.session.store, Response(c.version, AwaitPubcomp), p.pid)));
      FinishEmits(c1, p.pid, p, true);
      FindOthers(c.session.store, Response(V3_1_1, AwaitPubcomp), p.pid);
    } else {
      Mute(ReceivePubcomp(c, p).ev);
    }
  }

  lemma PubackFacts(c: Conn, p: Packet)
    requires Endpoint(c) && !c.status.Connecting? && p.Puback? && p.pid != 0
    ensures ReceiveFacts(c, p, ReceivePuback(c, p))
  {
    ReceiveAckKeeps(c, p);
    if p.pid in c.ids.puback {
      var c1 := c.(ids := c.ids.(puback := c.ids.puback - {p.pid}),
                   session := c.session.(store := Erase(c.session.store, Response(c.version, AwaitPuback), p.pid)));
      FinishEmits(c1, p.pid, p, true);
      FindOthers(c.session.store, Response(V3_1_1, AwaitPuback), p.pid);
    } else {
      Mute(ReceivePuback(c, p).ev);
    }
  }

  lemma PingreqReceivedEmits(c: Conn)
    requires c.version.V3_1_1?
    ensures Notices(ReceivePingreq(c).ev) == []
        && (Sends(ReceivePingreq(c).ev) == [] || Sends(ReceivePingreq(c).ev) == [Pingresp])
  {
    var answers := !c.opt.role.Client? && !c.opt.isClient && c.opt.autoPing && IsConnected(c);
    SendWhenConnectedEmits(c, Pingresp);
    Mute([]);
    AnswerEmits(if answers then SendWhenConnected(c, Pingresp) else R(c, []), if answers then [Pingresp]
        else [], Pingreq, false);
  }

  predicate Ordinary(p: Packet) {
    !p.PublishPacket? && !p.Puback? && !p.Pubrec? && !p.Pubrel? && !p.Pubcomp?
  }

  /** A reception that leaves the session and the QoS 2 identifiers alone. */
  lemma OrdinaryFacts(c: Conn, p: Packet, r: R, ps: seq<Packet>)
    requires Endpoint(c) && Ordinary(p) && Consistent(r.c)
    requires r.c == c.(timers := r.c.timers, ids := r.c.ids)
    requires r.c.ids.pubrec == c.ids.pubrec && r.c.ids.pubcomp == c.ids.pubcomp && forall i: nat :: Parked(c, r.c, i)
    requires Emits(r.ev, ps, []) && AllClean(ps) && Uninvolved(ps)
    ensures ReceiveFacts(c, p, r)
  {
  }

  lemma OtherFacts(c: Conn, p: Packet)
    requires Endpoint(c) && !c.status.Connecting? && Clean(p) && Ordinary(p)
    ensures ReceiveFacts(c, p, ReceivePacket(c, p))
  {
    hide ReceiveFacts, ReceivePacket;
    match p
    case Suback(_, _) => RequestAckFacts(c, p);
    case Unsuback(_, _) => RequestAckFacts(c, p);
    case _ => PlainFacts(c, p);
  }

  lemma RequestAckFacts(c: Conn, p: Packet)
    requires Endpoint(c) && (p.Suback? || p.Unsuback?)
    ensures ReceiveFacts(c, p, ReceivePacket(c, p))
  {
    ReceivePacketKeeps(c, p);
    var r := ReceivePacket(c, p);
    if p.Suback? && p.pid in c.ids.suback {
      FinishEmits(c.(ids := c.ids.(suback := c.ids.suback - {p.pid})), p.pid, p, false);
    } else if p.Unsuback? && p.pid in c.ids.unsuback {
      FinishEmits(c.(ids := c.ids.(unsuback := c.ids.unsuback - {p.pid})), p.pid, p, false);
    } else {
      Mute(r.ev);
    }
    assert forall i: nat :: Parked(c, r.c, i);
    hide Emits, Consistent, ReceiveFacts;
    assert AllClean([]) && Uninvolved([]);
    OrdinaryFacts(c, p, r, []);
  }

  lemma PlainFacts(c: Conn, p: Packet)
    requires Endpoint(c) && Clean(p) && Ordinary(p) && !p.Suback? && !p.Unsuback?
    ensures ReceiveFacts(c, p, ReceivePacket(c, p))
  {
    hide ReceivePacket, Step;
    ReceivePacketKeeps(c, p);
    PlainState(c, p);
    PlainEmits(c, p);
    var r := ReceivePacket(c, p);
    hide Endpoint, Consistent, ReceiveFacts, ReceivePacket, Sends, Notices;
    OrdinaryFacts(c, p, r, Sends(r.ev));
  }

  lemma PlainState(c: Conn, p: Packet)
    requires Clean(p) && Ordinary(p) && !p.Suback? && !p.Unsuback?
    ensures ReceivePacket(c, p).c == c.(timers := ReceivePacket(c, p).c.timers)
  {
    hide ReceiveConnack, ReceiveConnect, ReceivePuback, ReceivePubcomp, ReceivePublishV3, ReceivePublishV5,
      ReceivePubrec, ReceivePubrel;
  }

  lemma PlainEmits(c: Conn, p: Packet)
    requires c.version.V3_1_1? && Clean(p) && Ordinary(p) && !p.Suback? && !p.Unsuback?
    ensures var ev := ReceivePacket(c, p).ev;
      Notices(ev) == [] && (Sends(ev) == [] || Sends(ev) == [Pingresp])
  {
    hide ReceiveConnack, ReceiveConnect, ReceivePuback, ReceivePubcomp, ReceivePublishV3, ReceivePublishV5,
      ReceivePubrec, ReceivePubrel, Step;
    var r := ReceivePacket(c, p);
    match p {
      case Pingreq => PingreqReceivedEmits(c);
      case Pingresp => PlainNotice(r.ev);
      case Disconnect(_, _) => PlainNotice(r.ev);
      case _ => DeliverEmits(c, p);
    }
  }

  lemma {:induction false} PlainNotice(ev: seq<Event>)
    requires forall k :: 0 <= k < |ev| ==>
      !ev[k].RequestSendPacket? && (ev[k].NotifyPacketReceived? ==> !IsQos2(ev[k].packet))
    ensures Emits(ev, [], [])
  {
    if ev != [] { PlainNotice(ev[1..]); }
  }

  lemma DeliveryFacts(c: Conn, p: Packet)
    requires Endpoint(c) && !c.status.Connecting? && c.session.needStore && Clean(p)
    ensures ReceiveFacts(c, p, Step(c, Arrival(p)))
  {
    hide ReceivePacket, ReceiveFacts;
    var r := Step(c, Arrival(p));
    if CanReceive(c, TypeCode(p)) && !p.Auth? {
      PacketFacts(c, p);
    } else {
      RefusedFacts(c, p, r);
    }
  }

  lemma RefusedFacts(c: Conn, p: Packet, r: R)
    requires Endpoint(c) && r.c == c && |r.ev| == 1 && r.ev[0].NotifyError?
    requires Ordinary(p)
    ensures ReceiveFacts(c, p, r)
  {
    hide Step;
    Mute(r.ev);
  }

  lemma PublishState(c: Conn, p: Publish)
    requires Endpoint(c) && !c.status.Connecting? && Clean(PublishPacket(p))
    ensures var d := ReceivePublishV3(c, p).c;
      d == c.(timers := d.timers,
              session := if p.qos.ExactlyOnce? then c.session.(handled := c.session.handled + {p.pid}) else c.session)
  {
  }

  lemma PublishUnanswered(c: Conn, p: Publish)
    requires c.version.V3_1_1? && !IsConnected(c)
    ensures Emits(ReceivePublishV3(c, p).ev, [], if p.qos.ExactlyOnce? && p.pid !in c.session.handled
        then [Content(p)] else [])
  {
    var c1 := if p.qos.ExactlyOnce? then c.(session := c.session.(handled := c.session.handled + {p.pid})) else c;
    Mute([]);
    AnswerEmits(R(c1, []), [], PublishPacket(p), p.qos.ExactlyOnce? && p.pid in c.session.handled);
    assert [] + Deliver(c, PublishPacket(p)).ev == Deliver(c, PublishPacket(p)).ev;
  }

  lemma PubrelUnanswered(c: Conn, p: Packet)
    requires p.Pubrel? && !IsConnected(c)
    ensures Emits(ReceivePubrel(c, p).ev, [], [])
  {
    var c1 := c.(session := c.session.(handled := c.session.handled - {p.pid}));
    Mute([]);
    AnswerEmits(R(c1, []), [], p, false);
  }

  lemma PublishFacts(c: Conn, p: Publish)
    requires Endpoint(c) && !c.status.Connecting? && c.session.needStore && Clean(PublishPacket(p))
    ensures ReceiveFacts(c, PublishPacket(p), ReceivePublishV3(c, p))
  {
    hide ReceivePublishV3;
    PublishState(c, p);
    var r := ReceivePublishV3(c, p);
    if IsConnected(c) {
      ReceivePublishEmits(c, p);
    } else {
      PublishUnanswered(c, p);
    }
  }

  lemma PubrelFacts(c: Conn, p: Packet)
    requires Endpoint(c) && !c.status.Connecting? && p.Pubrel? && Clean(p)
    ensures ReceiveFacts(c, p, ReceivePubrel(c, p))
  {
    hide ReceivePacket, Step;
    ReceivePacketKeeps(c, p);
    if IsConnected(c) { ReceivePubrelEmits(c, p); } else { PubrelUnanswered(c, p); }
  }

  lemma PacketFacts(c: Conn, p: Packet)
    requires Endpoint(c) && !c.status.Connecting? && c.session.needStore && Clean(p)
    ensures ReceiveFacts(c, p, ReceivePacket(c, p))
  {
    hide ReceiveFacts;
    match p
    case PublishPacket(pub) => PublishFacts(c, pub);
    case Puback(_, _, _) => PubackFacts(c, p);
    case Pubrec(_, _, _) => PubrecFacts(c, p);
    case Pubrel(_, _, _) => PubrelFacts(c, p);
    case Pubcomp(_, _, _) => PubcompFacts(c, p);
    case _ => OtherFacts(c, p);
  }

  lemma UninvolvedCount(ps: seq<Packet>, i: nat)
    requires Uninvolved(ps)
    ensures Count(ps, TQos2, i) == 0 && Count(ps, TPubrec, i) == 0
    ensures Count(ps, TPubrel, i) == 0 && Count(ps, TPubcomp, i) == 0
  {
    CountNone(ps, TQos2, i);
    CountNone(ps, TPubrec, i);
    CountNone(ps, TPubrel, i);
    CountNone(ps, TPubcomp, i);
  }

  lemma {:induction false} StoredCounts(st: seq<StorePacket>, i: nat)
    requires Distinct(st)
    ensures Count(StoredPackets(st), TQos2, i)
         == (match Find(st, i) case Some(StoredPublish(_, q)) => if q.qos.ExactlyOnce? then 1 else 0 case _ => 0)
    ensures Count(StoredPackets(st), TPubrel, i)
         == (match Find(st, i) case Some(StoredPubrel(_, _, _, _)) => 1 case _ => 0)
    ensures Count(StoredPackets(st), TPubrec, i) == 0 && Count(StoredPackets(st), TPubcomp, i) == 0
    ensures forall p :: p in StoredPackets(st) && Is(p, TQos2, i) ==>
              Find(st, i).Some? && Find(st, i).value.StoredPublish? && p.pub == Find(st, i).value.pub
  {
    if st != [] {
      StoredCounts(st[1..], i);
      FindHas(st[1..], i);
      assert forall k :: 0 <= k < |st[1..]| ==> st[1..][k] == st[k + 1];
      var ps := StoredPackets(st);
      assert ps[0] == ToPacket(st[0]) && ps[1..] == StoredPackets(st[1..]);
      forall p | p in ps && Is(p, TQos2, i)
        ensures Find(st, i).Some? && Find(st, i).value.StoredPublish? && p.pub == Find(st, i).value.pub
      {
        if p != ps[0] { assert p in ps[1..]; }
      }
    }
  }

  // ---------------------------------------------------------------- connecting, accepting, closing

  lemma ClosedFacts(c: Conn, o: DrainOrder)
    requires Endpoint(c) && DrainOk(c, o)
    ensures var d := Closed(c, o).c;
      && Endpoint(d) && d.status.Disconnected? && d.opt == c.opt && SenderStays(c, d)
      && d.session.handled == c.session.handled && forall i: nat :: Parked(c, d, i)
  {
    ClosedKeeps(c, o);
    ClosedMoves(c, o);
    hide Closed;
  }

  /** A CONNECT that keeps the session, and CONNACKs by their answer. */
  predicate Resumes(p: Packet) { p.Connect? && !p.clean }

  predicate Brings(p: Packet) { IsAccept(p) && p.sessionPresent }

  predicate Lacks(p: Packet) { IsAccept(p) && !p.sessionPresent }

  lemma OpenFacts(c: Conn, p: Packet)
    requires Endpoint(c) && c.status.Disconnected? && Resumes(p) && !c.opt.role.Server?
    ensures var r := Step(c, OpSend(V3_1_1, p));
      && Endpoint(r.c) && r.c.status.Connecting? && r.c.opt.role == c.opt.role
      && SenderStays(c, r.c) && r.c.session.handled == c.session.handled && Emits(r.ev, [p], [])
      && forall i: nat :: Parked(c, r.c, i)
  {
    GreetingKeeps(c, p);
    SendNowEmits(Greeting(c, p), p, None);
  }

  lemma WelcomeFacts(c: Conn, p: Packet)
    requires Endpoint(c) && c.status.Disconnected? && Resumes(p) && !c.opt.role.Client?
    requires Size(V3_1_1, p) <= NO_SIZE_LIMIT
    ensures var r := Step(c, Arrival(p));
      && Endpoint(r.c) && r.c.status.Connecting? && r.c.opt.role == c.opt.role
      && SenderStays(c, r.c) && r.c.session.handled == c.session.handled && Emits(r.ev, [], [])
      && forall i: nat :: Parked(c, r.c, i)
  {
    GreetingKeeps(c, p);
    DeliverEmits(Welcomed(c, p), p);
  }

  predicate IsAccept(p: Packet) { p.Connack? && p.accepted && Size(V3_1_1, p) <= NO_SIZE_LIMIT }

  lemma AcceptFacts(c: Conn, p: Packet)
    requires Endpoint(c) && c.status.Connecting? && IsAccept(p) && !c.opt.role.Client?
    ensures var r := Step(c, OpSend(V3_1_1, p));
      && Endpoint(r.c) && IsConnected(r.c) && r.c.opt.role == c.opt.role
      && r.c.ids == c.ids && r.c.session == c.session
      && Emits(r.ev, [p] + StoredPackets(c.session.store), [])
  {
    var c1 := c.(status := Connected);
    assert Consistent(c1);
    ConsistentFits(c1);
    hide SendStored;
    assert Consistent(PostSend(c1).c);
    assert Step(c, OpSend(V3_1_1, p)) == SendConnack(c, p);
    AcceptEmits(c, p);
    hide Emits, Consistent;
  }

  predicate IsReject(p: Packet) { p.Connack? && !p.accepted && Size(V3_1_1, p) <= NO_SIZE_LIMIT }

  /** The server turns the client down. */
  lemma RejectFacts(c: Conn, p: Packet)
    requires Endpoint(c) && c.status.Connecting? && IsReject(p) && !c.opt.role.Client?
    ensures var r := Step(c, OpSend(V3_1_1, p));
      && Endpoint(r.c) && r.c.status.Disconnected? && r.c.opt == c.opt && r.c.ids == c.ids && r.c.session == c.session
      && Emits(r.ev, [p], [])
  {
    var r := CancelTimers(c.(status := Disconnected));
    var send := RequestSendPacket(p, None);
    assert Step(c, OpSend(V3_1_1, p)) == R(r.c, [send] + (r.ev + [RequestClose]));
    hide Step;
    RejectEmits(r, send);
    hide Emits, CancelTimers;
  }

  lemma RejectEmits(r: R, send: Event)
    requires send.RequestSendPacket? && forall k :: 0 <= k < |r.ev| ==> r.ev[k].RequestTimerCancel?
    ensures Emits([send] + (r.ev + [RequestClose]), [send.packet], [])
  {
    One(send);
    Mute(r.ev + [RequestClose]);
    Both([send], [send.packet], [], r.ev + [RequestClose], [], []);
  }

  lemma RejectedFacts(c: Conn, p: Packet)
    requires Endpoint(c) && IsReject(p) && !c.opt.role.Server?
    ensures var r := Step(c, Arrival(p)); r.c == c && Emits(r.ev, [], [])
  {
    One(NotifyPacketReceived(p));
  }

  lemma AcceptEmits(c: Conn, p: Packet)
    requires Consistent(c) && c.status.Connecting? && p.Connack? && p.accepted
    ensures Emits(SendConnack(c, p).ev, [p] + StoredPackets(c.session.store), [])
  {
    var c1 := c.(status := Connected);
    assert Consistent(c1);
    ConsistentFits(c1);
    SendStoredEmits(c1);
    var st := SendStored(c1);
    assert c.version.V3_1_1?;
    hide Consistent, SendStored, StoredPackets, Emits;
    var ack, post := [RequestSendPacket(p, None)], PostSend(c1).ev;
    assert SendConnack(c, p).ev == ack + st.ev + post by { assert [] + ack == ack; }
    One(ack[0]);
    Both(ack, [p], [], st.ev, StoredPackets(c.session.store), []);
    Mute(post);
    Both(ack + st.ev, [p] + StoredPackets(c.session.store), [] + [], post, [], []);
    assert [p] + StoredPackets(c.session.store) + [] == [p] + StoredPackets(c.session.store);
  }

  lemma AcceptedFacts(c: Conn, p: Packet)
    requires Endpoint(c) && c.status.Connecting? && Brings(p) && !c.opt.role.Server?
    ensures var r := Step(c, Arrival(p));
      && Endpoint(r.c) && IsConnected(r.c) && r.c.opt.role == c.opt.role
      && r.c.ids == c.ids && r.c.session == c.session
      && Emits(r.ev, StoredPackets(c.session.store), [])
  {
    var c1 := c.(status := Connected);
    assert Consistent(c1);
    ConsistentFits(c1);
    SendStoredEmits(c1);
    var st := SendStored(c1);
    One(NotifyPacketReceived(p));
    Both(st.ev, StoredPackets(c.session.store), [], [NotifyPacketReceived(p)], [], []);
    assert StoredPackets(c.session.store) + [] == StoredPackets(c.session.store);
    assert [] + st.ev + [NotifyPacketReceived(p)] == st.ev + [NotifyPacketReceived(p)];
  }

  /** A CONNACK without session: the client starts afresh. */
  lemma AfreshFacts(c: Conn, p: Packet)
    requires Endpoint(c) && c.status.Connecting? && Lacks(p) && !c.opt.role.Server?
    ensures var r := Step(c, Arrival(p));
      && Endpoint(r.c) && IsConnected(r.c) && r.c.opt.role == c.opt.role
      && r.c.ids == Ids({}, {}, {}, {}, {}, {}) && r.c.session == c.session.(store := [])
      && Emits(r.ev, [], [])
  {
    One(NotifyPacketReceived(p));
    var r := Step(c, Arrival(p));
    assert r.ev == [NotifyPacketReceived(p)];
  }

  /** The host sends DISCONNECT: the connection is down for this end, whatever still arrives. */
  lemma QuitFacts(c: Conn, p: Packet)
    requires Endpoint(c) && p.Disconnect? && Encodable(p)
    ensures var r := Step(c, OpSend(V3_1_1, p));
      && Endpoint(r.c) && r.c.opt == c.opt && r.c.ids == c.ids && r.c.session == c.session && Notices(r.ev) == []
      && (if IsConnected(c) && RoleMaySend(c.opt.role, V3_1_1, p)
          then r.c.status.Disconnected? && Sends(r.ev) == [p] else r.c.status == c.status && Sends(r.ev) == [])
  {
    var r := Step(c, OpSend(V3_1_1, p));
    if IsConnected(c) && RoleMaySend(c.opt.role, V3_1_1, p) {
      var cancels := CancelTimers(c.(status := Disconnected)).ev;
      Mute(cancels);
      One(RequestSendPacket(p, None));
      Mute([RequestClose]);
      Both([RequestSendPacket(p, None)], [p], [], [RequestClose], [], []);
      assert [RequestSendPacket(p, None)] + [RequestClose] == [RequestSendPacket(p, None), RequestClose];
      Both(cancels, [], [], [RequestSendPacket(p, None), RequestClose], [p] + [], [] + []);
    } else {
      Mute(r.ev);
    }
  }

  lemma {:induction false} StoredClean(i: Ids, st: seq<StorePacket>)
    requires IdsOk(i) && StoreOk(i, st)
    ensures AllClean(StoredPackets(st))
  {
    if st != [] {
      assert st[0] in st && Awaited(i, st[0]);
      forall p | p in st[1..] ensures p in st {}
      StoredClean(i, st[1..]);
      assert InFlight(i, IdOf(st[0]));
      assert Clean(ToPacket(st[0]));
    }
  }
}
