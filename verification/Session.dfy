/** Packet identifiers, acknowledgement sets and store of a v3.1.1 connection stay consistent over
    every run, whatever acknowledgements the peer sends; so no assert or unwrap ever fails. */
module Session {
  import opened Packets
  import opened Store
  import opened Engine
  import opened Frames
  import opened Laws

  predicate InFlight(i: Ids, id: nat) {
    id in i.suback || id in i.unsuback || id in i.puback || id in i.pubrec || id in i.pubcomp
  }

  /** An identifier is abandoned: in use, awaited by nothing and stored nowhere, so never resent and never
      reported free. */
  predicate Abandoned(c: Conn, i: nat) { i in c.ids.used && !InFlight(c.ids, i) && !Has(c.session.store, i) }

  /** Does the identifier of a stored packet sit in the set named by its expected response? */
  predicate Awaited(i: Ids, p: StorePacket) {
    match ResponseOf(p).kind
    case AwaitPuback => IdOf(p) in i.puback
    case AwaitPubrec => IdOf(p) in i.pubrec
    case AwaitPubcomp => IdOf(p) in i.pubcomp
  }

  ghost predicate IdsOk(i: Ids) {
    && i.suback !! i.unsuback !! i.puback !! i.pubrec !! i.pubcomp
    && (forall id :: InFlight(i, id) ==> id in i.used)
    && (forall id :: id in i.used ==> InRange(id))
  }

  ghost predicate StoreOk(i: Ids, s: seq<StorePacket>) {
    && Distinct(s)
    && (forall p :: p in s ==>
          && Awaited(i, p) && p.version.V3_1_1?
          && Size(V3_1_1, ToPacket(p)) <= NO_SIZE_LIMIT
          && (p.StoredPublish? ==> p.pub.dup && !p.pub.qos.AtMostOnce?))
  }

  ghost predicate Consistent(c: Conn) {
    && c.version.V3_1_1? && !c.panicked
    && c.flow.maxSend == NO_SIZE_LIMIT
    && IdsOk(c.ids) && StoreOk(c.ids, c.session.store)
    && (!c.session.needStore ==> c.session.store == [])
    && (c.status.Connecting? ==> c.ids.suback == {} && c.ids.unsuback == {})
  }

  /** An identifier a host may hand to a new exchange. */
  predicate Fresh(c: Conn, id: nat) { InRange(id) && !InFlight(c.ids, id) }

  /** The packet can be encoded at all. */
  predicate Encodable(p: Packet) { Remaining(V3_1_1, p) <= MAX_REMAINING }

  /** What the host has to respect: identifiers in flight are neither reused nor released, PUBREL is
      sent only while connected and for an identifier whose PUBREC has arrived. */
  ghost predicate HostOk(c: Conn, op: Op) {
    match op
    case OpSend(_, p) =>
      && Encodable(p)
      && (p.PublishPacket? && !p.pub.qos.AtMostOnce? ==> Fresh(c, p.pub.pid))
      && (p.Subscribe? || p.Unsubscribe? ==> Fresh(c, p.pid))
      && (p.Pubrel? ==> Fresh(c, p.pid) && IsConnected(c))
    case OpRelease(id) => Fresh(c, id)
    case OpRestorePackets(_) => false
    case OpClosed(o) => DrainOk(c, o)
    case _ => true
  }

  /** The CONNACK does not wipe out identifiers of SUBSCRIBE or UNSUBSCRIBE packets that are still awaited. */
  predicate Harmless(c: Conn, p: Packet)
    requires p.Connack?
  {
    !p.accepted || p.sessionPresent || (c.ids.suback == {} && c.ids.unsuback == {})
  }

  /** What the wire guarantees: parsers reject identifier 0, except in a PUBLISH. */
  predicate WireOk(f: Frame) {
    f.Good? ==>
      match f.packet
      case Puback(id, _, _) => id != 0
      case Pubrec(id, _, _) => id != 0
      case Pubrel(id, _, _) => id != 0
      case Pubcomp(id, _, _) => id != 0
      case _ => true
  }

  /** CONNACK is believed in every status; ConnackKeepsIff shows when that does no harm. A PUBLISH that asks
      for a response must not carry identifier 0. */
  predicate PeerOk(c: Conn, f: Frame) {
    && WireOk(f)
    && (f.Good? && f.packet.Connack? ==> Harmless(c, f.packet))
    && (f.Good? && f.packet.PublishPacket? && !f.packet.pub.qos.AtMostOnce? ==> f.packet.pub.pid != 0)
  }

  ghost predicate Allowed(c: Conn, op: Op) {
    HostOk(c, op) && (op.OpReceive? ==> PeerOk(c, op.frame))
  }

  // ---------------------------------------------------------------- the parts of a step

  lemma IdsShrink(i: Ids, j: Ids)
    requires IdsOk(i)
    requires j.suback <= i.suback && j.unsuback <= i.unsuback && j.puback <= i.puback
    requires j.pubrec <= i.pubrec && j.pubcomp <= i.pubcomp && j.used <= i.used
    requires forall id :: InFlight(j, id) ==> id in j.used
    ensures IdsOk(j)
  {
  }

  /** An acknowledgement takes the identifier out of its set, out of the store and out of use. */
  lemma AckKeeps(c: Conn, j: Ids, r: Response, id: nat)
    requires Consistent(c) && InFlight(c.ids, id) && r.version.V3_1_1?
    requires r.kind.AwaitPuback? ==> id in c.ids.puback
    requires r.kind.AwaitPubrec? ==> id in c.ids.pubrec
    requires r.kind.AwaitPubcomp? ==> id in c.ids.pubcomp
    requires j.suback == c.ids.suback - {id} && j.unsuback == c.ids.unsuback - {id} && j.puback == c.ids.puback - {id}
    requires j.pubrec == c.ids.pubrec - {id} && j.pubcomp == c.ids.pubcomp - {id}
    requires j.used == c.ids.used || j.used == c.ids.used - {id}
    ensures IdsOk(j) && StoreOk(j, Erase(c.session.store, r, id)) && !Has(Erase(c.session.store, r, id), id)
    ensures c.session.store == [] ==> Erase(c.session.store, r, id) == []
  {
    var s := c.session.store;
    forall p | p in s && IdOf(p) == id ensures ResponseOf(p) == r { assert Awaited(c.ids, p); }
    EraseRemoves(s, r, id);
    forall p | p in Erase(s, r, id) ensures Awaited(j, p) { assert Awaited(c.ids, p); }
  }

  lemma {:induction false} ResendKeeps(c: Conn, s: seq<StorePacket>)
    requires forall k :: 0 <= k < |s| ==> Fits(c, s[k])
    ensures Resend(c, s).c == c && Sendable(c, s) == s
    decreases |s|
  {
    if s != [] { ResendKeeps(c, s[1..]); }
  }

  lemma ConsistentFits(c: Conn)
    requires Consistent(c)
    ensures AllFit(c) && SendStored(c).c == c
  {
    forall k | 0 <= k < |c.session.store| ensures Fits(c, c.session.store[k]) {
      assert c.session.store[k] in c.session.store;
    }
    ResendKeeps(c, c.session.store);
  }

  // ---------------------------------------------------------------- sending

  lemma PublishKeeps(c: Conn, p: Publish)
    requires Consistent(c) && Encodable(PublishPacket(p)) && (!p.qos.AtMostOnce? ==> Fresh(c, p.pid))
    ensures Consistent(SendPublish(c, p).c)
  {
    if !p.qos.AtMostOnce? && MayPublish(c) && IsUsed(c, p.pid) {
      AwaitKeeps(c, p);
      hide IdsOk, StoreOk, Await, Keep;
    }
  }

  /** Storing a fresh identifier and awaiting its response. */
  lemma AwaitKeeps(c: Conn, p: Publish)
    requires Consistent(c) && Encodable(PublishPacket(p)) && !p.qos.AtMostOnce? && Fresh(c, p.pid) && IsUsed(c, p.pid)
    ensures var d := Await(if Stores(c) then Keep(c, StoredPublish(V3_1_1, p.(dup := true))) else c, p);
      && Consistent(d) && d == c.(ids := d.ids, session := d.session)
  {
    var s := StoredPublish(V3_1_1, p.(dup := true));
    var st := c.session.store;
    forall q | q in st ensures IdOf(q) != p.pid { assert Awaited(c.ids, q); }
    assert !Has(st, p.pid);
    hide Has;
    var d := Await(if Stores(c) then Keep(c, s) else c, p);
    assert IdsOk(d.ids);
    forall q | q in st ensures Awaited(d.ids, q) { assert Awaited(c.ids, q); }
    assert StoreOk(d.ids, d.session.store);
  }

  lemma PubrelKeeps(c: Conn, p: Packet)
    requires Consistent(c) && p.Pubrel? && Encodable(p) && Fresh(c, p.pid) && IsConnected(c)
    ensures Consistent(SendPubrel(c, p).c)
  {
    hide Step;
    var s := StoredPubrel(c.version, p.pid, p.rc, p.rem);
    var st := c.session.store;
    forall q | q in st ensures IdOf(q) != p.pid { assert Awaited(c.ids, q); }
    var c1 := if c.session.needStore then Keep(c, s) else c;
    var c2 := c1.(ids := c1.ids.(pubcomp := c1.ids.pubcomp + {p.pid}));
    if IsUsed(c, p.pid) {
      assert IdsOk(c2.ids);
      forall q | q in st ensures Awaited(c2.ids, q) { assert Awaited(c.ids, q); }
      assert StoreOk(c2.ids, c2.session.store);
    }
  }

  lemma RequestKeeps(c: Conn, p: Packet)
    requires Consistent(c) && (p.Subscribe? || p.Unsubscribe?) && Fresh(c, p.pid)
    ensures Consistent(SendRequest(c, p).c)
  {
    var d := SendRequest(c, p).c;
    forall q | q in c.session.store ensures Awaited(d.ids, q) { assert Awaited(c.ids, q); }
  }

  lemma ReleaseKeeps(c: Conn, id: nat)
    requires Consistent(c) && Fresh(c, id)
    ensures Consistent(Release(c, id).c)
  {
    var d := Release(c, id).c;
    forall q | q in c.session.store ensures Awaited(d.ids, q) { assert Awaited(c.ids, q); }
  }

  lemma GreetingKeeps(c: Conn, p: Packet)
    requires Consistent(c) && p.Connect?
    ensures Consistent(Greeting(c, p)) && Consistent(Welcomed(c, p))
  {
    forall q | q in c.session.store ensures Awaited(c.ids, q) {}
    var d := Greeting(c, p);
    var e := Welcomed(c, p);
    forall q | q in d.session.store ensures Awaited(d.ids, q) { assert Awaited(c.ids, q); }
    forall q | q in e.session.store ensures Awaited(e.ids, q) { assert Awaited(c.ids, q); }
  }

  lemma SendKeeps(c: Conn, v: Version, p: Packet)
    requires Consistent(c) && HostOk(c, OpSend(v, p))
    ensures Consistent(Send(c, v, p).c)
  {
    if c.version == v && !p.Auth? && RoleMaySend(c.opt.role, v, p) {
      match p
      case Connect(_, _, _, _) => GreetingKeeps(c, p);
      case Connack(_, _, _, _) =>
        var c1 := c.(status := Connected);
        assert Consistent(c1);
        ConsistentFits(c1);
      case PublishPacket(pub) => PublishKeeps(c, pub);
      case Pubrel(_, _, _) => PubrelKeeps(c, p);
      case Subscribe(_, _) => RequestKeeps(c, p);
      case Unsubscribe(_, _) => RequestKeeps(c, p);
      case _ =>
    }
  }

  // ---------------------------------------------------------------- receiving

  lemma ReceiveAckKeeps(c: Conn, p: Packet)
    requires Consistent(c) && (p.Puback? || p.Pubcomp? || p.Suback? || p.Unsuback?)
    ensures Consistent(ReceivePacket(c, p).c)
  {
    hide ReceiveTopic, Welcomed;
    var id := p.pid;
    var d := ReceivePacket(c, p).c;
    match p
    case Puback(_, _, _) =>
      if id in c.ids.puback { AckKeeps(c, d.ids, Response(V3_1_1, AwaitPuback), id); }
    case Pubcomp(_, _, _) =>
      if id in c.ids.pubcomp { AckKeeps(c, d.ids, Response(V3_1_1, AwaitPubcomp), id); }
    case _ =>
      RequestAckKeeps(c, p);
  }

  lemma RequestAckKeeps(c: Conn, p: Packet)
    requires Consistent(c) && (p.Suback? || p.Unsuback?)
    ensures Consistent(ReceivePacket(c, p).c)
  {
    hide ReceiveConnack, ReceiveConnect, ReceivePuback, ReceivePubcomp, ReceivePublishV3, ReceivePublishV5,
      ReceivePubrec, ReceivePubrel;
    var d := ReceivePacket(c, p).c;
    assert d.session.store == c.session.store;
    forall k | 0 <= k < |c.session.store| ensures Awaited(d.ids, c.session.store[k]) {
      assert c.session.store[k] in c.session.store;
    }
  }

  lemma ReceivePubrecKeeps(c: Conn, p: Packet)
    requires Consistent(c) && p.Pubrec?
    ensures Consistent(ReceivePubrec(c, p).c)
  {
    var id := p.pid;
    if id in c.ids.pubrec {
      var c1 := c.(ids := c.ids.(pubrec := c.ids.pubrec - {id}),
                   session := c.session.(store := Erase(c.session.store, Response(c.version, AwaitPubrec), id)));
      AckKeeps(c, c1.ids, Response(V3_1_1, AwaitPubrec), id);
      assert Consistent(c1);
      if c.opt.autoPub && IsConnected(c) { PubrelKeeps(c1, Pubrel(id, None, 2)); }
    }
  }

  /** A CONNACK, in whatever status it comes, keeps the connection consistent exactly if it is harmless. */
  lemma ConnackKeepsIff(c: Conn, p: Packet)
    requires Consistent(c) && p.Connack?
    ensures Consistent(ReceiveConnack(c, p).c) <==> Harmless(c, p)
  {
    var c1 := c.(status := Connected);
    assert Consistent(c1);
    ConsistentFits(c1);
    hide Resend, Sendable;
    if p.accepted && !p.sessionPresent {
      var d := ReceiveConnack(c, p).c;
      if id :| id in c.ids.suback { assert InFlight(d.ids, id); }
      if id :| id in c.ids.unsuback { assert InFlight(d.ids, id); }
    }
  }

  lemma ReceivePublishKeeps(c: Conn, p: Publish)
    requires Consistent(c) && (!p.qos.AtMostOnce? ==> p.pid != 0)
    ensures Consistent(ReceivePublishV3(c, p).c)
  {
  }

  /** A received PUBLISH makes the engine panic exactly if it carries identifier 0 and gets an automatic
      response. */
  lemma PublishPanicsIff(c: Conn, p: Publish)
    requires c.version.V3_1_1? && !c.panicked
    ensures ReceivePublishV3(c, p).c.panicked <==>
      IsConnected(c) && p.pid == 0 &&
      match p.qos {
        case AtMostOnce => false
        case AtLeastOnce => c.opt.autoPub
        case ExactlyOnce => c.opt.autoPub || 0 in c.session.handled
      }
  {
    hide SendWhenConnected;
    RespondNeverPanics(c, Puback(p.pid, None, 2));
    RespondNeverPanics(c.(session := c.session.(handled := c.session.handled + {p.pid})), Pubrec(p.pid, None, 2));
  }

  lemma RespondNeverPanics(c: Conn, p: Packet)
    ensures SendWhenConnected(c, p).c.panicked == c.panicked
  {
  }

  lemma ReceivePacketKeeps(c: Conn, p: Packet)
    requires Consistent(c) && PeerOk(c, Good(p, 4))
    ensures Consistent(ReceivePacket(c, p).c)
  {
    hide ReceiveTopic, Welcomed;
    match p
    case Connect(_, _, _, _) => GreetingKeeps(c, p);
    case Connack(_, _, _, _) => ConnackKeepsIff(c, p);
    case PublishPacket(pub) => ReceivePublishKeeps(c, pub);
    case Puback(_, _, _) => ReceiveAckKeeps(c, p);
    case Pubcomp(_, _, _) => ReceiveAckKeeps(c, p);
    case Suback(_, _) => ReceiveAckKeeps(c, p);
    case Unsuback(_, _) => ReceiveAckKeeps(c, p);
    case Pubrec(_, _, _) => ReceivePubrecKeeps(c, p);
    case Pubrel(_, _, _) =>
    case Pingreq =>
    case _ =>
  }

  lemma ReceiveKeeps(c: Conn, f: Frame)
    requires Consistent(c) && PeerOk(c, f)
    ensures Consistent(Receive(c, f).c)
  {
    hide ReceivePacket;
    if f.Good? { ReceivePacketKeeps(c, f.packet); }
  }

  // ---------------------------------------------------------------- closing

  lemma ClosedKeeps(c: Conn, o: DrainOrder)
    requires Consistent(c) && DrainOk(c, o)
    ensures Consistent(Closed(c, o).c)
  {
    var d := Closed(c, o).c;
    ClosedMoves(c, o);
    hide Closed;
    forall q | q in d.session.store ensures Awaited(d.ids, q) { assert Awaited(c.ids, q); }
    IdsShrink(c.ids, d.ids);
  }

  // ---------------------------------------------------------------- runs

  lemma AcquireKeeps(c: Conn, op: Op)
    requires Consistent(c) && (op.OpAcquire? || op.OpRegister?)
    ensures Consistent(Step(c, op).c)
  {
    hide Receive, Send, TimerFired;
    LeastFreeInRange(c.ids.used, 1);
    var d := Step(c, op).c;
    forall q | q in c.session.store ensures Awaited(d.ids, q) { assert Awaited(c.ids, q); }
  }

  lemma {:induction false} LeastFreeInRange(used: set<nat>, from: nat)
    requires from >= 1
    ensures var r := LeastFree(used, from);
      match r {
        case Some(id) => from <= id <= MAX_ID && id !in used && forall j :: from <= j < id ==> j in used
        case None => forall j :: from <= j <= MAX_ID ==> j in used
      }
    decreases MAX_ID + 1 - from
  {
    if from <= MAX_ID && from in used { LeastFreeInRange(used, from + 1); }
  }

  lemma StepKeeps(c: Conn, op: Op)
    requires Consistent(c) && Allowed(c, op)
    ensures Consistent(Step(c, op).c)
  {
    hide Send, Receive, Closed, Release, Acquire, Register, TimerFired;
    match op
    case OpSend(v, p) => SendKeeps(c, v, p);
    case OpReceive(f) => ReceiveKeeps(c, f);
    case OpClosed(o) => ClosedKeeps(c, o);
    case OpRelease(id) => ReleaseKeeps(c, id);
    case OpAcquire => AcquireKeeps(c, op);
    case OpRegister(_) => AcquireKeeps(c, op);
    case OpTimer(k) => TimerKeeps(c, k);
    case _ =>
  }

  lemma TimerKeeps(c: Conn, k: TimerKind)
    requires Consistent(c)
    ensures Consistent(TimerFired(c, k).c)
  {
    var d := TimerFired(c, k).c;
    assert d == c.(timers := d.timers);
    hide TimerFired;
  }
}
