/** QoS 1 on the same two endpoints: when a PUBACK frees an identifier at the sender, the host of the receiver was
    handed the message (section 4.3.2 of MQTT 3.1.1). */
module AtLeastOnce {
  import opened Packets
  import opened Store
  import opened Engine
  import opened Frames
  import opened Session
  import opened Tokens
  import opened Traffic
  import opened Qos2
  import opened ExactlyOnce
  import Rec = Receptions

  // ---------------------------------------------------------------- one end

  /** The QoS 1 message that a call takes under identifier `i`. */
  function Begun(c: Conn, op: Op, i: nat): Option<Publish> {
    if op.OpSend? && Is(op.packet, TQos1, i) && !Refused(Step(c, op).ev) then Some(Content(op.packet.pub)) else None
  }

  predicate Stored1(q: StorePacket, i: nat) { q.StoredPublish? && q.pub.qos.AtLeastOnce? && q.pub.pid == i }

  /** What a step of the sender does to the exchange of identifier `i`, in which it may take the message `m` and in
      which a PUBACK may have arrived. */
  ghost predicate Sending(c: Conn, r: R, i: nat, m: Option<Publish>, acked: bool) {
    && (forall q :: q in r.c.session.store && Stored1(q, i) ==>
          q in c.session.store || m == Some(Content(q.pub)))
    && (m.Some? ==> i !in c.ids.puback)
    && (i in r.c.ids.puback ==> i in c.ids.puback || m.Some?)
    && (i in c.ids.puback && i !in r.c.ids.puback ==> acked || c.status.Connecting?)
    && (forall p :: p in Sends(r.ev) && Is(p, TQos1, i) ==>
          m == Some(Content(p.pub)) || Resent(c, p, i))
    && Count(Sends(r.ev), TQos1, i) <= 1
    && (Count(Sends(r.ev), TQos1, i) > 0 ==>
          i in r.c.ids.puback && IsConnected(r.c) && (m.Some? || c.status.Connecting?))
  }

  ghost predicate Resent(c: Conn, p: Packet, i: nat) {
    p.PublishPacket? && exists q :: q in c.session.store && Stored1(q, i) && Content(q.pub) == Content(p.pub)
  }

  predicate Silent(ev: seq<Event>) {
    forall k :: 0 <= k < |ev| && ev[k].RequestSendPacket? ==> !IsQos1(ev[k].packet) && !ev[k].packet.Puback?
  }

  lemma {:induction false} SilentFor(ev: seq<Event>, i: nat)
    requires Silent(ev)
    ensures Count(Sends(ev), TQos1, i) == 0 && Count(Sends(ev), TPuback, i) == 0
    ensures forall p :: p in Sends(ev) ==> !Is(p, TQos1, i)
  {
    if ev != [] {
      SilentFor(ev[1..], i);
      var head := if ev[0].RequestSendPacket? then [ev[0].packet] else [];
      CountAppend(head, Sends(ev[1..]), TQos1, i);
      CountAppend(head, Sends(ev[1..]), TPuback, i);
      if head != [] {
        CountOne(ev[0].packet, TQos1, i);
        CountOne(ev[0].packet, TPuback, i);
      }
    }
  }

  /** Neither a QoS 1 exchange of the sender is touched nor a packet of one sent. */
  lemma Aside(c: Conn, r: R, i: nat)
    requires r.c.session.store == c.session.store && r.c.ids.puback == c.ids.puback && Silent(r.ev)
    ensures Sending(c, r, i, None, false) && Count(Sends(r.ev), TPuback, i) == 0
  {
    SilentFor(r.ev, i);
  }

  lemma PublishSends(c: Conn, p: Publish, i: nat)
    requires Endpoint(c) && HostMove(c, OpSend(V3_1_1, PublishPacket(p)))
    ensures var op := OpSend(V3_1_1, PublishPacket(p));
      var r := SendPublishV3(c, p);
      && Sending(c, r, i, if IsQos1(PublishPacket(p)) && p.pid == i && !Refused(r.ev) then Some(Content(p)) else None,
                 false)
      && Count(Sends(r.ev), TPuback, i) == 0
  {
    hide SendPublishV3;
    SendPublishEmits(c, p);
    AcceptedNotRefused(c, p);
    CountOne(PublishPacket(p), TQos1, i);
    CountOne(PublishPacket(p), TPuback, i);
    assert SendPublish(c, p) == SendPublishV3(c, p) && c.version.V3_1_1?;
    TakenState(c, p);
    hide SendPublish, Consistent, Sends, Notices;
  }

  lemma TakenState(c: Conn, p: Publish)
    requires c.version.V3_1_1?
    ensures var d := SendPublishV3(c, p).c;
      if AcceptsPublish(c, p) && !p.qos.AtMostOnce? then
        && d.ids == Await(c, p).ids && d.status == c.status
        && (forall q :: q in d.session.store ==> q in c.session.store || q == StoredPublish(V3_1_1, p.(dup := true)))
      else d.ids.puback == c.ids.puback && d.session.store == c.session.store
  {
    hide Has;
  }

  lemma HostSends(c: Conn, op: Op, i: nat)
    requires Endpoint(c) && HostMove(c, op)
    ensures Sending(c, Step(c, op), i, Begun(c, op, i), false) && Count(Sends(Step(c, op).ev), TPuback, i) == 0
  {
    hide Sending, Sends, Notices, Consistent, TimerFired, SendPublish, SendRequest, SendConnect, SendConnack,
      SendPubrel, SendDisconnect, SendPingreq, SendWhenConnected, Receive;
    var r := Step(c, op);
    match op {
      case OpSend(v, p) =>
        assert c.version.V3_1_1? by { VersionOf(c); }
        if p.PublishPacket? {
          PublishSends(c, p.pub, i);
          assert r == SendPublishV3(c, p.pub) by { SameSend(c, p.pub); }
        } else {
          QuietSend(c, p);
          Aside(c, r, i);
        }
      case OpTimer(k) =>
        TimerCalm(c, k);
        assert Silent(r.ev) by { TimerSilent(c, k); }
        Aside(c, r, i);
      case _ =>
        SettingSilent(c, op);
        Aside(c, r, i);
    }
  }

  lemma SameSend(c: Conn, p: Publish)
    requires c.version.V3_1_1?
    ensures Step(c, OpSend(V3_1_1, PublishPacket(p))) == SendPublishV3(c, p)
  {
    hide SendPublishV3;
  }

  lemma PlainSilent(c: Conn, p: Packet)
    requires p.Disconnect?
    ensures Silent(SendPingreq(c).ev) && Silent(SendDisconnect(c, p, true).ev)
  {
    assert Silent(SendPingreq(c).ev) by { hide SendDisconnect; }
    hide SendPingreq;
  }

  lemma TimerSilent(c: Conn, k: TimerKind)
    ensures Silent(TimerFired(c, k).ev)
  {
    hide SendPingreq, SendDisconnect;
    PlainSilent(Disarm(c, k), Disconnect(Some(KeepAliveTimeout), 1));
  }

  lemma SettingSilent(c: Conn, op: Op)
    requires HostMove(c, op) && !op.OpSend? && !op.OpTimer?
    ensures var r := Step(c, op);
      r.c.session.store == c.session.store && r.c.ids.puback == c.ids.puback && Silent(r.ev)
  {
    hide Receive, Send, TimerFired, LeastFree;
  }

  lemma QuietSend(c: Conn, p: Packet)
    requires c.version.V3_1_1? && HostMove(c, OpSend(V3_1_1, p)) && !p.PublishPacket?
    ensures var r := Step(c, OpSend(V3_1_1, p));
      r.c.session.store == c.session.store && r.c.ids.puback == c.ids.puback && Silent(r.ev)
  {
    hide SendPublish, SendConnect, SendConnack, SendPubrel, SendDisconnect, HostOk;
  }

  // ---------------------------------------------------------------- arrivals

  /** What an arrival says about QoS 1: no message is sent, and a PUBACK only for a message that is handed over. */
  ghost predicate Receiving(c: Conn, p: Packet, r: R, i: nat) {
    && Count(Sends(r.ev), TQos1, i) == 0 && (forall q :: q in Sends(r.ev) ==> !Is(q, TQos1, i))
    && Count(Sends(r.ev), TPuback, i) <= 1
    && (Count(Sends(r.ev), TPuback, i) > 0 ==> Is(p, TQos1, i) && p in Rec.Handed(r.ev))
  }

  lemma ShownSends(c: Conn, p: Packet, i: nat)
    requires c.version.V3_1_1? && Clean(p)
    ensures var ps := Sends(Rec.Shown(c, p));
      && Count(ps, TQos1, i) == 0 && (forall q :: q in ps ==> !Is(q, TQos1, i))
      && Count(ps, TPuback, i) <= 1 && (Count(ps, TPuback, i) > 0 ==> Is(p, TQos1, i))
  {
    hide Sends, Count;
    var ev := Rec.Shown(c, p);
    if IsQos1(p) && Rec.Answers(c, p) != [] {
      var answer, rest := [RequestSendPacket(Puback(p.pub.pid, None, 2), None)],
        Rec.Restart(c) + Rec.Wake(c) + [NotifyPacketReceived(p)];
      assert ev == answer + rest;
      SendsAppend(answer, rest);
      One(answer[0]);
      CountAppend([Puback(p.pub.pid, None, 2)], Sends(rest), TQos1, i);
      CountAppend([Puback(p.pub.pid, None, 2)], Sends(rest), TPuback, i);
      SilentFor(rest, i);
      CountOne(Puback(p.pub.pid, None, 2), TQos1, i);
      CountOne(Puback(p.pub.pid, None, 2), TPuback, i);
      hide Rec.Shown;
    } else {
      SilentFor(ev, i);
    }
  }

  lemma ArrivalReceives(c: Conn, p: Packet, i: nat)
    requires Consistent(c) && c.flow.maxRecv == NO_SIZE_LIMIT && Clean(p)
    ensures Receiving(c, p, Step(c, Arrival(p)), i)
  {
    hide Sends, Count, Rec.Handed, Step, Rec.Shown, Rec.Complaint, Rec.AsSeen;
    var r := Step(c, Arrival(p));
    var f := Good(p, 4);
    Rec.SendsVisible(r.ev);
    if Arrives(c, f) {
      assert c.version.V3_1_1? by { VersionOf(c); }
      Rec.ReceptionShows(c, f);
      ShownSends(c, p, i);
      if IsQos1(p) { Rec.MessageHeard(c, f); }
    } else {
      assert r.c == c && Silent(r.ev) by { Refusal(c, p); }
      SilentFor(r.ev, i);
    }
  }

  lemma Refusal(c: Conn, p: Packet)
    requires Consistent(c) && c.flow.maxRecv == NO_SIZE_LIMIT && Clean(p) && !Arrives(c, Good(p, 4))
    ensures Step(c, Arrival(p)).c == c && Silent(Step(c, Arrival(p)).ev)
  {
    hide ReceivePacket, StoreOk, IdsOk;
  }

  lemma ArrivalSends(c: Conn, p: Packet, i: nat)
    requires Consistent(c) && c.flow.maxRecv == NO_SIZE_LIMIT && Clean(p)
    ensures Sending(c, Step(c, Arrival(p)), i, None, Is(p, TPuback, i))
  {
    hide Sends, Count, Step, Receiving;
    var r := Step(c, Arrival(p));
    ArrivalReceives(c, p, i);
    assert Count(Sends(r.ev), TQos1, i) == 0 && (forall q :: q in Sends(r.ev) ==> !Is(q, TQos1, i)) by {
      ReceivingNone(c, p, r, i);
    }
    ArrivalState(c, p);
  }

  lemma ReceivingNone(c: Conn, p: Packet, r: R, i: nat)
    requires Receiving(c, p, r, i)
    ensures Count(Sends(r.ev), TQos1, i) == 0 && (forall q :: q in Sends(r.ev) ==> !Is(q, TQos1, i))
  {
    hide Sends, Count;
  }

  /** What an arrival does to stored QoS 1 messages and to those awaited. */
  lemma ArrivalState(c: Conn, p: Packet)
    requires Consistent(c) && c.flow.maxRecv == NO_SIZE_LIMIT && Clean(p)
    ensures var d := Step(c, Arrival(p)).c;
      && (forall q :: q in d.session.store && q.StoredPublish? ==> q in c.session.store)
      && d.ids.puback == (if p.Puback? then c.ids.puback - {p.pid} else c.ids.puback)
  {
    hide ReceivePacket;
    if !Arrives(c, Good(p, 4)) {
      Refusal(c, p);
      assert c.version.V3_1_1? by { VersionOf(c); }
      assert !p.Puback?;
    } else {
      PacketState(c, p);
    }
  }

  lemma PacketState(c: Conn, p: Packet)
    requires Consistent(c) && !p.Connect? && !p.Connack?
    ensures var d := ReceivePacket(c, p).c;
      && (forall q :: q in d.session.store && q.StoredPublish? ==> q in c.session.store)
      && d.ids.puback == (if p.Puback? then c.ids.puback - {p.pid} else c.ids.puback)
  {
    if Incidental(p) {
      ReceiveCalm(c, p);
      hide ReceivePacket;
    } else if p.Pubrec? {
      AfterErase(c, Response(V3_1_1, AwaitPubrec), p.pid);
      hide Erase, Deliver, Finish;
    } else {
      if p.Puback? { AfterErase(c, Response(V3_1_1, AwaitPuback), p.pid); }
      if p.Pubcomp? { AfterErase(c, Response(V3_1_1, AwaitPubcomp), p.pid); }
      hide Erase, Deliver;
    }
  }

  lemma AfterErase(c: Conn, r: Response, i: nat)
    requires Consistent(c)
    ensures forall q :: q in Erase(c.session.store, r, i) ==> q in c.session.store
  {
    ErasePart(c.session.store, r, i);
  }

  lemma {:induction false} ErasePart(s: seq<StorePacket>, r: Response, i: nat)
    ensures forall q :: q in Erase(s, r, i) ==> q in s
  {
    if s != [] { ErasePart(s[1..], r, i); }
  }

  // ---------------------------------------------------------------- connecting

  lemma {:induction false} StoredOnce(st: seq<StorePacket>, i: nat)
    requires Distinct(st)
    ensures Count(StoredPackets(st), TQos1, i) <= 1 && Count(StoredPackets(st), TPuback, i) == 0
    ensures Count(StoredPackets(st), TQos1, i) > 0 ==> exists q :: q in st && Stored1(q, i)
    ensures forall p :: p in StoredPackets(st) && Is(p, TQos1, i) ==>
      exists q :: q in st && Stored1(q, i) && ToPacket(q) == p
  {
    if st != [] {
      StoredOnce(st[1..], i);
      var ps := StoredPackets(st);
      assert ps[0] == ToPacket(st[0]) && ps[1..] == StoredPackets(st[1..]);
      assert forall k :: 0 <= k < |st[1..]| ==> st[1..][k] == st[k + 1];
      forall p | p in ps && Is(p, TQos1, i) ensures exists q :: q in st && Stored1(q, i) && ToPacket(q) == p {
        if p == ps[0] { assert Stored1(st[0], i); } else { assert p in ps[1..]; }
      }
    }
  }

  /** The connection comes up and the store is resent behind `pre`. */
  lemma UpSends(c: Conn, r: R, pre: seq<Packet>, i: nat)
    requires Consistent(c) && c.status.Connecting? && IsConnected(r.c) && r.c.ids == c.ids && r.c.session == c.session
    requires Sends(r.ev) == pre + StoredPackets(c.session.store)
    requires forall p :: p in pre ==> !p.PublishPacket? && !p.Puback?
    ensures Sending(c, r, i, None, false) && Count(Sends(r.ev), TPuback, i) == 0
  {
    var st := c.session.store;
    StoredOnce(st, i);
    CountNone(pre, TQos1, i);
    CountNone(pre, TPuback, i);
    CountAppend(pre, StoredPackets(st), TQos1, i);
    CountAppend(pre, StoredPackets(st), TPuback, i);
    if Count(StoredPackets(st), TQos1, i) > 0 {
      var q :| q in st && Stored1(q, i);
      assert Awaited(c.ids, q);
    }
    forall p | p in Sends(r.ev) && Is(p, TQos1, i) ensures Resent(c, p, i) {
      var q :| q in st && Stored1(q, i) && ToPacket(q) == p;
    }
    hide Sends, StoredPackets, Count;
  }

  // ---------------------------------------------------------------- one direction

  /** Where the exchange of identifier `i` stands: `m` is the message last taken under it, `heard` tells whether the
      receiver's host was handed that message since. At most one packet of the exchange is under way, and only
      while it is open; a PUBACK is under way only for a message that was heard. */
  ghost predicate AckAt(l: Lane, i: nat, m: Option<Publish>, heard: bool) {
    && Count(l.out, TQos1, i) + Count(l.back, TPuback, i)
       <= (if i in l.s.ids.puback then Hi(l.s, l.linked) else 0)
    && (forall p :: p in l.out && Is(p, TQos1, i) ==> m == Some(Content(p.pub)))
    && (forall q :: q in l.s.session.store && Stored1(q, i) ==> m == Some(Content(q.pub)))
    && (Count(l.back, TPuback, i) > 0 ==> heard)
  }

  /** The sender makes a step, in which it may take the first packet from the channel back. */
  lemma SenderStep(l: Lane, r: R, i: nat, m: Option<Publish>, heard: bool, x: Option<Publish>, drop: bool, linked: bool)
    requires AckAt(l, i, m, heard) && Consistent(l.s)
    requires drop ==> l.back != []
    requires Sending(l.s, r, i, x, drop && Is(l.back[0], TPuback, i))
    requires Hi(r.c, linked) >= Hi(l.s, l.linked) || Count(l.out, TQos1, i) + Count(l.back, TPuback, i) == 0
    ensures AckAt(l.(s := r.c, out := l.out + Sends(r.ev), back := if drop then l.back[1..] else l.back,
                     linked := linked), i, if x.Some? then x else m, heard && x.None?)
  {
    CountAppend(l.out, Sends(r.ev), TQos1, i);
    if drop { CountHead(l.back, TPuback, i); }
    forall q | q in l.s.session.store && Stored1(q, i) ensures i in l.s.ids.puback { assert Awaited(l.s.ids, q); }
    if Count(l.out, TQos1, i) == 0 { CountZero(l.out, TQos1, i); }
    hide Count, Sends, Consistent;
  }

  /** The receiver makes a step, in which it may take the first packet from the channel and hand its message over. */
  lemma ReceiverStep(l: Lane, r: R, i: nat, m: Option<Publish>, heard: bool, told: bool, drop: bool)
    requires AckAt(l, i, m, heard) && (drop ==> l.out != [])
    requires Count(Sends(r.ev), TPuback, i) <= 1
    requires Count(Sends(r.ev), TPuback, i) > 0 ==> drop && Is(l.out[0], TQos1, i) && told
    ensures AckAt(l.(r := r.c, back := l.back + Sends(r.ev), out := if drop then l.out[1..] else l.out), i, m,
                  heard || told)
  {
    CountAppend(l.back, Sends(r.ev), TPuback, i);
    if drop { CountHead(l.out, TQos1, i); }
    hide Count, Sends;
  }

  // ---------------------------------------------------------------- the moves of the network

  predicate ByClient(m: Move) { m.HostA? || m.Open? || m.QuitA? || m.ToA? }

  /** The call or arrival that a move is for the end that makes it. */
  function Deed(n: Net, m: Move): Op {
    match m
    case HostA(op) => op
    case HostB(op) => op
    case Open(p) => OpSend(V3_1_1, p)
    case Accept(p) => OpSend(V3_1_1, p)
    case Reject(p) => OpSend(V3_1_1, p)
    case QuitA(p) => OpSend(V3_1_1, p)
    case QuitB(p) => OpSend(V3_1_1, p)
    case ToB => if n.ab == [] then OpAcquire else Arrival(n.ab[0])
    case ToA => if n.ba == [] then OpAcquire else Arrival(n.ba[0])
    case Cut(_, _) => OpAcquire
  }

  function Actor(n: Net, m: Move): Conn { if ByClient(m) then n.a else n.b }

  /** The channel to the end that makes the move. */
  function Inbox(n: Net, m: Move): seq<Packet> { if ByClient(m) then n.ba else n.ab }

  predicate IsDelivery(m: Move) { m.ToA? || m.ToB? }

  /** One step of an end, as far as QoS 1 is concerned. */
  ghost predicate Act(c: Conn, r: R, i: nat, x: Option<Publish>, inbox: seq<Packet>, drop: bool) {
    && Sending(c, r, i, x, drop && inbox != [] && Is(inbox[0], TPuback, i))
    && Count(Sends(r.ev), TPuback, i) <= 1
    && (Count(Sends(r.ev), TPuback, i) > 0 ==>
          drop && inbox != [] && Is(inbox[0], TQos1, i) && inbox[0] in Rec.Handed(r.ev))
  }

  lemma Uneventful(c: Conn, r: R, i: nat, ps: seq<Packet>, inbox: seq<Packet>, drop: bool)
    requires forall q :: q in r.c.session.store ==> q in c.session.store
    requires r.c.ids.puback == c.ids.puback || (r.c.ids.puback == {} && c.status.Connecting?)
    requires Sends(r.ev) == ps && |ps| <= 1 && (ps != [] ==> !ps[0].PublishPacket? && !ps[0].Puback?)
    ensures Act(c, r, i, None, inbox, drop)
  {
    CountNone(ps, TQos1, i);
    CountNone(ps, TPuback, i);
    hide Sends, Count;
  }

  /** A connecting end has no exchange under way, and a move that takes an end down keeps its network. */
  ghost predicate Shielded(n: Net, m: Move, d: Conn) {
    var linked := Next(n, m).linked;
    || Hi(d, linked) >= Hi(Actor(n, m), n.linked)
    || (n.ab == [] && n.ba == [])
    || (m.ToB? && n.ba == [] && |n.ab| == 1 && n.ab[0].Connect?)
  }

  lemma Acts(n: Net, m: Move, i: nat)
    requires Inv(n) && Enabled(n, m) && !m.Cut?
    ensures var c := Actor(n, m);
      var r := Step(c, Deed(n, m));
      Act(c, r, i, Begun(c, Deed(n, m), i), Inbox(n, m), IsDelivery(m)) && Shielded(n, m, r.c)
  {
    hide Step, Act, Half, HalfAt, Sends, Notices, Consistent, HostMove;
    var c := Actor(n, m);
    var op := Deed(n, m);
    var r := Step(c, op);
    match m {
      case HostA(_) => HostActs(n, m, i);
      case HostB(_) => HostActs(n, m, i);
      case Open(p) =>
        OpenFacts(c, p);
        assert r.c.ids.puback == c.ids.puback && r.c.session.store == c.session.store by { OpenState(c, p); }
        Uneventful(c, r, i, [p], Inbox(n, m), false);
      case Accept(p) =>
        AcceptFacts(c, p);
        UpSends(c, r, [p], i);
        UpActs(c, r, i, Inbox(n, m), false);
      case Reject(p) =>
        RejectFacts(c, p);
        Uneventful(c, r, i, [p], Inbox(n, m), false);
      case QuitA(p) => QuitActs(n, m, p, i);
      case QuitB(p) => QuitActs(n, m, p, i);
      case ToB => ArrivalActs(n, m, i);
      case ToA => ArrivalActs(n, m, i);
    }
  }

  lemma HostActs(n: Net, m: Move, i: nat)
    requires Inv(n) && Enabled(n, m) && (m.HostA? || m.HostB?)
    ensures var c := Actor(n, m);
      var r := Step(c, m.op);
      Act(c, r, i, Begun(c, m.op, i), Inbox(n, m), false) && Shielded(n, m, r.c)
  {
    hide Step, Half, HalfAt, Sends, Notices, Consistent, HostMove, Sending;
    HostSends(Actor(n, m), m.op, i);
    HostFacts(Actor(n, m), m.op);
  }

  lemma OpenState(c: Conn, p: Packet)
    requires Endpoint(c) && c.status.Disconnected? && Resumes(p) && !c.opt.role.Server?
    requires Step(c, OpSend(V3_1_1, p)).c.status.Connecting?
    ensures var d := Step(c, OpSend(V3_1_1, p)).c;
      d.ids.puback == c.ids.puback && d.session.store == c.session.store
  {
    GreetMoves(c, p);
    hide Greeting, Consistent;
  }

  lemma QuitActs(n: Net, m: Move, p: Packet, i: nat)
    requires Inv(n) && Enabled(n, m) && (m == QuitA(p) || m == QuitB(p))
    ensures var c := Actor(n, m);
      var r := Step(c, OpSend(V3_1_1, p));
      Act(c, r, i, Begun(c, OpSend(V3_1_1, p), i), Inbox(n, m), false) && Shielded(n, m, r.c)
  {
    hide Step, Act, Half, HalfAt, Sends, Notices, Consistent;
    var c := Actor(n, m);
    var r := Step(c, OpSend(V3_1_1, p));
    QuitFacts(c, p);
    Uneventful(c, r, i, Sends(r.ev), Inbox(n, m), false);
  }

  lemma ArrivalActs(n: Net, m: Move, i: nat)
    requires Inv(n) && Enabled(n, m) && IsDelivery(m)
    ensures var c := Actor(n, m);
      var r := Step(c, Arrival(Inbox(n, m)[0]));
      Act(c, r, i, None, Inbox(n, m), true) && Shielded(n, m, r.c)
  {
    hide Step, Act, Half, HalfAt, Sends, Notices, Consistent;
    var c := Actor(n, m);
    var inbox := Inbox(n, m);
    var p := inbox[0];
    var r := Step(c, Arrival(p));
    if m.ToB? && n.a.status.Connecting? {
      WelcomeFacts(c, p);
      assert r.c.ids.puback == c.ids.puback && r.c.session.store == c.session.store by { WelcomeState(c, p); }
      Uneventful(c, r, i, [], inbox, true);
    } else if n.a.status.Connecting? {
      if IsReject(p) {
        RejectedFacts(c, p);
        Uneventful(c, r, i, [], inbox, true);
      } else if p.sessionPresent {
        AcceptedFacts(c, p);
        assert [] + StoredPackets(c.session.store) == StoredPackets(c.session.store);
        UpSends(c, r, [], i);
        UpActs(c, r, i, inbox, true);
      } else {
        AfreshFacts(c, p);
        Uneventful(c, r, i, [], inbox, true);
      }
    } else {
      CleanActs(c, inbox, i);
    }
  }

  lemma WelcomeState(c: Conn, p: Packet)
    requires Endpoint(c) && c.status.Disconnected? && Resumes(p) && !c.opt.role.Client?
    requires Step(c, Arrival(p)).c.status.Connecting?
    ensures var d := Step(c, Arrival(p)).c; d.ids.puback == c.ids.puback && d.session.store == c.session.store
  {
    GreetMoves(c, p);
    hide Welcomed, Consistent;
  }

  lemma UpActs(c: Conn, r: R, i: nat, inbox: seq<Packet>, drop: bool)
    requires c.status.Connecting? && Sending(c, r, i, None, false) && Count(Sends(r.ev), TPuback, i) == 0
    ensures Act(c, r, i, None, inbox, drop)
  {
    hide Sends, Count;
  }

  lemma CleanActs(c: Conn, inbox: seq<Packet>, i: nat)
    requires Endpoint(c) && !c.status.Connecting? && c.session.needStore && inbox != [] && Clean(inbox[0])
    ensures var r := Step(c, Arrival(inbox[0]));
      Act(c, r, i, None, inbox, true) && r.c.status == c.status
  {
    hide Step, Sends, Notices, Consistent, Sending, Count, Rec.Handed;
    ArrivalSends(c, inbox[0], i);
    ArrivalReceives(c, inbox[0], i);
    DeliveryFacts(c, inbox[0]);
  }

  // ---------------------------------------------------------------- over runs

  /** The lane from client to server, or back. */
  function Dir(n: Net, up: bool): Lane { if up then LaneAB(n) else LaneBA(n) }

  /** The QoS 1 message that the sender takes under `i` in this move. */
  function Asked(n: Net, m: Move, i: nat, up: bool): Option<Publish> {
    if !m.Cut? && ByClient(m) == up then Begun(Actor(n, m), Deed(n, m), i) else None
  }

  /** In this move the receiver's host is handed the QoS 1 message `x`. */
  ghost predicate Told(n: Net, m: Move, x: Publish, up: bool) {
    && m == (if up then ToB else ToA) && Inbox(n, m) != []
    && exists p :: p in Rec.Handed(Step(Actor(n, m), Arrival(Inbox(n, m)[0])).ev) && IsQos1(p) && Content(p.pub) == x
  }

  lemma NextAck(n: Net, mv: Move, i: nat, up: bool, m: Option<Publish>, heard: bool)
    requires Inv(n) && Enabled(n, mv) && AckAt(Dir(n, up), i, m, heard)
    ensures var x := Asked(n, mv, i, up);
      AckAt(Dir(Next(n, mv), up), i, if x.Some? then x else m,
            x.None? && (heard || (m.Some? && Told(n, mv, m.value, up))))
  {
    hide Step, Half, HalfAt, Sends, Notices, Consistent, HostMove, AckAt, Act;
    if mv.Cut? {
      CutAck(n, mv, i, up, m, heard);
    } else {
      Acts(n, mv, i);
      if ByClient(mv) == up { SenderMoves(n, mv, i, up, m, heard); } else { ReceiverMoves(n, mv, i, up, m, heard); }
    }
  }

  lemma CutAck(n: Net, mv: Move, i: nat, up: bool, m: Option<Publish>, heard: bool)
    requires Inv(n) && Enabled(n, mv) && mv.Cut? && AckAt(Dir(n, up), i, m, heard)
    ensures AckAt(Dir(Next(n, mv), up), i, m, heard)
  {
    hide Closed, Half, HalfAt;
    ClosedMoves(n.a, mv.orderA);
    ClosedMoves(n.b, mv.orderB);
    hide Consistent, Endpoint;
  }

  lemma SenderMoves(n: Net, mv: Move, i: nat, up: bool, m: Option<Publish>, heard: bool)
    requires Inv(n) && Enabled(n, mv) && !mv.Cut? && ByClient(mv) == up && AckAt(Dir(n, up), i, m, heard)
    requires var c := Actor(n, mv);
      var r := Step(c, Deed(n, mv));
      Act(c, r, i, Begun(c, Deed(n, mv), i), Inbox(n, mv), IsDelivery(mv)) && Shielded(n, mv, r.c)
    ensures var x := Asked(n, mv, i, up);
      AckAt(Dir(Next(n, mv), up), i, if x.Some? then x else m, heard && x.None?)
  {
    hide Step, Half, HalfAt, Sends, Notices, Consistent, HostMove, AckAt, Sending, Begun;
    var c := Actor(n, mv);
    var r := Step(c, Deed(n, mv));
    var l := Dir(n, up);
    assert Count(l.out, TQos1, i) + Count(l.back, TPuback, i) == 0
        || Hi(r.c, Next(n, mv).linked) >= Hi(l.s, l.linked) by {
      if mv.ToB? && |n.ab| == 1 && n.ab[0].Connect? {
        assert n.ab == [n.ab[0]];
        CountOne(n.ab[0], TPuback, i);
      }
    }
    SenderStep(l, r, i, m, heard, Begun(c, Deed(n, mv), i), IsDelivery(mv), Next(n, mv).linked);
    SameAck(n, mv, l, r, up, i, Asked(n, mv, i, up), m, heard);
  }

  /** The lane after a move of its sender, whatever is logged of QoS 2. */
  lemma SameAck(n: Net, mv: Move, l: Lane, r: R, up: bool, i: nat, x: Option<Publish>, m: Option<Publish>, heard: bool)
    requires Enabled(n, mv) && !mv.Cut? && ByClient(mv) == up && l == Dir(n, up)
    requires r == Step(Actor(n, mv), Deed(n, mv))
    requires AckAt(l.(s := r.c, out := l.out + Sends(r.ev), back := if IsDelivery(mv) then l.back[1..] else l.back,
                      linked := Next(n, mv).linked), i, if x.Some? then x else m, heard && x.None?)
    ensures AckAt(Dir(Next(n, mv), up), i, if x.Some? then x else m, heard && x.None?)
  {
    hide Step, Sends, Notices, HostMove, Qos2.Taken, StillOpen;
  }

  lemma ReceiverMoves(n: Net, mv: Move, i: nat, up: bool, m: Option<Publish>, heard: bool)
    requires Inv(n) && Enabled(n, mv) && !mv.Cut? && ByClient(mv) != up && AckAt(Dir(n, up), i, m, heard)
    requires var c := Actor(n, mv);
      var r := Step(c, Deed(n, mv));
      Act(c, r, i, Begun(c, Deed(n, mv), i), Inbox(n, mv), IsDelivery(mv))
    ensures AckAt(Dir(Next(n, mv), up), i, m, heard || (m.Some? && Told(n, mv, m.value, up)))
  {
    hide Step, Half, HalfAt, Sends, Notices, Consistent, HostMove, Sending, Begun, Rec.Handed, Count;
    var r := Step(Actor(n, mv), Deed(n, mv));
    var l := Dir(n, up);
    var told := Count(Sends(r.ev), TPuback, i) > 0;
    if told { assert l.out[0] in l.out && Told(n, mv, m.value, up); }
    hide Told;
    ReceiverStep(l, r, i, m, heard, told, IsDelivery(mv));
    BackGrows(n, mv, up);
    RelinkAck(n, mv, up);
    hide Next, Dir;
  }

  /** A move of the receiver adds to the channel back and may take from the other. */
  lemma BackGrows(n: Net, mv: Move, up: bool)
    requires Inv(n) && Enabled(n, mv) && !mv.Cut? && ByClient(mv) != up
    ensures var l, k, r := Dir(n, up), Dir(Next(n, mv), up), Step(Actor(n, mv), Deed(n, mv));
      k.out == (if IsDelivery(mv) then l.out[1..] else l.out) && k.back == l.back + Sends(r.ev) && k.s == l.s
  {
    hide Step, Half, HalfAt, Notices, Consistent, HostMove, Qos2.Taken, StillOpen, Sends;
  }

  /** A network connection is set up by the client and not lost but by a cut. */
  lemma RelinkAck(n: Net, mv: Move, up: bool)
    requires Inv(n) && Enabled(n, mv) && !mv.Cut?
    ensures Next(n, mv).linked == (n.linked || mv.Open?)
  {
    hide Step, Sends, Notices, Qos2.Taken, StillOpen;
  }

  // ---------------------------------------------------------------- the theorem

  /** The last of the first `k` moves in which the sender takes a QoS 1 message under `i`. */
  ghost function Latest(ns: seq<Net>, ms: seq<Move>, k: nat, i: nat, up: bool): Option<nat>
    requires k <= |ms| && |ns| == |ms| + 1
  {
    if k == 0 then None
    else if Asked(ns[k - 1], ms[k - 1], i, up).Some? then Some(k - 1) else Latest(ns, ms, k - 1, i, up)
  }

  /** The message was handed over between its being taken in move `j` and move `k`. */
  ghost predicate Heard(ns: seq<Net>, ms: seq<Move>, j: nat, k: nat, x: Publish, up: bool)
    requires k <= |ms| && |ns| == |ms| + 1
  {
    exists h :: j < h < k && Told(ns[h], ms[h], x, up)
  }

  lemma {:induction false} LatestIs(ns: seq<Net>, ms: seq<Move>, k: nat, i: nat, up: bool)
    requires k <= |ms| && |ns| == |ms| + 1
    ensures match Latest(ns, ms, k, i, up)
      case Some(j) =>
        j < k && Asked(ns[j], ms[j], i, up).Some? && forall t :: j < t < k ==> Asked(ns[t], ms[t], i, up).None?
      case None => forall t :: 0 <= t < k ==> Asked(ns[t], ms[t], i, up).None?
  {
    if k > 0 { LatestIs(ns, ms, k - 1, i, up); }
  }

  /** The message last taken under `i`, and whether it was handed over since. */
  ghost predicate Progress(ns: seq<Net>, ms: seq<Move>, k: nat, i: nat, up: bool)
    requires k <= |ms| && |ns| == |ms| + 1
  {
    match Latest(ns, ms, k, i, up)
    case None => AckAt(Dir(ns[k], up), i, None, false)
    case Some(j) =>
      && j < k && Asked(ns[j], ms[j], i, up).Some?
      && var x := Asked(ns[j], ms[j], i, up).value;
         AckAt(Dir(ns[k], up), i, Some(x), Heard(ns, ms, j, k, x, up))
  }

  lemma {:induction false} RunProgress(ns: seq<Net>, ms: seq<Move>, k: nat, i: nat, up: bool)
    requires Run(ns, ms) && k <= |ms|
    ensures Progress(ns, ms, k, i, up)
  {
    hide Step, Enabled, Next, AckAt, Inv, Told, Asked;
    if k == 0 {
      StartAck(ns[0], i, up);
    } else {
      hide Start;
      RunProgress(ns, ms, k - 1, i, up);
      RunInv(ns, ms, k - 1);
      var j := Latest(ns, ms, k - 1, i, up);
      var n, mv := ns[k - 1], ms[k - 1];
      if j.Some? {
        var x := Asked(ns[j.value], ms[j.value], i, up).value;
        var heard := Heard(ns, ms, j.value, k - 1, x, up);
        NextAck(n, mv, i, up, Some(x), heard);
        assert Heard(ns, ms, j.value, k, x, up) <==> heard || Told(n, mv, x, up) by {
          if Told(n, mv, x, up) { assert Told(ns[k - 1], ms[k - 1], x, up); }
        }
      } else {
        NextAck(n, mv, i, up, None, false);
      }
    }
  }

  lemma StartAck(n: Net, i: nat, up: bool)
    requires Start(n)
    ensures AckAt(Dir(n, up), i, None, false)
  {
  }

  lemma PubackFrees(c: Conn, p: Packet)
    requires Consistent(c) && p.Puback? && p.pid in c.ids.puback
    ensures p.pid in c.ids.used && p.pid !in ReceivePuback(c, p).c.ids.used
  {
    InUse(c, p.pid);
    hide Erase, Deliver;
  }

  /** At-least-once delivery, in every run and both directions. Every PUBACK that arrives frees its identifier, and by
      then the receiver's host was handed the message last taken under it, after it was taken. */
  lemma AtLeastOnceDelivery(ns: seq<Net>, ms: seq<Move>, k: nat, i: nat, up: bool)
    requires Run(ns, ms) && k < |ms|
    requires ms[k] == (if up then ToA else ToB) && Inbox(ns[k], ms[k]) != [] && Is(Inbox(ns[k], ms[k])[0], TPuback, i)
    ensures i in Actor(ns[k], ms[k]).ids.used && i !in Actor(ns[k + 1], ms[k]).ids.used
    ensures exists j, h :: (
      && 0 <= j < h < k && Asked(ns[j], ms[j], i, up).Some?
      && (forall t :: j < t < k ==> Asked(ns[t], ms[t], i, up).None?)
      && Told(ns[h], ms[h], Asked(ns[j], ms[j], i, up).value, up))
  {
    hide Step, Enabled, Next, Inv, Told, Asked, Start;
    RunProgress(ns, ms, k, i, up);
    RunInv(ns, ms, k);
    LatestIs(ns, ms, k, i, up);
    var l := Dir(ns[k], up);
    CountHead(l.back, TPuback, i);
    assert Count(l.back, TPuback, i) > 0;
    PubackArrives(ns[k], ms[k], i);
    var j := Latest(ns, ms, k, i, up).value;
    var x := Asked(ns[j], ms[j], i, up).value;
    var h :| j < h < k && Told(ns[h], ms[h], x, up);
  }

  lemma PubackArrives(n: Net, m: Move, i: nat)
    requires Inv(n) && IsDelivery(m) && Inbox(n, m) != [] && Is(Inbox(n, m)[0], TPuback, i)
    requires Enabled(n, m) && i in Actor(n, m).ids.puback
    ensures i in Actor(n, m).ids.used && i !in Actor(Next(n, m), m).ids.used
  {
    hide Half, HalfAt, ReceivePuback, Sends, Notices, Step;
    var c := Actor(n, m);
    var p := Inbox(n, m)[0];
    assert Step(c, Arrival(p)).c == ReceivePuback(c, p).c by { ArrivesAsIs(c, p); }
    PubackFrees(c, p);
    hide Consistent;
  }

  lemma ArrivesAsIs(c: Conn, p: Packet)
    requires Endpoint(c) && p.Puback? && Size(V3_1_1, p) <= NO_SIZE_LIMIT
    ensures Step(c, Arrival(p)) == ReceivePuback(c, p)
  {
    hide ReceivePuback;
  }
}
