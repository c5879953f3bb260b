/** Two v3.1.1 endpoints that keep one session, joined by FIFO channels that may be cut and set up
    again at any time, also after a host sent DISCONNECT: every QoS 2 message reaches the host of the receiver
    at most once, and exactly once by the time the sender gives its identifier back (section 4.3.3 of
    MQTT 3.1.1). */
module ExactlyOnce {
  import opened Packets
  import opened Store
  import opened Engine
  import opened Session
  import opened Tokens
  import opened Traffic
  import opened Qos2

  /** The messages of `log` that went under identifier `i`. */
  function Of(log: seq<Publish>, i: nat): seq<Publish> {
    if log == [] then []
    else Of(log[..|log| - 1], i) + (if log[|log| - 1].pid == i then [log[|log| - 1]] else [])
  }

  lemma OfAppend(log: seq<Publish>, m: Publish, i: nat)
    ensures Of(log + [m], i) == Of(log, i) + (if m.pid == i then [m] else [])
  {
    assert (log + [m])[..|log|] == log;
  }

  // ---------------------------------------------------------------- one direction

  /** Messages from `s` to `r`: the packets on their way, the messages `s` took and those `r` handed to its
      host. `open` holds the identifiers of messages that `s` took and has not reported free; `linked` tells
      whether there is a network connection, be it only for what is still under way. */
  datatype Lane = Lane(
    s: Conn, r: Conn, out: seq<Packet>, back: seq<Packet>,
    sent: seq<Publish>, got: seq<Publish>, open: set<nat>, linked: bool)

  /** The least and the greatest number of packets of an exchange that may be under way. A receiver that has
      sent DISCONNECT does not answer any more, and a sender that has may still be answered. */
  function Lo(s: Conn, r: Conn): nat { if IsConnected(s) && !r.status.Disconnected? then 1 else 0 }

  function Hi(s: Conn, linked: bool): nat { if IsConnected(s) || (linked && s.status.Disconnected?) then 1 else 0 }

  /** Where identifier `i` stands. An open identifier that awaits nothing was abandoned when a PUBREC came
      after DISCONNECT; its message was delivered. */
  ghost predicate HalfAt(l: Lane, i: nat) {
    var sent, got := Of(l.sent, i), Of(l.got, i);
    var n := |sent|;
    if i in l.s.ids.pubrec then
      && i in l.open && n > 0 && Count(l.out, TPubrel, i) == 0 && Count(l.back, TPubcomp, i) == 0
      && Lo(l.s, l.r) <= Count(l.out, TQos2, i) + Count(l.back, TPubrec, i) <= Hi(l.s, l.linked)
      && StoresMessage(l.s.session.store, i, sent[n - 1])
      && got == (if i in l.r.session.handled then sent else sent[..n - 1])
      && (Count(l.back, TPubrec, i) > 0 ==> i in l.r.session.handled)
      && (forall p :: p in l.out && Is(p, TQos2, i) ==> Content(p.pub) == sent[n - 1])
    else if i in l.s.ids.pubcomp then
      && i in l.open && Count(l.out, TQos2, i) == 0 && Count(l.back, TPubrec, i) == 0
      && Lo(l.s, l.r) <= Count(l.out, TPubrel, i) + Count(l.back, TPubcomp, i) <= Hi(l.s, l.linked)
      && StoresRelease(l.s.session.store, i)
      && got == sent
      && (Count(l.back, TPubcomp, i) > 0 ==> i !in l.r.session.handled)
    else
      && Count(l.out, TQos2, i) == 0 && Count(l.back, TPubrec, i) == 0
      && Count(l.out, TPubrel, i) == 0 && Count(l.back, TPubcomp, i) == 0
      && got == sent
      && (if i in l.open then i in l.s.ids.used && !InFlight(l.s.ids, i) else i !in l.r.session.handled)
  }

  ghost predicate Half(l: Lane) { forall i: nat :: HalfAt(l, i) }

  /** What is open after `s` took the messages `taken` and became `d`. */
  function StillOpen(open: set<nat>, taken: seq<Publish>, d: Conn): set<nat> {
    set i: nat | i in d.ids.used && (i in open || Of(taken, i) != [])
  }

  lemma InUse(c: Conn, i: nat)
    requires Consistent(c) && InFlight(c.ids, i)
    ensures i in c.ids.used
  {
  }

  // ---------------------------------------------------------------- one direction under each move

  function SenderActs(l: Lane, op: Op): Lane {
    var e := Step(l.s, op);
    l.(s := e.c, out := l.out + Sends(e.ev), sent := l.sent + Taken(l.s, op),
        open := StillOpen(l.open, Taken(l.s, op), e.c))
  }

  function ReceiverActs(l: Lane, op: Op): Lane {
    var e := Step(l.r, op);
    l.(r := e.c, back := l.back + Sends(e.ev), got := l.got + Notices(e.ev))
  }

  /** The sender's host makes a call. */
  lemma SenderHost(l: Lane, op: Op)
    requires Endpoint(l.s) && HostMove(l.s, op) && Half(l) && forall i :: i in l.open ==> !Touches(op, i)
    ensures Half(SenderActs(l, op))
  {
    hide Step, HostMove, Consistent, HalfAt, HostEffect;
    HostFacts(l.s, op);
    var e := Step(l.s, op);
    var m := SenderActs(l, op);
    forall i: nat ensures HalfAt(m, i) {
      assert HalfAt(l, i);
      assert var e := Step(l.s, op);
        var begun := op.OpSend? && IsQos2(op.packet) && !Refused(e.ev) && op.packet.pub.pid == i;
        var m := SenderActs(l, op);
        && Of(m.sent, i) == Of(l.sent, i) + (if begun then [Content(op.packet.pub)] else [])
        && (i in m.open <==> i in e.c.ids.used && (i in l.open || begun)) by {
        hide Step, Refused, Sends;
        var taken := Taken(l.s, op);
        if taken == [] {
          assert l.sent + taken == l.sent && Of(l.sent, i) + [] == Of(l.sent, i);
        } else {
          OfAppend(l.sent, Content(op.packet.pub), i);
          OfAppend([], Content(op.packet.pub), i);
          assert [] + [Content(op.packet.pub)] == taken;
        }
      }
      assert HalfAt(m, i) by {
        hide Of, HalfAt, HostEffect;
        if op.OpSend? && IsQos2(op.packet) && !Refused(e.ev) {
          if op.packet.pub.pid == i { Begun(l, m, op, e, i); } else { BegunElsewhere(l, m, op, e, i); }
        } else {
          NotBegun(l, m, op, e, i);
        }
      }
    }
  }

  lemma NotBegun(l: Lane, m: Lane, op: Op, e: R, i: nat)
    requires Endpoint(l.s) && HalfAt(l, i) && HostEffect(l.s, op, e) && (i in l.open ==> !Touches(op, i))
    requires !(op.OpSend? && IsQos2(op.packet) && !Refused(e.ev))
    requires m == l.(s := e.c, out := l.out + Sends(e.ev), sent := m.sent, open := m.open)
        && Of(m.sent, i) == Of(l.sent, i)
    requires i in m.open <==> i in e.c.ids.used && i in l.open
    ensures HalfAt(m, i)
  {
    hide Sends, Of, Notices;
    CountAppend(l.out, Sends(e.ev), TQos2, i);
    CountAppend(l.out, Sends(e.ev), TPubrel, i);
    UninvolvedCount(Sends(e.ev), i);
    if InFlight(e.c.ids, i) { InUse(e.c, i); }
    assert Touches(op, i) || Parked(l.s, e.c, i);
    hide Consistent;
  }

  lemma Begun(l: Lane, m: Lane, op: Op, e: R, i: nat)
    requires Endpoint(l.s) && HalfAt(l, i) && HostEffect(l.s, op, e) && (i in l.open ==> !Touches(op, i))
    requires op.OpSend? && IsQos2(op.packet) && !Refused(e.ev) && op.packet.pub.pid == i
    requires m == l.(s := e.c, out := l.out + Sends(e.ev), sent := m.sent, open := m.open)
    requires Of(m.sent, i) == Of(l.sent, i) + [Content(op.packet.pub)] && (i in m.open <==> i in e.c.ids.used)
    ensures HalfAt(m, i)
  {
    hide Sends, Of, Notices;
    var p := op.packet.pub;
    CountAppend(l.out, Sends(e.ev), TQos2, i);
    CountAppend(l.out, Sends(e.ev), TPubrel, i);
    FindAppend(l.s.session.store, StoredPublish(V3_1_1, p.(dup := true)), i);
    FindHas(l.s.session.store, i);
    CountOne(PublishPacket(p), TQos2, i);
    CountOne(PublishPacket(p), TPubrel, i);
    forall q | q in l.s.session.store ensures IdOf(q) != i { assert Awaited(l.s.ids, q); }
    InUse(e.c, i);
    CountZero(l.out, TQos2, i);
    hide Consistent;
  }

  lemma BegunElsewhere(l: Lane, m: Lane, op: Op, e: R, i: nat)
    requires Endpoint(l.s) && HalfAt(l, i) && HostEffect(l.s, op, e)
    requires op.OpSend? && IsQos2(op.packet) && !Refused(e.ev) && op.packet.pub.pid != i
    requires m == l.(s := e.c, out := l.out + Sends(e.ev), sent := m.sent, open := m.open)
    requires Of(m.sent, i) == Of(l.sent, i) && (i in m.open <==> i in e.c.ids.used && i in l.open)
    ensures HalfAt(m, i)
  {
    hide Sends, Of, Notices;
    ElsewhereFacts(l.s, op, e, i);
    var p := op.packet.pub;
    if InFlight(e.c.ids, i) { InUse(e.c, i); }
    hide HostEffect, Consistent, Find;
    CountAppend(l.out, Sends(e.ev), TQos2, i);
    CountAppend(l.out, Sends(e.ev), TPubrel, i);
  }

  lemma ElsewhereFacts(c: Conn, op: Op, e: R, i: nat)
    requires HostEffect(c, op, e) && op.OpSend? && IsQos2(op.packet) && !Refused(e.ev) && op.packet.pub.pid != i
    ensures Consistent(e.c) && e.c.status == c.status && Parked(c, e.c, i)
    ensures (i in e.c.ids.pubrec <==> i in c.ids.pubrec) && (i in e.c.ids.pubcomp <==> i in c.ids.pubcomp)
    ensures i in c.ids.pubrec || i in c.ids.pubcomp ==> Find(e.c.session.store, i) == Find(c.session.store, i)
    ensures Count(Sends(e.ev), TQos2, i) == 0 && Count(Sends(e.ev), TPubrel, i) == 0
    ensures forall q :: q in Sends(e.ev) ==> !Is(q, TQos2, i)
  {
    var p := op.packet.pub;
    hide Sends, Notices, Consistent;
    assert Parked(c, e.c, i);
    FindAppend(c.session.store, StoredPublish(V3_1_1, p.(dup := true)), i);
    assert Find(c.session.store + [(StoredPublish(V3_1_1, p.(dup := true)))], i) == Find(c.session.store, i) by {
      FindAppend(c.session.store, (StoredPublish(V3_1_1, p.(dup := true))), i);
    }
    CountOne(PublishPacket(p), TQos2, i);
    CountOne(PublishPacket(p), TPubrel, i);
  }

  /** The receiver's host makes a call. */
  lemma Undisturbed(l: Lane, k: Lane, i: nat)
    requires HalfAt(l, i) && k == l.(r := k.r, back := k.back)
    requires Lo(k.s, k.r) <= Lo(l.s, l.r) && k.r.session.handled == l.r.session.handled
    requires Count(k.back, TPubrec, i) == Count(l.back, TPubrec, i)
    requires Count(k.back, TPubcomp, i) == Count(l.back, TPubcomp, i)
    ensures HalfAt(k, i)
  {
    hide Lo, Hi, Of, StoresMessage, StoresRelease;
  }

  lemma ReceiverHost(l: Lane, op: Op)
    requires Endpoint(l.r) && HostMove(l.r, op) && Half(l)
    ensures Half(ReceiverActs(l, op))
  {
    HostFacts(l.r, op);
    var e := Step(l.r, op);
    var k := ReceiverActs(l, op);
    assert k.got == l.got && Lo(k.s, k.r) <= Lo(l.s, l.r) && k.r.session.handled == l.r.session.handled;
    hide Step, HostMove, Consistent, Lo, HalfAt;
    forall i: nat ensures HalfAt(k, i) {
      CountAppend(l.back, Sends(e.ev), TPubrec, i);
      CountAppend(l.back, Sends(e.ev), TPubcomp, i);
      assert Count(Sends(e.ev), TPubrec, i) == 0 && Count(Sends(e.ev), TPubcomp, i) == 0 by {
        CountNone(Sends(e.ev), TPubrec, i);
        CountNone(Sends(e.ev), TPubcomp, i);
      }
      Undisturbed(l, k, i);
    }
  }

  function SenderTakes(l: Lane): Lane
    requires l.back != []
  {
    SenderActs(l, Arrival(l.back[0])).(back := l.back[1..])
  }

  function ReceiverTakes(l: Lane): Lane
    requires l.out != []
  {
    ReceiverActs(l, Arrival(l.out[0])).(out := l.out[1..])
  }

  /** The sender takes the next packet from the receiver. */
  lemma SenderReceives(l: Lane)
    requires Endpoint(l.s) && !l.s.status.Connecting? && l.s.session.needStore && Half(l)
    requires l.back != [] && Clean(l.back[0])
    ensures Half(SenderTakes(l))
  {
    hide Step;
    var e := Step(l.s, Arrival(l.back[0]));
    DeliveryFacts(l.s, l.back[0]);
    hide Step, HalfAt, Consistent, ReceiveFacts;
    assert l.sent + [] == l.sent;
    forall i: nat ensures HalfAt(SenderTakes(l), i) {
      assert HalfAt(l, i);
      assert Of([], i) == [];
      assert HalfAt(SenderTakes(l), i) by {
        hide HalfAt, ReceiveFacts, Endpoint, Sends;
        var p := l.back[0];
        if p.Pubrec? && p.pid == i {
          SenderPubrec(l, SenderTakes(l), e, i);
        } else if p.Pubcomp? && p.pid == i {
          SenderPubcomp(l, SenderTakes(l), e, i);
        } else {
          SenderOther(l, SenderTakes(l), e, i);
        }
      }
    }
  }

  /** What the head of a channel and the packets appended to the other one add to the counts of `i`. */
  lemma Moved(l: Lane, ps: seq<Packet>, i: nat)
    requires l.back != [] && |ps| <= 1
    ensures Count(l.back, TPubrec, i) == (if Is(l.back[0], TPubrec, i) then 1 else 0) + Count(l.back[1..], TPubrec, i)
    ensures Count(l.back, TPubcomp, i)
        == (if Is(l.back[0], TPubcomp, i) then 1 else 0) + Count(l.back[1..], TPubcomp, i)
    ensures Count(l.out + ps, TQos2, i) == Count(l.out, TQos2, i) + if ps != [] && Is(ps[0], TQos2, i) then 1 else 0
    ensures Count(l.out + ps, TPubrel, i) == Count(l.out, TPubrel, i) + if ps != [] && Is(ps[0], TPubrel, i) then 1
        else 0
  {
    CountHead(l.back, TPubrec, i);
    CountHead(l.back, TPubcomp, i);
    CountAppend(l.out, ps, TQos2, i);
    CountAppend(l.out, ps, TPubrel, i);
    if ps != [] {
      assert ps == [ps[0]];
      CountOne(ps[0], TQos2, i);
      CountOne(ps[0], TPubrel, i);
    }
  }

  lemma SenderPubrec(l: Lane, m: Lane, e: R, i: nat)
    requires Endpoint(l.s) && HalfAt(l, i) && l.back != [] && ReceiveFacts(l.s, l.back[0], e)
    requires m == l.(s := e.c, out := l.out + Sends(e.ev), back := l.back[1..], open := m.open)
    requires i in m.open <==> i in e.c.ids.used && i in l.open
    requires l.back[0].Pubrec? && l.back[0].pid == i
    ensures HalfAt(m, i)
  {
    var ps := Sends(e.ev);
    hide Sends, Notices, Of, Count;
    if InFlight(l.s.ids, i) { InUse(l.s, i); }
    hide Consistent;
    Moved(l, ps, i);
  }

  lemma SenderPubcomp(l: Lane, m: Lane, e: R, i: nat)
    requires Endpoint(l.s) && HalfAt(l, i) && l.back != [] && ReceiveFacts(l.s, l.back[0], e)
    requires m == l.(s := e.c, out := l.out + Sends(e.ev), back := l.back[1..], open := m.open)
    requires i in m.open <==> i in e.c.ids.used && i in l.open
    requires l.back[0].Pubcomp? && l.back[0].pid == i
    ensures HalfAt(m, i)
  {
    var ps := Sends(e.ev);
    hide Sends, Notices, Of, Count;
    if InFlight(e.c.ids, i) { InUse(e.c, i); }
    assert Parked(l.s, e.c, i);
    hide Consistent;
    Moved(l, ps, i);
  }

  lemma SenderOther(l: Lane, m: Lane, e: R, i: nat)
    requires Endpoint(l.s) && HalfAt(l, i) && l.back != [] && ReceiveFacts(l.s, l.back[0], e)
    requires m == l.(s := e.c, out := l.out + Sends(e.ev), back := l.back[1..], open := m.open)
    requires i in m.open <==> i in e.c.ids.used && i in l.open
    requires !((l.back[0].Pubrec? || l.back[0].Pubcomp?) && l.back[0].pid == i)
    ensures HalfAt(m, i)
  {
    hide ReceiveFacts, Sends, Of, Consistent, Endpoint;
    var ps := Sends(e.ev);
    OtherForSender(l.s, l.back[0], e, i);
    if InFlight(e.c.ids, i) { InUse(e.c, i); }
    CountHead(l.back, TPubrec, i);
    CountHead(l.back, TPubcomp, i);
    CountAppend(l.out, ps, TQos2, i);
    CountAppend(l.out, ps, TPubrel, i);
    hide Count;
  }

  lemma OtherForSender(c: Conn, p: Packet, e: R, i: nat)
    requires Endpoint(c) && ReceiveFacts(c, p, e) && !((p.Pubrec? || p.Pubcomp?) && p.pid == i)
    ensures Consistent(e.c) && e.c.status == c.status && Parked(c, e.c, i)
    ensures (i in e.c.ids.pubrec <==> i in c.ids.pubrec) && (i in e.c.ids.pubcomp <==> i in c.ids.pubcomp)
    ensures i in c.ids.pubrec || i in c.ids.pubcomp ==> Find(e.c.session.store, i) == Find(c.session.store, i)
    ensures Count(Sends(e.ev), TQos2, i) == 0 && Count(Sends(e.ev), TPubrel, i) == 0
    ensures forall q :: q in Sends(e.ev) ==> !Is(q, TQos2, i)
  {
    NothingFor(c, p, e, i);
    assert p.Pubrec? || Parked(c, e.c, i);
    hide Consistent, Sends, Count, Notices;
  }

  /** What is sent in answer to a packet is no message, and no PUBREL but for an expected PUBREC. */
  lemma NothingFor(c: Conn, p: Packet, e: R, i: nat)
    requires ReceiveFacts(c, p, e) && !(p.Pubrec? && p.pid == i)
    ensures Count(Sends(e.ev), TQos2, i) == 0 && Count(Sends(e.ev), TPubrel, i) == 0
    ensures forall q :: q in Sends(e.ev) ==> !Is(q, TQos2, i)
  {
    var ps := Sends(e.ev);
    hide Sends, Consistent;
    if !Involved(p) { UninvolvedCount(ps, i); }
        else if ps != [] { CountOne(ps[0], TQos2, i); CountOne(ps[0], TPubrel, i); }
    CountZero(ps, TQos2, i);
  }

  /** The receiver takes the next packet from the sender. */
  lemma ReceiverReceives(l: Lane)
    requires Endpoint(l.r) && !l.r.status.Connecting? && l.r.session.needStore && Half(l)
    requires l.out != [] && Clean(l.out[0])
    ensures Half(ReceiverTakes(l))
  {
    hide Step;
    var e := Step(l.r, Arrival(l.out[0]));
    DeliveryFacts(l.r, l.out[0]);
    hide Step, HalfAt, Consistent;
    assert Notices(e.ev) == [] || exists m :: Notices(e.ev) == [m];
    hide ReceiveFacts, Sends;
    forall i: nat ensures HalfAt(ReceiverTakes(l), i) {
      assert HalfAt(l, i);
      if Notices(e.ev) == [] {
        assert l.got + Notices(e.ev) == l.got;
      } else {
        OfAppend(l.got, Notices(e.ev)[0], i);
      }
      assert HalfAt(ReceiverTakes(l), i) by {
        hide HalfAt, ReceiveFacts, Endpoint, Sends, Notices, Of;
        var p := l.out[0];
        if IsQos2(p) && p.pub.pid == i {
          ReceiverMessage(l, ReceiverTakes(l), e, i);
        } else if p.Pubrel? && p.pid == i {
          ReceiverRelease(l, ReceiverTakes(l), e, i);
        } else {
          ReceiverOther(l, ReceiverTakes(l), e, i);
        }
      }
    }
  }

  lemma ReceiverMessage(l: Lane, m: Lane, e: R, i: nat)
    requires Endpoint(l.r) && !l.r.status.Connecting? && HalfAt(l, i) && l.out != [] && ReceiveFacts(l.r, l.out[0], e)
    requires m == l.(r := e.c, out := l.out[1..], back := l.back + Sends(e.ev), got := m.got)
    requires Of(m.got, i) == Of(l.got, i) + if Notices(e.ev) != [] && Notices(e.ev)[0].pid == i
        then [Notices(e.ev)[0]] else []
    requires IsQos2(l.out[0]) && l.out[0].pub.pid == i
    ensures HalfAt(m, i)
  {
    hide ReceiveFacts, Sends, Notices, Of, Count, HalfAt, StoresMessage, Endpoint, Find;
    MessageUnderWay(l, i);
    MessageFacts(l.r, l.out[0], e);
    var sent := Of(l.sent, i);
    assert sent == sent[..|sent| - 1] + [sent[|sent| - 1]];
    assert Of(l.got, i) + [] == Of(l.got, i);
    MessageHandedOver(l, m, Sends(e.ev), i);
  }

  ghost predicate UnderWay(l: Lane, i: nat) {
    var sent := Of(l.sent, i);
    && l.out != [] && Is(l.out[0], TQos2, i) && i in l.s.ids.pubrec && i in l.open && sent != []
    && Count(l.out[1..], TQos2, i) == 0 && Count(l.out[1..], TPubrel, i) == 0
    && Count(l.back, TPubrec, i) == 0 && Count(l.back, TPubcomp, i) == 0 && Hi(l.s, l.linked) == 1
    && StoresMessage(l.s.session.store, i, sent[|sent| - 1]) && Content(l.out[0].pub) == sent[|sent| - 1]
    && Of(l.got, i) == if i in l.r.session.handled then sent else sent[..|sent| - 1]
  }

  lemma MessageUnderWay(l: Lane, i: nat)
    requires HalfAt(l, i) && l.out != [] && Is(l.out[0], TQos2, i)
    ensures UnderWay(l, i)
  {
    CountHead(l.out, TQos2, i);
    CountHead(l.out, TPubrel, i);
    assert l.out[0] in l.out;
    hide Of;
  }

  lemma MessageHandedOver(l: Lane, m: Lane, ps: seq<Packet>, i: nat)
    requires UnderWay(l, i) && !l.r.status.Connecting? && i in m.r.session.handled && m.r.status == l.r.status
    requires m == l.(r := m.r, out := l.out[1..], back := l.back + ps, got := m.got) && Of(m.got, i) == Of(l.sent, i)
    requires ps == Answer(l.r, Pubrec(i, None, 2))
    ensures HalfAt(m, i)
  {
    hide Of, StoresMessage, Find;
    Returned(l.back, ps, i);
    CountZero(l.out[1..], TQos2, i);
    hide Count;
  }

  /** What an answer adds to the counts of the channel back. */
  lemma Returned(back: seq<Packet>, ps: seq<Packet>, i: nat)
    requires |ps| <= 1
    ensures Count(back + ps, TPubrec, i) == Count(back, TPubrec, i) + if ps != [] && Is(ps[0], TPubrec, i) then 1 else 0
    ensures Count(back + ps, TPubcomp, i) == Count(back, TPubcomp, i) + if ps != [] && Is(ps[0], TPubcomp, i) then 1
        else 0
  {
    CountAppend(back, ps, TPubrec, i);
    CountAppend(back, ps, TPubcomp, i);
    if ps != [] {
      assert ps == [ps[0]];
      CountOne(ps[0], TPubrec, i);
      CountOne(ps[0], TPubcomp, i);
    }
  }

  lemma MessageFacts(c: Conn, p: Packet, e: R)
    requires ReceiveFacts(c, p, e) && IsQos2(p)
    ensures e.c.status == c.status && e.c.session.handled == c.session.handled + {p.pub.pid}
    ensures Sends(e.ev) == Answer(c, Pubrec(p.pub.pid, None, 2))
    ensures Notices(e.ev) == if p.pub.pid in c.session.handled then [] else [Content(p.pub)]
  {
    hide Endpoint, Sends, Notices;
  }

  lemma ReceiverRelease(l: Lane, m: Lane, e: R, i: nat)
    requires Endpoint(l.r) && !l.r.status.Connecting? && HalfAt(l, i) && l.out != [] && ReceiveFacts(l.r, l.out[0], e)
    requires m == l.(r := e.c, out := l.out[1..], back := l.back + Sends(e.ev), got := m.got)
    requires Of(m.got, i) == Of(l.got, i) + if Notices(e.ev) != [] && Notices(e.ev)[0].pid == i
        then [Notices(e.ev)[0]] else []
    requires l.out[0].Pubrel? && l.out[0].pid == i
    ensures HalfAt(m, i)
  {
    hide Sends, Notices, Of, Endpoint, Count, Find;
    assert e.c.status == l.r.status && e.c.session.handled == l.r.session.handled - {l.out[0].pid}
        && Sends(e.ev) == Answer(l.r, Pubcomp(l.out[0].pid, None, 2)) && Notices(e.ev) == [] by {
      hide Endpoint, Sends, Notices;
    }
    hide ReceiveFacts;
    assert Of(l.got, i) + [] == Of(l.got, i);
    assert Count(l.out, TQos2, i) == (if Is(l.out[0], TQos2, i) then 1 else 0) + Count(l.out[1..], TQos2, i)
        && Count(l.out, TPubrel, i) == (if Is(l.out[0], TPubrel, i) then 1 else 0) + Count(l.out[1..], TPubrel, i)
        && (Count(l.back + Sends(e.ev), TPubrec, i) == Count(l.back, TPubrec, i) + if Sends(e.ev) != []
        && Is(Sends(e.ev)[0], TPubrec, i) then 1
      else 0) && (Count(l.back + Sends(e.ev), TPubcomp, i) == Count(l.back, TPubcomp, i) + if Sends(e.ev) != []
          && Is(Sends(e.ev)[0], TPubcomp, i)
      then 1 else 0) by {
      CountHead(l.out, TQos2, i);
      CountHead(l.out, TPubrel, i);
      Returned(l.back, Sends(e.ev), i);
    }
  }

  lemma ReceiverOther(l: Lane, m: Lane, e: R, i: nat)
    requires Endpoint(l.r) && !l.r.status.Connecting? && HalfAt(l, i) && l.out != [] && ReceiveFacts(l.r, l.out[0], e)
    requires m == l.(r := e.c, out := l.out[1..], back := l.back + Sends(e.ev), got := m.got)
    requires Of(m.got, i) == Of(l.got, i) + if Notices(e.ev) != [] && Notices(e.ev)[0].pid == i
        then [Notices(e.ev)[0]] else []
    requires !(IsQos2(l.out[0]) && l.out[0].pub.pid == i) && !(l.out[0].Pubrel? && l.out[0].pid == i)
    ensures HalfAt(m, i)
  {
    var ps := Sends(e.ev);
    hide Sends, Notices, Of, Endpoint, Find;
    assert (e.c.status == l.r.status && (i in e.c.session.handled <==> i in l.r.session.handled))
        && Count(Sends(e.ev), TPubrec, i) == 0 && Count(Sends(e.ev), TPubcomp, i) == 0
        && (Notices(e.ev) == [] || Notices(e.ev)[0].pid != i) by {
      var ps := Sends(e.ev);
      hide Sends, Notices, Consistent;
      if !Involved(l.out[0]) { UninvolvedCount(ps, i); }
          else if ps != [] { CountOne(ps[0], TPubrec, i); CountOne(ps[0], TPubcomp, i); }
    }
    hide ReceiveFacts;
    assert Of(l.got, i) + [] == Of(l.got, i);
    CountHead(l.out, TQos2, i);
    CountHead(l.out, TPubrel, i);
    CountAppend(l.back, ps, TPubrec, i);
    CountAppend(l.back, ps, TPubcomp, i);
    hide Count;
  }

  /** `d` is the sender with its connection up again, after sending `pre` and the whole store. */
  lemma SenderUp(l: Lane, d: Conn, pre: seq<Packet>)
    requires Consistent(l.s) && l.s.status.Connecting? && Half(l)
    requires IsConnected(d) && d.ids == l.s.ids && d.session == l.s.session && Uninvolved(pre)
    ensures Half(l.(s := d, out := l.out + (pre + StoredPackets(l.s.session.store))))
  {
    var st := l.s.session.store;
    var ps := pre + StoredPackets(st);
    var m := l.(s := d, out := l.out + ps);
    forall i: nat ensures HalfAt(m, i) {
      assert HalfAt(l, i);
      StoredFor(l.s, pre, i);
      hide Consistent, Half;
      assert HalfAt(m, i) by {
        CountAppend(l.out, ps, TQos2, i);
        CountAppend(l.out, ps, TPubrel, i);
        if Count(l.out, TQos2, i) == 0 { CountZero(l.out, TQos2, i); }
        hide Of, Count, Find;
      }
    }
  }

  /** The one packet that the store and `pre` hold for an identifier, if it is in an exchange. */
  lemma StoredFor(c: Conn, pre: seq<Packet>, i: nat)
    requires Consistent(c) && Uninvolved(pre)
    ensures var ps, stored := pre + StoredPackets(c.session.store), Find(c.session.store, i);
      && Count(ps, TQos2, i) == (if i in c.ids.pubrec && stored.Some? then 1 else 0)
      && Count(ps, TPubrel, i) == (if i in c.ids.pubcomp && stored.Some? then 1 else 0)
      && (forall p :: p in ps && Is(p, TQos2, i) ==>
          stored.Some? && stored.value.StoredPublish? && p.pub == stored.value.pub)
  {
    hide Step;
    var st := c.session.store;
    StoredCounts(st, i);
    FindHas(st, i);
    if Find(st, i).Some? { assert Awaited(c.ids, Find(st, i).value); }
    UninvolvedCount(pre, i);
    CountAppend(pre, StoredPackets(st), TQos2, i);
    CountAppend(pre, StoredPackets(st), TPubrel, i);
    CountZero(pre, TQos2, i);
  }

  /** `d` is the sender with a new session, taken up when nothing was open. */
  lemma SenderAfresh(l: Lane, d: Conn)
    requires Half(l) && l.open == {} && d.ids == Ids({}, {}, {}, {}, {}, {})
    ensures Half(l.(s := d))
  {
    forall i: nat ensures HalfAt(l.(s := d), i) { assert HalfAt(l, i); }
  }

  /** A step of the sender that sends `ps` and takes at most one packet, none of them of an exchange. */
  lemma SenderShifts(l: Lane, d: Conn, linked: bool, ps: seq<Packet>, drop: bool)
    requires Half(l) && Uninvolved(ps) && Consistent(d) && SenderStays(l.s, d)
    requires forall i: nat :: Parked(l.s, d, i)
    requires drop ==> l.back != [] && !Involved(l.back[0])
    requires Lo(d, l.r) <= Lo(l.s, l.r)
    requires Hi(d, linked) >= Hi(l.s, l.linked) || (Uninvolved(l.out) && Uninvolved(l.back) && Lo(d, l.r) == 0)
    ensures Half(l.(s := d, linked := linked, out := l.out + ps, open := StillOpen(l.open, [], d),
                    back := if drop then l.back[1..] else l.back))
  {
    var m := l.(s := d, linked := linked, out := l.out + ps, open := StillOpen(l.open, [], d),
                back := if drop then l.back[1..] else l.back);
    forall i: nat ensures HalfAt(m, i) {
      assert HalfAt(l, i);
      assert Of([], i) == [];
      if InFlight(d.ids, i) { InUse(d, i); }
      assert Parked(l.s, d, i);
      if Uninvolved(l.out) && Uninvolved(l.back) {
        UninvolvedCount(l.out, i);
        UninvolvedCount(l.back, i);
      }
      hide Of, Consistent, Half;
      ShiftsAt(l, m, ps, drop, i);
    }
  }

  lemma ShiftsAt(l: Lane, m: Lane, ps: seq<Packet>, drop: bool, i: nat)
    requires HalfAt(l, i) && Uninvolved(ps) && SenderStays(l.s, m.s) && Parked(l.s, m.s, i)
    requires drop ==> l.back != [] && !Involved(l.back[0])
    requires Lo(m.s, l.r) <= Lo(l.s, l.r)
    requires var n := Count(l.out, TQos2, i) + Count(l.back, TPubrec, i) + Count(l.out, TPubrel, i) + Count(l.back,
        TPubcomp, i);
      Hi(m.s, m.linked) >= Hi(l.s, l.linked) || (n == 0 && Lo(m.s, l.r) == 0)
    requires m == l.(s := m.s, linked := m.linked, out := l.out + ps, open := m.open, back := if drop then l.back[1..]
        else l.back)
    requires (i in m.open <==> i in m.s.ids.used && i in l.open) && (InFlight(m.s.ids, i) ==> i in m.s.ids.used)
    ensures HalfAt(m, i)
  {
    hide Of, Find;
    UninvolvedCount(ps, i);
    CountAppend(l.out, ps, TQos2, i);
    CountAppend(l.out, ps, TPubrel, i);
    CountZero(ps, TQos2, i);
    if drop {
      CountHead(l.back, TPubrec, i);
      CountHead(l.back, TPubcomp, i);
    }
    hide Count;
  }

  /** A step of the receiver that answers nothing and takes no packet of an exchange. */
  lemma ReceiverShifts(l: Lane, d: Conn, ps: seq<Packet>, drop: bool)
    requires Half(l) && d.session.handled == l.r.session.handled
    requires forall i: nat :: Count(ps, TPubrec, i) == 0 && Count(ps, TPubcomp, i) == 0
    requires drop ==> l.out != [] && !Involved(l.out[0])
    requires Lo(l.s, d) <= Lo(l.s, l.r)
    ensures Half(l.(r := d, back := l.back + ps, out := if drop then l.out[1..] else l.out))
  {
    var m := l.(r := d, back := l.back + ps, out := if drop then l.out[1..] else l.out);
    forall i: nat ensures HalfAt(m, i) {
      assert HalfAt(l, i);
      hide Of;
      CountAppend(l.back, ps, TPubrec, i);
      CountAppend(l.back, ps, TPubcomp, i);
    }
  }

  /** A lane whose ends are not connected may be marked as linked or not, if nothing is under way. */
  lemma Relink(l: Lane, linked: bool)
    requires Half(l) && Uninvolved(l.out) && Uninvolved(l.back)
    ensures Half(l.(linked := linked))
  {
    var m := l.(linked := linked);
    forall i: nat ensures HalfAt(m, i) {
      assert HalfAt(l, i);
      UninvolvedCount(l.out, i);
      UninvolvedCount(l.back, i);
    }
  }

  /** The connection is cut: whatever was under way is lost. */
  lemma BothCut(l: Lane, d: Conn, q: Conn)
    requires Half(l) && d.status.Disconnected? && Consistent(d) && SenderStays(l.s, d)
    requires q.session.handled == l.r.session.handled && forall i: nat :: Parked(l.s, d, i)
    ensures Half(l.(s := d, r := q, out := [], back := [], open := StillOpen(l.open, [], d), linked := false))
  {
    var m := l.(s := d, r := q, out := [], back := [], open := StillOpen(l.open, [], d), linked := false);
    forall i: nat ensures HalfAt(m, i) {
      assert HalfAt(l, i);
      assert Of([], i) == [];
      if InFlight(d.ids, i) { InUse(d, i); }
      assert Parked(l.s, d, i);
      hide Of, Consistent;
    }
  }

  // ---------------------------------------------------------------- the whole network

  /** Client end `a`, server end `b`, the packets under way in both directions, and what was taken, handed
      over and is open for each end. */
  datatype Net = Net(
    a: Conn, b: Conn, ab: seq<Packet>, ba: seq<Packet>, sentA: seq<Publish>, gotB: seq<Publish>,
    sentB: seq<Publish>, gotA: seq<Publish>, openA: set<nat>, openB: set<nat>, linked: bool)

  /** `Open` sets up a network connection and sends CONNECT, which the server accepts or rejects; `Quit` sends
      DISCONNECT, `Cut` closes. */
  datatype Move =
    | HostA(op: Op) | HostB(op: Op)
    | Open(connect: Packet) | Accept(connack: Packet) | Reject(connack: Packet)
    | QuitA(disconnect: Packet) | QuitB(disconnect: Packet)
    | ToB | ToA
    | Cut(orderA: DrainOrder, orderB: DrainOrder)

  /** A host uses or gives back no identifier whose message it handed in and did not see finished. A CONNACK
      without session means that the session is gone; the client has nothing open then. */
  ghost predicate Enabled(n: Net, m: Move) {
    match m
    case HostA(op) => HostMove(n.a, op) && forall i :: i in n.openA ==> !Touches(op, i)
    case HostB(op) => HostMove(n.b, op) && forall i :: i in n.openB ==> !Touches(op, i)
    case Open(p) => !n.linked && Resumes(p) && Encodable(p)
    case Accept(p) => n.b.status.Connecting? && IsAccept(p) && Encodable(p)
    case Reject(p) => n.b.status.Connecting? && IsReject(p) && Encodable(p)
    case QuitA(p) => p.Disconnect? && Encodable(p)
    case QuitB(p) => p.Disconnect? && Encodable(p)
    case ToB => n.ab != []
    case ToA => n.ba != [] && (Lacks(n.ba[0]) ==> n.openA == {})
    case Cut(oa, ob) => DrainOk(n.a, oa) && DrainOk(n.b, ob)
  }

  /** Endpoint `a` makes a call; `ba` is what is left of the packets for it. */
  function StepA(n: Net, op: Op, ba: seq<Packet>): Net {
    var r := Step(n.a, op);
    n.(a := r.c, ab := n.ab + Sends(r.ev), ba := ba, sentA := n.sentA + Taken(n.a, op), gotA := n.gotA + Notices(r.ev),
       openA := StillOpen(n.openA, Taken(n.a, op), r.c))
  }

  function StepB(n: Net, op: Op, ab: seq<Packet>): Net {
    var r := Step(n.b, op);
    n.(b := r.c, ba := n.ba + Sends(r.ev), ab := ab, sentB := n.sentB + Taken(n.b, op), gotB := n.gotB + Notices(r.ev),
       openB := StillOpen(n.openB, Taken(n.b, op), r.c))
  }

  function Next(n: Net, m: Move): Net {
    match m
    case HostA(op) => StepA(n, op, n.ba)
    case HostB(op) => StepB(n, op, n.ab)
    case Open(p) => StepA(n, OpSend(V3_1_1, p), n.ba).(linked := true)
    case Accept(p) => StepB(n, OpSend(V3_1_1, p), n.ab)
    case Reject(p) => StepB(n, OpSend(V3_1_1, p), n.ab)
    case QuitA(p) => StepA(n, OpSend(V3_1_1, p), n.ba)
    case QuitB(p) => StepB(n, OpSend(V3_1_1, p), n.ab)
    case ToB => if n.ab == [] then n else StepB(n, Arrival(n.ab[0]), n.ab[1..])
    case ToA => if n.ba == [] then n else StepA(n, Arrival(n.ba[0]), n.ba[1..])
    case Cut(oa, ob) =>
      var a, b := Closed(n.a, oa).c, Closed(n.b, ob).c;
      n.(a := a, b := b, ab := [], ba := [], linked := false,
         openA := StillOpen(n.openA, [], a), openB := StillOpen(n.openB, [], b))
  }

  predicate IsHello(p: Packet) { p.Connect? && !p.clean && Size(V3_1_1, p) <= NO_SIZE_LIMIT }

  /** Handshake and channels go together. A disconnected end of a network connection has sent DISCONNECT or
      rejected the client. */
  ghost predicate Link(n: Net) {
    if !n.linked then n.a.status.Disconnected? && n.b.status.Disconnected? && n.ab == [] && n.ba == []
    else if n.a.status.Connecting? then
      if n.b.status.Connecting? then n.ab == [] && n.ba == []
      else
        || (n.b.status.Disconnected? && |n.ab| == 1 && IsHello(n.ab[0]) && n.ba == [])
        || (n.ab == [] && n.ba != [] && IsAccept(n.ba[0]) && AllClean(n.ba[1..]) && n.b.session.needStore)
        || (n.b.status.Disconnected? && n.ab == [] && (n.ba == [] || (|n.ba| == 1 && IsReject(n.ba[0]))))
    else
      !n.b.status.Connecting? && AllClean(n.ab) && AllClean(n.ba) && n.a.session.needStore && n.b.session.needStore
  }

  function LaneAB(n: Net): Lane { Lane(n.a, n.b, n.ab, n.ba, n.sentA, n.gotB, n.openA, n.linked) }

  function LaneBA(n: Net): Lane { Lane(n.b, n.a, n.ba, n.ab, n.sentB, n.gotA, n.openB, n.linked) }

  ghost predicate Inv(n: Net) {
    && Endpoint(n.a) && Endpoint(n.b) && Link(n)
    && !n.a.opt.role.Server? && !n.b.opt.role.Client?
    && Half(LaneAB(n)) && Half(LaneBA(n))
  }

  lemma HostAKeeps(n: Net, op: Op)
    requires Inv(n) && Enabled(n, HostA(op))
    ensures Inv(Next(n, HostA(op)))
  {
    hide HalfAt, Half, Step, HostMove, Sends, Notices;
    HostFacts(n.a, op);
    hide Consistent;
    SenderHost(LaneAB(n), op);
    ReceiverHost(LaneBA(n), op);
    var e := Step(n.a, op);
    assert LaneAB(StepA(n, op, n.ba)) == SenderActs(LaneAB(n), op);
    assert LaneBA(StepA(n, op, n.ba)) == ReceiverActs(LaneBA(n), op);
    if n.linked && n.a.status.Connecting? { assert n.ab + Sends(e.ev) == n.ab; }
  }

  lemma HostBKeeps(n: Net, op: Op)
    requires Inv(n) && Enabled(n, HostB(op))
    ensures Inv(Next(n, HostB(op)))
  {
    hide HalfAt, Half, Step, HostMove, Sends, Notices;
    HostFacts(n.b, op);
    hide Consistent;
    SenderHost(LaneBA(n), op);
    ReceiverHost(LaneAB(n), op);
    var e := Step(n.b, op);
    assert LaneBA(StepB(n, op, n.ab)) == SenderActs(LaneBA(n), op);
    assert LaneAB(StepB(n, op, n.ab)) == ReceiverActs(LaneAB(n), op);
    if n.ba != [] { assert (n.ba + Sends(e.ev))[1..] == n.ba[1..] + Sends(e.ev); }
    if !IsConnected(n.b) { assert n.ba + Sends(e.ev) == n.ba; }
  }

  /** A call that takes no message, hands none over and sends `ps`. */
  lemma Plainly(n: Net, op: Op, e: R, ps: seq<Packet>)
    requires Sends(e.ev) == ps && Notices(e.ev) == [] && !IsQos2Send(op)
    ensures n.sentA + Taken(n.a, op) == n.sentA && n.gotA + Notices(e.ev) == n.gotA && Taken(n.a, op) == []
    ensures n.sentB + Taken(n.b, op) == n.sentB && n.gotB + Notices(e.ev) == n.gotB && Taken(n.b, op) == []
    ensures n.ab + [] == n.ab && n.ba + [] == n.ba
  {
    hide Step;
  }

  predicate IsQos2Send(op: Op) { op.OpSend? && IsQos2(op.packet) }

  lemma NoAnswers(ps: seq<Packet>)
    requires Uninvolved(ps)
    ensures forall i: nat :: Count(ps, TPubrec, i) == 0 && Count(ps, TPubcomp, i) == 0
  {
    forall i: nat ensures Count(ps, TPubrec, i) == 0 && Count(ps, TPubcomp, i) == 0 { UninvolvedCount(ps, i); }
  }

  lemma OpenKeeps(n: Net, p: Packet)
    requires Inv(n) && Enabled(n, Open(p))
    ensures Inv(Next(n, Open(p)))
  {
    hide Half, HalfAt, Notices, Sends, Step;
    OpenFacts(n.a, p);
    hide Consistent, Half;
    var op := OpSend(V3_1_1, p);
    var e := Step(n.a, op);
    hide Step;
    Plainly(n, op, e, [p]);
    NoAnswers([p]);
    SenderShifts(LaneAB(n), e.c, true, [p], false);
    ReceiverShifts(LaneBA(n), e.c, [p], false);
    Relink(LaneBA(n).(r := e.c, back := n.ab + [p]), true);
    assert n.ab + [p] == [p];
    hide Taken, StillOpen;
    var m := Next(n, Open(p));
    assert LaneAB(m) == LaneAB(n).(s := e.c, linked := true, out := n.ab + [p], open := StillOpen(n.openA, [], e.c));
    assert LaneBA(m) == LaneBA(n).(r := e.c, back := n.ab + [p], linked := true);
  }

  lemma AcceptKeeps(n: Net, p: Packet)
    requires Inv(n) && Enabled(n, Accept(p))
    ensures Inv(Next(n, Accept(p)))
  {
    hide Half, HalfAt, Sends, Notices, Step, Consistent;
    AcceptFacts(n.b, p);
    StoreIsClean(n.b);
    var op := OpSend(V3_1_1, p);
    var e := Step(n.b, op);
    var st := n.b.session.store;
    var ps := [p] + StoredPackets(st);
    StoredAnswers(n.b, [p]);
    OpenInUse(LaneBA(n));
    Plainly(n, op, e, ps);
    SenderUp(LaneBA(n), e.c, [p]);
    ReceiverShifts(LaneAB(n), e.c, ps, false);
    assert n.ba + ps == ps && ps[1..] == StoredPackets(st);
    SameOpen(n.openB, e.c);
    hide Taken, StillOpen;
    var m := Next(n, Accept(p));
    assert LaneBA(m) == LaneBA(n).(s := e.c, out := n.ba + ps);
    assert LaneAB(m) == LaneAB(n).(r := e.c, back := n.ba + ps, out := n.ab);
  }

  lemma StoreIsClean(c: Conn)
    requires Consistent(c)
    ensures AllClean(StoredPackets(c.session.store))
  {
    StoredClean(c.ids, c.session.store);
  }

  /** Stored packets answer nothing. */
  lemma StoredAnswers(c: Conn, pre: seq<Packet>)
    requires Consistent(c) && Uninvolved(pre)
    ensures var ps := pre + StoredPackets(c.session.store);
      forall i: nat :: Count(ps, TPubrec, i) == 0 && Count(ps, TPubcomp, i) == 0
  {
    var st := c.session.store;
    forall i: nat ensures Count(pre + StoredPackets(st), TPubrec, i) == 0
        && Count(pre + StoredPackets(st), TPubcomp, i) == 0 {
      UninvolvedCount(pre, i);
      StoredCounts(st, i);
      CountAppend(pre, StoredPackets(st), TPubrec, i);
      CountAppend(pre, StoredPackets(st), TPubcomp, i);
    }
  }

  /** What is open is in use. */
  lemma OpenInUse(l: Lane)
    requires Half(l) && Consistent(l.s)
    ensures forall i: nat :: i in l.open ==> i in l.s.ids.used
  {
    forall i: nat | i in l.open ensures i in l.s.ids.used {
      assert HalfAt(l, i);
      if InFlight(l.s.ids, i) { InUse(l.s, i); }
    }
  }

  lemma SameOpen(open: set<nat>, d: Conn)
    requires forall i: nat :: i in open ==> i in d.ids.used
    ensures StillOpen(open, [], d) == open
  {
    assert forall i: nat :: Of([], i) == [];
  }

  lemma RejectKeeps(n: Net, p: Packet)
    requires Inv(n) && Enabled(n, Reject(p))
    ensures Inv(Next(n, Reject(p)))
  {
    hide Consistent, Half, HalfAt, Step, Sends, Notices;
    RejectFacts(n.b, p);
    var op := OpSend(V3_1_1, p);
    var e := Step(n.b, op);
    Plainly(n, op, e, [p]);
    NoAnswers([p]);
    SenderShifts(LaneBA(n), e.c, n.linked, [p], false);
    ReceiverShifts(LaneAB(n), e.c, [p], false);
    assert n.ba + [p] == [p];
    hide Taken, StillOpen;
    var m := Next(n, Reject(p));
    assert LaneBA(m) == LaneBA(n).(s := e.c, out := n.ba + [p], open := StillOpen(n.openB, [], e.c));
    assert LaneAB(m) == LaneAB(n).(r := e.c, back := n.ba + [p]);
  }

  /** The client end learns that it is rejected. */
  lemma RejectedKeeps(n: Net)
    requires Inv(n) && n.linked && n.a.status.Connecting? && n.ba != [] && IsReject(n.ba[0])
    ensures Inv(Next(n, ToA))
  {
    hide Consistent, Half, HalfAt, Step, Sends, Notices;
    var op := Arrival(n.ba[0]);
    RejectedFacts(n.a, n.ba[0]);
    var e := Step(n.a, op);
    Plainly(n, op, e, []);
    OpenInUse(LaneAB(n));
    Dropped(LaneAB(n));
    ReceiverShifts(LaneBA(n), n.a, [], true);
    SameOpen(n.openA, n.a);
    hide Taken, StillOpen;
    var m := Next(n, ToA);
    assert LaneAB(m) == LaneAB(n).(back := n.ba[1..]);
    assert LaneBA(m) == LaneBA(n).(r := n.a, back := n.ab + [], out := n.ba[1..]);
  }

  lemma QuitAKeeps(n: Net, p: Packet)
    requires Inv(n) && Enabled(n, QuitA(p))
    ensures Inv(Next(n, QuitA(p)))
  {
    hide Consistent, Half, HalfAt, Step, Sends, Notices;
    QuitFacts(n.a, p);
    var op := OpSend(V3_1_1, p);
    var e := Step(n.a, op);
    var ps := Sends(e.ev);
    Plainly(n, op, e, ps);
    NoAnswers(ps);
    SenderShifts(LaneAB(n), e.c, n.linked, ps, false);
    ReceiverShifts(LaneBA(n), e.c, ps, false);
    assert ps == [] ==> n.ab + ps == n.ab;
    hide Taken, StillOpen;
    var m := Next(n, QuitA(p));
    assert LaneAB(m) == LaneAB(n).(s := e.c, out := n.ab + ps, open := StillOpen(n.openA, [], e.c));
    assert LaneBA(m) == LaneBA(n).(r := e.c, back := n.ab + ps);
  }

  lemma QuitBKeeps(n: Net, p: Packet)
    requires Inv(n) && Enabled(n, QuitB(p))
    ensures Inv(Next(n, QuitB(p)))
  {
    hide Consistent, Half, HalfAt, Step, Sends, Notices;
    QuitFacts(n.b, p);
    var op := OpSend(V3_1_1, p);
    var e := Step(n.b, op);
    var ps := Sends(e.ev);
    Plainly(n, op, e, ps);
    NoAnswers(ps);
    SenderShifts(LaneBA(n), e.c, n.linked, ps, false);
    ReceiverShifts(LaneAB(n), e.c, ps, false);
    assert ps == [] ==> n.ba + ps == n.ba;
    if n.ba != [] { assert (n.ba + ps)[1..] == n.ba[1..] + ps; }
    hide Taken, StillOpen;
    var m := Next(n, QuitB(p));
    assert LaneBA(m) == LaneBA(n).(s := e.c, out := n.ba + ps, open := StillOpen(n.openB, [], e.c));
    assert LaneAB(m) == LaneAB(n).(r := e.c, back := n.ba + ps);
  }

  /** The server end takes up the CONNECT. */
  lemma WelcomeKeeps(n: Net)
    requires Inv(n) && n.linked && n.a.status.Connecting? && n.ab != []
    ensures Inv(Next(n, ToB))
  {
    hide Consistent, Half, HalfAt, Step, Sends, Notices;
    var op := Arrival(n.ab[0]);
    WelcomeFacts(n.b, n.ab[0]);
    var e := Step(n.b, op);
    Plainly(n, op, e, []);
    SenderShifts(LaneBA(n), e.c, true, [], true);
    ReceiverShifts(LaneAB(n), e.c, [], true);
    hide Taken, StillOpen;
    var m := Next(n, ToB);
    assert LaneBA(m) == LaneBA(n).(s := e.c, out := n.ba + [], back := n.ab[1..], open := StillOpen(n.openB, [], e.c));
    assert LaneAB(m) == LaneAB(n).(r := e.c, back := n.ba + [], out := n.ab[1..]);
  }

  lemma ToBKeeps(n: Net)
    requires Inv(n) && n.ab != []
    ensures Inv(Next(n, ToB))
  {
    hide Step;
    if n.a.status.Connecting? {
      WelcomeKeeps(n);
      hide Step, Half;
    } else {
      assert Inv(Next(n, ToB)) by {
        hide Consistent, Half, HalfAt, Step, ReceiveFacts, Sends;
        var op := Arrival(n.ab[0]);
        DeliveryFacts(n.b, n.ab[0]);
        var e := Step(n.b, op);
        SenderReceives(LaneBA(n));
        ReceiverReceives(LaneAB(n));
        DeliveryEnds(n.b, n.ab[0], e);
        var m := Next(n, ToB);
        assert LaneBA(m) == SenderTakes(LaneBA(n));
        assert LaneAB(m) == ReceiverTakes(LaneAB(n));
      }
      hide Step, Half, Inv;
    }
  }

  lemma DeliveryEnds(c: Conn, p: Packet, e: R)
    requires ReceiveFacts(c, p, e)
    ensures Endpoint(e.c) && e.c.status == c.status && e.c.opt.role == c.opt.role && AllClean(Sends(e.ev))
    ensures e.c.session.needStore == c.session.needStore
  {
  }

  /** The client end learns that its session is present and sends what it has stored. */
  lemma ResumeKeeps(n: Net)
    requires Inv(n) && n.linked && n.a.status.Connecting? && n.ba != [] && Brings(n.ba[0])
    ensures Inv(Next(n, ToA))
  {
    hide Half, HalfAt, Sends, Notices, Step, Consistent;
    var op := Arrival(n.ba[0]);
    AcceptedFacts(n.a, n.ba[0]);
    StoreIsClean(n.a);
    StoredAnswers(n.a, []);
    OpenInUse(LaneAB(n));
    var e := Step(n.a, op);
    var ps := StoredPackets(n.a.session.store);
    assert [] + ps == ps && n.ab + ps == ps;
    Plainly(n, op, e, ps);
    SenderUp(LaneAB(n), e.c, []);
    var up := LaneAB(n).(s := e.c, out := n.ab + ps);
    Dropped(up);
    ReceiverShifts(LaneBA(n), e.c, ps, true);
    SameOpen(n.openA, e.c);
    hide Taken, StillOpen;
    var m := Next(n, ToA);
    assert LaneAB(m) == up.(back := n.ba[1..]);
    assert LaneBA(m) == LaneBA(n).(r := e.c, back := n.ab + ps, out := n.ba[1..]);
  }

  /** A packet of no exchange is taken from the channel to the sender. */
  lemma Dropped(l: Lane)
    requires Half(l) && l.back != [] && !Involved(l.back[0])
    ensures Half(l.(back := l.back[1..]))
  {
    var m := l.(back := l.back[1..]);
    forall i: nat ensures HalfAt(m, i) { assert HalfAt(l, i); }
  }

  /** The client end learns that there is no session, and has nothing open. */
  lemma AfreshKeeps(n: Net)
    requires Inv(n) && n.linked && n.a.status.Connecting? && n.ba != [] && Lacks(n.ba[0])
    requires n.openA == {}
    ensures Inv(Next(n, ToA))
  {
    hide Step;
    var op := Arrival(n.ba[0]);
    AfreshFacts(n.a, n.ba[0]);
    var e := Step(n.a, op);
    hide Consistent, Half, Step;
    Plainly(n, op, e, []);
    SenderAfresh(LaneAB(n), e.c);
    Dropped(LaneAB(n).(s := e.c));
    ReceiverShifts(LaneBA(n), e.c, [], true);
    SameOpen(n.openA, e.c);
    hide Taken, StillOpen;
    var m := Next(n, ToA);
    assert LaneAB(m) == LaneAB(n).(s := e.c, back := n.ba[1..]);
    assert LaneBA(m) == LaneBA(n).(r := e.c, back := n.ab + [], out := n.ba[1..]);
  }

  lemma ToAKeeps(n: Net)
    requires Inv(n) && Enabled(n, ToA)
    ensures Inv(Next(n, ToA))
  {
    hide Step;
    if n.a.status.Connecting? {
      if IsReject(n.ba[0]) { RejectedKeeps(n); }
      else if n.ba[0].sessionPresent { ResumeKeeps(n); }
      else { AfreshKeeps(n); }
      hide Step, Half;
    } else {
      assert Inv(Next(n, ToA)) by {
        hide Consistent, Half, HalfAt, Step, ReceiveFacts, Sends;
        var op := Arrival(n.ba[0]);
        DeliveryFacts(n.a, n.ba[0]);
        var e := Step(n.a, op);
        SenderReceives(LaneAB(n));
        ReceiverReceives(LaneBA(n));
        DeliveryEnds(n.a, n.ba[0], e);
        var m := Next(n, ToA);
        assert LaneAB(m) == SenderTakes(LaneAB(n));
        assert LaneBA(m) == ReceiverTakes(LaneBA(n));
      }
      hide Step, Half, Inv;
    }
  }

  lemma CutKeeps(n: Net, oa: DrainOrder, ob: DrainOrder)
    requires Inv(n) && Enabled(n, Cut(oa, ob))
    ensures Inv(Next(n, Cut(oa, ob)))
  {
    hide Closed, Consistent, Half, HalfAt, Step;
    ClosedFacts(n.a, oa);
    ClosedFacts(n.b, ob);
    BothCut(LaneAB(n), Closed(n.a, oa).c, Closed(n.b, ob).c);
    BothCut(LaneBA(n), Closed(n.b, ob).c, Closed(n.a, oa).c);
  }

  lemma NextKeeps(n: Net, m: Move)
    requires Inv(n) && Enabled(n, m)
    ensures Inv(Next(n, m))
  {
    hide Next, Inv;
    match m
    case HostA(op) => HostAKeeps(n, op);
    case HostB(op) => HostBKeeps(n, op);
    case Open(p) => OpenKeeps(n, p);
    case Accept(p) => AcceptKeeps(n, p);
    case Reject(p) => RejectKeeps(n, p);
    case QuitA(p) => QuitAKeeps(n, p);
    case QuitB(p) => QuitBKeeps(n, p);
    case ToB => ToBKeeps(n);
    case ToA => ToAKeeps(n);
    case Cut(oa, ob) => CutKeeps(n, oa, ob);
  }

  // ---------------------------------------------------------------- the theorem

  /** Two endpoints that have never been connected, with automatic responses switched on. */
  predicate Start(n: Net) {
    && !n.a.opt.role.Server? && !n.b.opt.role.Client? && !n.linked && n.openA == {} && n.openB == {}
    && n.a == Step(New(n.a.opt.role, V3_1_1), OpAutoPub(true)).c
    && n.b == Step(New(n.b.opt.role, V3_1_1), OpAutoPub(true)).c
    && n.ab == [] && n.ba == [] && n.sentA == [] && n.gotB == [] && n.sentB == [] && n.gotA == []
  }

  /** `ns` is a run: every network follows from the one before by an enabled move. */
  ghost predicate Run(ns: seq<Net>, ms: seq<Move>) {
    && |ns| == |ms| + 1 && Start(ns[0])
    && forall k :: 0 <= k < |ms| ==> Enabled(ns[k], ms[k]) && ns[k + 1] == Next(ns[k], ms[k])
  }

  lemma StartInv(n: Net)
    requires Start(n)
    ensures Inv(n)
  {
  }

  lemma {:induction false} RunInv(ns: seq<Net>, ms: seq<Move>, k: nat)
    requires Run(ns, ms) && k < |ns|
    ensures Inv(ns[k])
  {
    hide Step;
    if k > 0 {
      RunInv(ns, ms, k - 1);
      hide Enabled, Next, Inv, Start;
      NextKeeps(ns[k - 1], ms[k - 1]);
    } else {
      StartInv(ns[0]);
    }
  }

  /** The receiver was handed everything the sender took under `i`, in order and without repetition,
      except perhaps the last message while its identifier is still in use. */
  predicate DeliveredOnce(s: Conn, sent: seq<Publish>, got: seq<Publish>, i: nat) {
    || got == sent
    || (sent != [] && got == sent[..|sent| - 1] && i in s.ids.used)
  }

  lemma HalfDelivered(l: Lane, i: nat)
    requires Consistent(l.s) && Half(l)
    ensures DeliveredOnce(l.s, Of(l.sent, i), Of(l.got, i), i)
  {
    assert HalfAt(l, i);
    if InFlight(l.s.ids, i) { InUse(l.s, i); }
  }

  /** At every moment of every run and for every identifier, in both directions. In particular an
      identifier that is free at the sender has had all its messages delivered exactly once. */
  lemma ExactlyOnceDelivery(ns: seq<Net>, ms: seq<Move>, k: nat, i: nat)
    requires Run(ns, ms) && k < |ns|
    ensures DeliveredOnce(ns[k].a, Of(ns[k].sentA, i), Of(ns[k].gotB, i), i)
    ensures DeliveredOnce(ns[k].b, Of(ns[k].sentB, i), Of(ns[k].gotA, i), i)
    ensures !ns[k].a.panicked && !ns[k].b.panicked
  {
    hide Step;
    RunInv(ns, ms, k);
    hide Run;
    HalfDelivered(LaneAB(ns[k]), i);
    HalfDelivered(LaneBA(ns[k]), i);
  }

  // ---------------------------------------------------------------- where a message or an identifier is lost

  /** A publish exchange under this identifier is open. */
  predicate Exchanged(i: Ids, id: nat) { id in i.puback || id in i.pubrec || id in i.pubcomp }

  /** A QoS 1 or 2 exchange that is open while connecting, at whatever stage, is given up exactly if the CONNACK
      brings no session: then it is neither awaited nor stored, and its identifier is free without a report. */
  lemma LostWithoutSession(c: Conn, p: Packet, i: nat)
    requires Endpoint(c) && c.status.Connecting? && IsAccept(p) && !c.opt.role.Server? && Exchanged(c.ids, i)
    ensures var r := Step(c, Arrival(p));
      && (!Exchanged(r.c.ids, i) && !Has(r.c.session.store, i) && i !in r.c.ids.used <==> !p.sessionPresent)
      && (!p.sessionPresent ==> r.ev == [NotifyPacketReceived(p)])
  {
    InUse(c, i);
    if p.sessionPresent { AcceptedFacts(c, p); } else { AfreshFacts(c, p); }
    hide Emits, Consistent;
  }

  /** An expected PUBREC abandons its identifier exactly if the connection is down or not yet up, as it is
      between the host's DISCONNECT and the close. */
  lemma AbandonedIff(c: Conn, p: Packet)
    requires Endpoint(c) && p.Pubrec? && p.pid != 0 && p.pid in c.ids.pubrec
    ensures Abandoned(ReceivePubrec(c, p).c, p.pid) <==> !IsConnected(c)
  {
    if IsConnected(c) { PubrecFacts(c, p); }
    InUse(c, p.pid);
    var r := ReceivePubrec(c, p);
    AckKeeps(c, c.ids.(pubrec := c.ids.pubrec - {p.pid}), Response(V3_1_1, AwaitPubrec), p.pid);
    assert !IsConnected(c) ==> r.c.session.store == Erase(c.session.store, Response(V3_1_1, AwaitPubrec), p.pid);
    hide Erase, Has, Consistent, ReceivePubrec;
  }

  // ---------------------------------------------------------------- a first connection

  const HELLO: Packet := Connect(false, 0, [], 12)

  const ACK: Packet := Connack(true, false, [], 2)

  const FIRST: seq<Move> := [Open(HELLO), ToB, Accept(ACK), ToA]

  /** Two endpoints that were never connected: the client keeps its session, the server has none to offer. */
  function Strangers(): Net {
    Net(Step(New(Client, V3_1_1), OpAutoPub(true)).c, Step(New(Server, V3_1_1), OpAutoPub(true)).c,
        [], [], [], [], [], [], {}, {}, false)
  }

  /** The first handshake, with session present 0 as section 3.2.2.2 of MQTT 3.1.1 asks, is a run of this
      system and leaves both ends connected. */
  lemma FirstConnection() returns (ns: seq<Net>)
    ensures Run(ns, FIRST) && ns[|FIRST|] == ns[|ns| - 1] && IsConnected(ns[|FIRST|].a) && IsConnected(ns[|FIRST|].b)
  {
    hide Step, Consistent, Sends, Notices, Start;
    var n0 := Strangers();
    StrangersStart();
    OpenFacts(n0.a, HELLO);
    var n1 := Next(n0, Open(HELLO));
    WelcomeFacts(n1.b, HELLO);
    var n2 := Next(n1, ToB);
    AcceptFacts(n2.b, ACK);
    var n3 := Next(n2, Accept(ACK));
    AfreshFacts(n3.a, ACK);
    var n4 := Next(n3, ToA);
    ns := [n0, n1, n2, n3, n4];
    assert Next(n0, Open(HELLO)).openA == {} by {
      hide Step;
      assert forall i: nat :: Of([], i) == [];
    }
  }

  lemma StrangersStart()
    ensures var n := Strangers();
      && Start(n) && Endpoint(n.a) && Endpoint(n.b) && n.a.status.Disconnected? && n.b.status.Disconnected?
      && n.a.opt.role.Client? && n.b.opt.role.Server?
  {
  }
}
