/** The QoS 2 duplicate filter, in both versions and against any peer: a message identifier is handed to
    the host again only after something that ends the exchange. */
module Duplicates {
  import opened Packets
  import opened TopicAlias
  import opened Store
  import opened Engine
  import opened Frames
  import opened Receptions
  import opened Settings
  import opened Sendings

  /** `e` hands a QoS 2 message with this identifier to the host. */
  predicate Tells(e: Event, id: nat) {
    e.NotifyPacketReceived? && e.packet.PublishPacket? && e.packet.pub.qos.ExactlyOnce? && e.packet.pub.pid == id
  }

  ghost predicate NoPub(ev: seq<Event>) { forall k, id: nat :: 0 <= k < |ev| ==> !Tells(ev[k], id) }

  /** The outcome of a received QoS 2 PUBLISH with identifier `id`: it is handed over, once and last, only
      if the filter did not hold it; afterwards the filter holds it unless the call gave up before. */
  ghost predicate Filtered(c: Conn, id: nat, r: R) {
    || (NoPub(r.ev) && c.session.handled <= r.c.session.handled)
    || (id !in c.session.handled && r.c.session.handled == c.session.handled + {id} && TellsLast(r.ev, id))
  }

  ghost predicate TellsLast(ev: seq<Event>, id: nat) {
    ev != [] && Tells(ev[|ev| - 1], id) && NoPub(ev[..|ev| - 1])
  }

  // ---------------------------------------------------------------- what is told

  lemma {:induction false} HandedHas(ev: seq<Event>, k: nat)
    requires k < |ev| && ev[k].NotifyPacketReceived?
    ensures ev[k].packet in Handed(ev)
  {
    if k > 0 { HandedHas(ev[1..], k - 1); }
  }

  lemma NoneTold(ev: seq<Event>)
    requires forall p :: p in Handed(ev) ==> !(p.PublishPacket? && p.pub.qos.ExactlyOnce?)
    ensures NoPub(ev)
  {
    forall k, id: nat | 0 <= k < |ev| ensures !Tells(ev[k], id) {
      if ev[k].NotifyPacketReceived? { HandedHas(ev, k); }
    }
  }

  predicate HandsLast(ev: seq<Event>) { ev != [] && ev[|ev| - 1].NotifyPacketReceived? }

  lemma ToldLast(ev: seq<Event>, p: Publish)
    requires Handed(ev) == [PublishPacket(p)] && p.qos.ExactlyOnce? && HandsLast(ev)
    ensures TellsLast(ev, p.pid)
  {
    var front, last := ev[..|ev| - 1], ev[|ev| - 1];
    assert ev == front + [last];
    HandedAppend(front, [last]);
    assert [last][1..] == [] && Handed([last]) == [last.packet];
    assert |Handed(front)| == 0 && (Handed(front) + [last.packet])[0] == PublishPacket(p);
    NoneTold(front);
  }

  lemma AcceptEnds(c: Conn, p: Publish, respond: bool)
    ensures HandsLast(AcceptPublish(c, p, respond, false).ev)
  {
    hide Respond;
  }

  lemma TopicEnds(c: Conn, p: Publish, respond: bool)
    requires Understood(c, p)
    ensures HandsLast(ReceiveTopic(c, p, respond, false).ev)
  {
    hide AcceptPublish, RecvGet, HandsLast;
    AcceptEnds(c, p, respond);
    if p.alias.Some? {
      var m := c.alias.recv.value;
      var t := RecvGet(m, p.alias.value);
      if t.Some? { AcceptEnds(c, p.(topic := t.value, extracted := true), respond); }
      AcceptEnds(c.(alias := c.alias.(recv := Some(m.(aliases := m.aliases[p.alias.value := p.topic])))), p, respond);
    }
  }

  lemma PublishEnds(c: Conn, p: Publish)
    requires p.qos.ExactlyOnce? && Complaint(c, PublishPacket(p)).None? && !Duplicate(c, PublishPacket(p))
    ensures HandsLast(ReceivePacket(c, PublishPacket(p)).ev)
  {
    hide ReceiveTopic, Respond;
    var c1 := c.(flow := c.flow.(publishRecv := c.flow.publishRecv + {p.pid}));
    var c2 := c1.(session := c1.session.(handled := c1.session.handled + {p.pid}));
    if IsV5(c) { TopicEnds(c2, p, IsConnected(c) && c.opt.autoPub); }
  }

  // ---------------------------------------------------------------- one call

  /** What lets an identifier through again. */
  predicate Resets(c: Conn, op: Op, id: nat) {
    match op
    case OpReceive(Good(Pubrel(i, _, _), _, _)) => i == id
    case OpSend(V5_0, Pubrec(i, rc, _)) => i == id && IsFailure(rc)
    case OpClosed(_) => !c.session.needStore
    case OpRestoreHandled(_) => true
    case _ => false
  }

  /** The call receives a QoS 2 PUBLISH with this identifier. */
  predicate Brings(op: Op, id: nat) {
    op.OpReceive? && op.frame.Good? && op.frame.packet.PublishPacket? && op.frame.packet.pub.qos.ExactlyOnce?
        && op.frame.packet.pub.pid == id
  }

  /** A call hands an identifier over at most once, last of all, and only if the filter did not hold it and
      holds it from then on; and the filter forgets an identifier only by a reset. */
  ghost predicate StepFilters(c: Conn, op: Op, r: R) {
    && (NoPub(r.ev) || exists id: nat :: Brings(op, id) && Filtered(c, id, r))
    && forall id: nat :: id in c.session.handled && id !in r.c.session.handled ==> Resets(c, op, id)
  }

  lemma Forgets(c: Conn, op: Op)
    ensures forall id: nat :: id in c.session.handled && id !in Step(c, op).c.session.handled ==> Resets(c, op, id)
  {
    hide Step;
    forall id: nat | id in c.session.handled && id !in Step(c, op).c.session.handled ensures Resets(c, op, id) {
      FilterIff(c, op, id);
    }
  }

  /** Nothing is told that concerns the filter. */
  lemma Untold(c: Conn, op: Op)
    requires forall p :: p in Handed(Step(c, op).ev) ==> !(p.PublishPacket? && p.pub.qos.ExactlyOnce?)
    ensures StepFilters(c, op, Step(c, op))
  {
    hide Step, Handed;
    NoneTold(Step(c, op).ev);
    Forgets(c, op);
  }

  lemma MessageFilters(c: Conn, f: Frame)
    requires f.Good? && f.packet.PublishPacket? && f.packet.pub.qos.ExactlyOnce? && Welcome(c, f)
    ensures StepFilters(c, OpReceive(f), Step(c, OpReceive(f)))
  {
    var p, d := f.packet.pub, Speaking(c, f);
    assert Step(c, OpReceive(f)).ev == ReceivePacket(d, f.packet).ev by { hide ReceivePacket; }
    hide Step, ReceivePacket, HandsLast, NoPub, TellsLast;
    HandedOver(c, f);
    PublishEnds(d, p);
    ToldLast(Step(c, OpReceive(f)).ev, AsSeen(d, f.packet).pub);
    StepTerms(c, OpReceive(f));
    ReceivingMemory(d, f.packet);
    Forgets(c, OpReceive(f));
    hide AfterReceiving, Resets, Handed;
    assert Brings(OpReceive(f), p.pid) && Filtered(c, p.pid, Step(c, OpReceive(f)));
  }

  lemma ReceiveFilters(c: Conn, f: Frame)
    ensures StepFilters(c, OpReceive(f), Step(c, OpReceive(f)))
  {
    hide Step, StepFilters, Visible;
    var ev := Step(c, OpReceive(f)).ev;
    if !(f.Good? && Arrives(c, f)) {
      UnreadShows(c, f);
      NothingHanded(Visible(ev));
      HandedVisible(ev);
      Untold(c, OpReceive(f));
    } else {
      HandedOver(c, f);
      if f.packet.PublishPacket? && f.packet.pub.qos.ExactlyOnce? && Welcome(c, f) {
        MessageFilters(c, f);
      } else {
        hide Complaint, Duplicate;
        Untold(c, OpReceive(f));
      }
    }
  }

  lemma OutgoingHands(c: Conn, p: Packet)
    ensures Handed(Outgoing(c, p)) == []
  {
    hide Barred, Sendable, BadAlias, OnWire, Handed;
    if p.Connack? {
      WatchingHands(p.props);
      ResentHandsNothing(Sendable(c, c.session.store));
    }
    NothingHanded(Outgoing(c, p));
  }

  lemma {:induction false} WatchingHands(props: seq<Prop>)
    ensures forall k :: 0 <= k < |Watching(props)| ==> !Watching(props)[k].NotifyPacketReceived?
  {
    if props != [] { WatchingHands(props[1..]); }
  }

  lemma SendFilters(c: Conn, v: Version, p: Packet)
    ensures StepFilters(c, OpSend(v, p), Step(c, OpSend(v, p)))
  {
    hide Step, Outgoing, StepFilters;
    var ev := Step(c, OpSend(v, p)).ev;
    SendingShows(c, v, p);
    OutgoingHands(c, p);
    HandedVisible(ev);
    NothingHanded(Refusal(VersionMismatch));
    NothingHanded(Refusal(PacketNotAllowedToSend));
    Untold(c, OpSend(v, p));
  }

  lemma TimerFilters(c: Conn, k: TimerKind)
    ensures StepFilters(c, OpTimer(k), Step(c, OpTimer(k)))
  {
    hide Outgoing, StepFilters, Visible;
    var ev := Step(c, OpTimer(k)).ev;
    if c.version != Undetermined {
      ExpiryShows(c, k);
      OutgoingHands(c, Pingreq);
      HandedVisible(ev);
      NothingHanded([RequestClose]);
      NothingHanded(Refusal(PacketTooLarge));
      NothingHanded([RequestSendPacket(Disconnect(Some(KeepAliveTimeout), 1), None), RequestClose]);
    }
    Untold(c, OpTimer(k));
    hide Step;
  }

  lemma {:induction false} DrainTells(c: Conn, ids: seq<nat>)
    ensures NoPub(Drain(c, ids).ev)
    decreases |ids|
  {
    if ids != [] { DrainTells(Release(c, ids[0]).c, ids[1..]); }
  }

  lemma DropTells(c: Conn, o: DrainOrder)
    ensures NoPub(DropPublishes(c, o).ev)
  {
    hide Drain;
    var c1 := c.(session := c.session.(handled := {}), ids := c.ids.(puback := {}));
    DrainTells(c1, o.ack);
    var c2 := Drain(c1, o.ack).c;
    DrainTells(c2.(ids := c2.ids.(pubrec := {})), o.rec);
    var c3 := Drain(c2.(ids := c2.ids.(pubrec := {})), o.rec).c;
    DrainTells(c3.(ids := c3.ids.(pubcomp := {})), o.comp);
  }

  lemma ClosedTells(c: Conn, o: DrainOrder)
    ensures NoPub(Closed(c, o).ev)
  {
    hide Drain, DropPublishes;
    var c1 := c.(flow := c.flow.(maxSend := NO_SIZE_LIMIT, maxRecv := NO_SIZE_LIMIT), status := Disconnected,
                 alias := c.alias.(send := None, recv := None));
    DrainTells(c1.(ids := c1.ids.(suback := {})), o.sub);
    var c2 := Drain(c1.(ids := c1.ids.(suback := {})), o.sub).c;
    DrainTells(c2.(ids := c2.ids.(unsuback := {})), o.unsub);
    var c3 := Drain(c2.(ids := c2.ids.(unsuback := {})), o.unsub).c;
    DropTells(c3, o);
  }

  /** Every call obeys the filter. */
  lemma StepFiltered(c: Conn, op: Op)
    ensures StepFilters(c, op, Step(c, op))
  {
    hide Send, Receive, TimerFired, Closed, RestorePackets, LeastFree;
    match op
    case OpSend(v, p) => SendFilters(c, v, p); hide Step, StepFilters;
    case OpReceive(f) => ReceiveFilters(c, f); hide Step, StepFilters;
    case OpTimer(k) => TimerFilters(c, k); hide Step, StepFilters;
    case OpClosed(o) => ClosedTells(c, o); Forgets(c, op);
    case _ => Forgets(c, op);
  }

  // ---------------------------------------------------------------- whole runs

  function StateAt(c: Conn, ops: seq<Op>, n: nat): Conn
    requires n <= |ops|
  {
    if n == 0 then c else Step(StateAt(c, ops, n - 1), ops[n - 1]).c
  }

  function EventsAt(c: Conn, ops: seq<Op>, n: nat): seq<Event>
    requires n < |ops|
  {
    Step(StateAt(c, ops, n), ops[n]).ev
  }

  ghost predicate ResetAt(c: Conn, ops: seq<Op>, m: nat, id: nat) {
    m < |ops| && Resets(StateAt(c, ops, m), ops[m], id)
  }

  /** An identifier leaves the filter only by a reset. */
  lemma {:induction false} Forgotten(c: Conn, ops: seq<Op>, a: nat, b: nat, id: nat) returns (m: nat)
    requires a <= b <= |ops|
    requires id in StateAt(c, ops, a).session.handled && id !in StateAt(c, ops, b).session.handled
    ensures a <= m < b && ResetAt(c, ops, m, id)
    decreases b
  {
    hide Step, NoPub, Filtered;
    var before := StateAt(c, ops, b - 1);
    StepFiltered(before, ops[b - 1]);
    if id in before.session.handled { m := b - 1; } else { m := Forgotten(c, ops, a, b - 1, id); }
  }

  lemma ToldMeans(c: Conn, op: Op, r: R, k: nat, id: nat)
    requires StepFilters(c, op, r) && k < |r.ev| && Tells(r.ev[k], id)
    ensures Brings(op, id) && id !in c.session.handled && id in r.c.session.handled && k == |r.ev| - 1
  {
    var i: nat :| Brings(op, i) && Filtered(c, i, r);
    var front := if r.ev == [] then [] else r.ev[..|r.ev| - 1];
    assert forall j :: 0 <= j < |front| ==> front[j] == r.ev[j];
  }

  /** Two times the same QoS 2 identifier is handed to the host, whatever the peer does and whichever
      version is spoken, something in between ended the exchange: a received PUBREL, a failing PUBREC, a
      close without a stored session, or a restored filter. */
  lemma Separated(c: Conn, ops: seq<Op>, i: nat, k: nat, j: nat, l: nat, id: nat)
    requires i <= j < |ops| && (i < j || k < l)
    requires k < |EventsAt(c, ops, i)| && Tells(EventsAt(c, ops, i)[k], id)
    requires l < |EventsAt(c, ops, j)| && Tells(EventsAt(c, ops, j)[l], id)
    ensures i < j && exists m: nat :: i < m < j && ResetAt(c, ops, m, id)
  {
    hide Step, StepFilters, ResetAt;
    var s, t := StateAt(c, ops, i), StateAt(c, ops, j);
    StepFiltered(s, ops[i]);
    StepFiltered(t, ops[j]);
    ToldMeans(s, ops[i], Step(s, ops[i]), k, id);
    ToldMeans(t, ops[j], Step(t, ops[j]), l, id);
    assert StateAt(c, ops, i + 1) == Step(s, ops[i]).c;
    var m := Forgotten(c, ops, i + 1, j, id);
  }
}
