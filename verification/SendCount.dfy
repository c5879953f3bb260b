/** What the send count of a v5.0 connection counts in every run, reconnections included: the exchanges begun
    under the quota since the last CONNECT and not acknowledged, less the resent ones that were acknowledged. It
    underflows exactly when the acknowledgements of resent messages, which were never counted, have used it up. */
module SendCount {
  import opened Packets
  import opened Store
  import opened Engine
  import opened Laws
  import opened Frames
  import Runs

  /** A CONNECT is sent or taken up, which starts the count afresh. */
  predicate Restarts(c: Conn, op: Op) {
    match op
    case OpSend(v, p) => v.V5_0? && RoleMaySend(c.opt.role, v, p) && p.Connect? && c.status.Disconnected?
        && !TooLarge(c, p)
    case OpReceive(f) => f.Good? && f.packet.Connect? && Arrives(c, f) && c.status.Disconnected?
    case _ => false
  }

  /** A QoS 1 or 2 PUBLISH takes a slot. */
  predicate Begins(c: Conn, op: Op) {
    && op.OpSend? && op.version.V5_0? && op.packet.PublishPacket? && c.flow.sendMax.Some?
    && var p := op.packet.pub;
      !p.qos.AtMostOnce? && Admitted(c, p) && !Unresolved(c, p) && !TurnedAway(c, p)
  }

  /** An expected acknowledgement that ends an exchange of publishing. */
  predicate Expected(c: Conn, p: Packet) {
    match p
    case Puback(id, _, _) => id in c.ids.puback
    case Pubcomp(id, _, _) => id in c.ids.pubcomp
    case Pubrec(id, rc, _) => id in c.ids.pubrec && rc.Some? && rc.value != 0
    case _ => false
  }

  /** Such an acknowledgement gives a slot back. */
  predicate Ends(c: Conn, op: Op) {
    op.OpReceive? && op.frame.Good? && Arrives(c, op.frame) && Expected(c, op.frame.packet) && c.flow.sendMax.Some?
  }

  /** The 16-bit count has no room for the change. */
  predicate Underflows(c: Conn, op: Op) { Ends(c, op) && c.flow.sendCount == 0 }

  predicate Overflows(c: Conn, op: Op) { Begins(c, op) && c.flow.sendCount == 0xFFFF }

  function CountAfter(c: Conn, op: Op): nat {
    if Restarts(c, op) then 0
    else if Begins(c, op) then OneMore(c)
    else if Ends(c, op) && c.flow.sendCount > 0 then c.flow.sendCount - 1
    else c.flow.sendCount
  }

  // ---------------------------------------------------------------- one call

  lemma SendCounts(c: Conn, v: Version, p: Packet)
    requires IsV5(c)
    ensures Send(c, v, p).c.flow.sendCount == CountAfter(c, OpSend(v, p))
  {
    hide Greeting, ApplySentProps, SendStored, SendPublishV5, SendPubrel, SendRequest, TooLarge, BadAlias, QuotaFull;
    match p
    case Connect(_, _, _, _) => GreetMoves(c, p);
    case Connack(_, _, _, _) =>
      SentPropsMove(c, p.props, false);
      SendStoredMoves(ApplySentProps(c, p.props, false).c.(status := Connected));
    case PublishPacket(pub) => if pub.qos.AtMostOnce? { QuietlySent(c, pub); } else { PublishPasses(c, pub); }
    case Pubrel(_, _, _) => PubrelMoves(c, p);
    case Subscribe(_, _) => RequestMoves(c, p);
    case Unsubscribe(_, _) => RequestMoves(c, p);
    case _ => DispatchCalm(c, p); hide Dispatch;
  }

  lemma PacketCounts(c: Conn, p: Packet)
    requires IsV5(c)
    ensures ReceivePacket(c, p).c.flow.sendCount ==
      if p.Connect? && c.status.Disconnected? then 0
      else if Expected(c, p) && c.flow.sendMax.Some? && c.flow.sendCount > 0 then c.flow.sendCount - 1
      else c.flow.sendCount
  {
    hide Welcomed, Informed, ApplyReceivedProps, SendStored, Erase, Finish, SendPubrel, Fail;
    FailCalm(c, ProtocolError);
    match p
    case Connect(_, _, _, _) => GreetMoves(c, p);
    case Connack(_, _, _, _) =>
      ReceivedPropsMove(c.(status := Connected), p.props, false);
      SendStoredMoves(ApplyReceivedProps(c.(status := Connected), p.props, false).c);
    case Puback(_, _, _) => AckCounts(c, p, AwaitPuback, c.ids.(puback := c.ids.puback - {p.pid}));
    case Pubcomp(_, _, _) => AckCounts(c, p, AwaitPubcomp, c.ids.(pubcomp := c.ids.pubcomp - {p.pid}));
    case Pubrec(_, _, _) => AckCounts(c, p, AwaitPubrec, c.ids.(pubrec := c.ids.pubrec - {p.pid}));
    case Suback(id, _) => FinishMoves(c.(ids := c.ids.(suback := c.ids.suback - {id})), id, p, false);
    case Unsuback(id, _) => FinishMoves(c.(ids := c.ids.(unsuback := c.ids.unsuback - {id})), id, p, false);
    case _ => ReceiveCalm(c, p); hide ReceivePacket;
  }

  lemma AckCounts(c: Conn, p: Packet, k: ResponseKind, ids: Ids)
    requires IsV5(c) && (p.Puback? || p.Pubcomp? || p.Pubrec?)
    ensures var c1 := c.(ids := ids, session :=
        c.session.(store := Erase(c.session.store, Response(c.version, k), p.pid)));
      && Finish(c1, p.pid, p, true).c.flow.sendCount == LessOne(c, true)
      && SendPubrel(c1, Pubrel(p.pid, None, 2)).c.flow == c.flow
  {
    hide Erase, Finish, SendPubrel;
    var c1 := c.(ids := ids, session := c.session.(store := Erase(c.session.store, Response(c.version, k), p.pid)));
    FinishMoves(c1, p.pid, p, true);
    PubrelMoves(c1, Pubrel(p.pid, None, 2));
  }

  lemma ReceiveCounts(c: Conn, f: Frame)
    requires IsV5(c)
    ensures Receive(c, f).c.flow.sendCount == CountAfter(c, OpReceive(f))
  {
    hide ReceivePacket;
    if f.Good? && Arrives(c, f) {
      PacketCounts(c, f.packet);
      assert Receive(c, f) == ReceivePacket(c, f.packet);
    } else {
      UnreadCalm(c, f);
      hide Receive;
    }
  }

  lemma StepCount(c: Conn, op: Op)
    requires IsV5(c)
    ensures Step(c, op).c.flow.sendCount == CountAfter(c, op)
  {
    hide Send, Receive, Closed, RestorePackets, TimerFired;
    match op
    case OpSend(v, p) => SendCounts(c, v, p);
    case OpReceive(f) => ReceiveCounts(c, f);
    case OpClosed(o) => ClosedMoves(c, o);
    case OpRestorePackets(ps) => Runs.RestoreFrame(c, ps);
    case OpTimer(k) => TimerCalm(c, k);
    case _ =>
  }

  // ---------------------------------------------------------------- runs

  /** The identifiers of the counted exchanges begun since the last CONNECT and not acknowledged, and how many
      others were acknowledged since then. */
  datatype Tally = Tally(begun: multiset<nat>, resent: nat)

  function AckedId(op: Op): nat
    requires op.OpReceive? && op.frame.Good?
  {
    match op.frame.packet
    case Puback(id, _, _) => id
    case Pubrec(id, _, _) => id
    case Pubcomp(id, _, _) => id
    case _ => 0
  }

  function Advance(c: Conn, op: Op, t: Tally): Tally {
    if Restarts(c, op) then Tally(multiset{}, 0)
    else if Begins(c, op) then t.(begun := t.begun + multiset{op.packet.pub.pid})
    else if Ends(c, op) then
      if AckedId(op) in t.begun then t.(begun := t.begun - multiset{AckedId(op)}) else t.(resent := t.resent + 1)
    else t
  }

  predicate Balanced(c: Conn, t: Tally) { c.flow.sendCount + t.resent == |t.begun| }

  function TallyAfter(c: Conn, ops: seq<Op>, t: Tally): Tally
    decreases |ops|
  {
    if ops == [] then t else TallyAfter(Step(c, ops[0]).c, ops[1..], Advance(c, ops[0], t))
  }

  ghost predicate NeverFails(c: Conn, ops: seq<Op>)
    decreases |ops|
  {
    ops == [] || (!Underflows(c, ops[0]) && !Overflows(c, ops[0]) && NeverFails(Step(c, ops[0]).c, ops[1..]))
  }

  /** In every v5.0 run, reconnections included and against any peer: as long as the count has neither
      underflowed nor overflowed, it is the number of counted exchanges begun since the last CONNECT and not
      acknowledged less the acknowledgements of others,
          and the next acknowledgement underflows it exactly if the two are equal. */
  lemma {:induction false} SendCountLaw(c: Conn, ops: seq<Op>, t: Tally, next: Op)
    requires IsV5(c) && Balanced(c, t) && NeverFails(c, ops)
    ensures var d, u := Runs.Final(c, ops), TallyAfter(c, ops, t);
      && IsV5(d) && d.flow.sendCount == |u.begun| - u.resent
      && (Underflows(d, next) <==> Ends(d, next) && |u.begun| == u.resent)
    decreases |ops|
  {
    hide Step;
    if ops != [] {
      hide Step, Ends, Underflows, Overflows, Advance;
      assert Balanced(Step(c, ops[0]).c, Advance(c, ops[0], t)) by {
        hide Step;
        StepCount(c, ops[0]);
        hide Step, Restarts;
      }
      assert IsV5(Step(c, ops[0]).c) by {
        hide Step;
        if TakesIds(ops[0]) { Runs.TakesNothing(c, ops[0]); } else { StepLawful(false, c, ops[0]); }
        hide Step;
      }
      SendCountLaw(Step(c, ops[0]).c, ops[1..], Advance(c, ops[0], t), next);
    }
  }

  /** An expected acknowledgement panics exactly if the count, where there is one, is 0. */
  lemma AckPanicsIff(c: Conn, p: Packet)
    requires IsV5(c) && !c.panicked && Expected(c, p) && InRange(p.pid)
    ensures ReceivePacket(c, p).c.panicked <==> c.flow.sendMax.Some? && c.flow.sendCount == 0
  {
    hide Erase;
  }
}
