/** An abandoned identifier stays in use: nothing but a new session or a call of the host for that very
    identifier brings it back. */
module Abandonment {
  import opened Packets
  import opened Store
  import opened Engine
  import opened Frames
  import opened Session
  import opened Laws
  import opened Runs

  /** The host gives the identifier back or uses it for something new. */
  predicate Uses(op: Op, i: nat) {
    match op
    case OpSend(_, PublishPacket(p)) => !p.qos.AtMostOnce? && p.pid == i
    case OpSend(_, p) => (p.Subscribe? || p.Unsubscribe? || p.Pubrel?) && p.pid == i
    case OpRelease(id) => id == i
    case _ => false
  }

  /** Only other identifiers are concerned. */
  ghost predicate Elsewhere(c: Conn, d: Conn, i: nat) {
    && (i in c.ids.used ==> i in d.ids.used) && (InFlight(d.ids, i) ==> InFlight(c.ids, i))
    && (Has(d.session.store, i) ==> Has(c.session.store, i))
  }

  lemma AppendElsewhere(s: seq<StorePacket>, p: StorePacket, i: nat)
    requires IdOf(p) != i && Has(s + [p], i)
    ensures Has(s, i)
  {
  }

  lemma {:induction false} EraseElsewhere(s: seq<StorePacket>, r: Response, id: nat, i: nat)
    requires Has(Erase(s, r, id), i)
    ensures Has(s, i)
  {
    if s != [] && IdOf(s[0]) != i {
      var t := Erase(s[1..], r, id);
      if IdOf(s[0]) == id {
        assert forall k :: 0 <= k < |s[1..]| ==> s[1..][k] == s[k + 1];
      } else {
        var u := [s[0]] + t;
        var k :| 0 <= k < |u| && IdOf(u[k]) == i;
        assert IdOf(t[k - 1]) == i;
        EraseElsewhere(s[1..], r, id, i);
        assert forall k :: 0 <= k < |s[1..]| ==> s[1..][k] == s[k + 1];
      }
    }
  }

  /** A CONNACK that brings the session, or rejects, changes nothing here. */
  lemma ConnackStays(c: Conn, p: Packet)
    requires Consistent(c) && p.Connack?
    ensures var d := SendConnack(c, p).c; d.ids == c.ids && d.session.store == c.session.store
    ensures !(p.accepted && !p.sessionPresent) ==>
      var d := ReceiveConnack(c, p).c; d.ids == c.ids && d.session.store == c.session.store
  {
    var c1 := c.(status := Connected);
    assert Consistent(c1);
    ConsistentFits(c1);
    hide Consistent, SendStored;
  }

  lemma SendElsewhere(c: Conn, p: Packet, i: nat)
    requires Consistent(c) && !Uses(OpSend(V3_1_1, p), i) && !(p.Connect? && p.clean && c.status.Disconnected?)
    ensures Elsewhere(c, Dispatch(c, p).c, i)
  {
    hide SendPublishV3, SendPubrel, SendRequest, SendConnack, Greeting, Has, IdsOk, StoreOk;
    var s := c.session.store;
    match p
    case PublishPacket(pub) =>
      PublishMovesV3(c, pub);
      var q := StoredPublish(V3_1_1, pub.(dup := true));
      if !pub.qos.AtMostOnce? && Has(s + [q], i) { AppendElsewhere(s, q, i); }
    case Pubrel(_, _, _) =>
      PubrelMoves(c, p);
      var q := StoredPubrel(c.version, p.pid, p.rc, p.rem);
      if Has(s + [q], i) { AppendElsewhere(s, q, i); }
    case Subscribe(_, _) => RequestMoves(c, p);
    case Unsubscribe(_, _) => RequestMoves(c, p);
    case Connect(_, _, _, _) => GreetMoves(c, p);
    case Connack(_, _, _, _) => ConnackStays(c, p);
    case _ => DispatchCalm(c, p); hide Dispatch;
  }

  lemma AckElsewhere(c: Conn, p: Packet, i: nat)
    requires Abandoned(c, i) && c.version.V3_1_1? && (p.Puback? || p.Pubcomp? || p.Pubrec?)
    ensures Elsewhere(c, ReceivePacket(c, p).c, i)
  {
    hide Erase, Finish, Has, ReceiveTopic, SendPubrel, Welcomed;
    var k := if p.Puback? then AwaitPuback else if p.Pubrec? then AwaitPubrec else AwaitPubcomp;
    var s := Erase(c.session.store, Response(c.version, k), p.pid);
    if Has(s, i) { EraseElsewhere(c.session.store, Response(c.version, k), p.pid, i); }
    var ids := if p.Puback? then c.ids.(puback := c.ids.puback - {p.pid})
               else if p.Pubrec? then c.ids.(pubrec := c.ids.pubrec - {p.pid})
               else c.ids.(pubcomp := c.ids.pubcomp - {p.pid});
    var c1 := c.(ids := ids, session := c.session.(store := s));
    FinishMoves(c1, p.pid, p, true);
    PubrelMoves(c1, Pubrel(p.pid, None, 2));
    var q := StoredPubrel(c.version, p.pid, None, 2);
    if p.pid != i && Has(s + [q], i) { AppendElsewhere(s, q, i); }
  }

  lemma PacketElsewhere(c: Conn, p: Packet, i: nat)
    requires Consistent(c) && Abandoned(c, i) && !(p.Connect? && p.clean && c.status.Disconnected?)
    requires !(p.Connack? && p.accepted && !p.sessionPresent)
    ensures Elsewhere(c, ReceivePacket(c, p).c, i)
  {
    hide Has, IdsOk, StoreOk, ReceivePuback, ReceivePubrec, ReceivePubcomp, ReceiveConnack, Welcomed, Finish;
    match p
    case Puback(_, _, _) => AckElsewhere(c, p, i);
    case Pubrec(_, _, _) => AckElsewhere(c, p, i);
    case Pubcomp(_, _, _) => AckElsewhere(c, p, i);
    case Connect(_, _, _, _) => GreetMoves(c, p);
    case Connack(_, _, _, _) => ConnackStays(c, p);
    case Suback(id, _) => FinishMoves(c.(ids := c.ids.(suback := c.ids.suback - {id})), id, p, false);
    case Unsuback(id, _) => FinishMoves(c.(ids := c.ids.(unsuback := c.ids.unsuback - {id})), id, p, false);
    case _ => ReceiveCalm(c, p); hide ReceivePacket;
  }

  lemma StepElsewhere(c: Conn, op: Op, i: nat)
    requires Consistent(c) && Allowed(c, op) && Abandoned(c, i) && !Uses(op, i) && !Wipes(c, op)
    ensures Elsewhere(c, Step(c, op).c, i)
  {
    hide Has, IdsOk, StoreOk, Dispatch, ReceivePacket, Closed, TimerFired;
    match op
    case OpSend(v, p) => if v.V3_1_1? && !p.Auth? && RoleMaySend(c.opt.role, v, p) { SendElsewhere(c, p, i); }
    case OpReceive(f) =>
      if f.Good? && Arrives(c, f) {
        PacketElsewhere(c, f.packet, i);
        assert Receive(c, f).c == ReceivePacket(c, f.packet).c;
      } else {
        UnreadCalm(c, f);
        hide Receive;
      }
    case OpClosed(o) => ClosedMoves(c, o);
    case OpTimer(k) => TimerCalm(c, k);
    case _ =>
  }

  /** No call of the run uses the identifier or starts a new session. */
  ghost predicate LeftAlone(c: Conn, ops: seq<Op>, i: nat)
    decreases |ops|
  {
    ops == [] || (!Uses(ops[0], i) && !Wipes(c, ops[0]) && LeftAlone(Step(c, ops[0]).c, ops[1..], i))
  }

  /** Whatever else happens in a v3.1.1 run, an abandoned identifier stays abandoned: in use, never resent and
      never reported free. */
  lemma {:induction false} StaysAbandoned(c: Conn, ops: seq<Op>, i: nat)
    requires Consistent(c) && AllAllowed(c, ops) && Abandoned(c, i) && LeftAlone(c, ops, i)
    ensures Abandoned(Final(c, ops), i)
    decreases |ops|
  {
    hide Step, Consistent, Allowed, Uses, Wipes, Has;
    if ops != [] {
      StepElsewhere(c, ops[0], i);
      StepKeeps(c, ops[0]);
      StaysAbandoned(Step(c, ops[0]).c, ops[1..], i);
    }
  }
}
