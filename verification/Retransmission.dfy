/** What a v3.1.1 connection resends: the store is exactly the exchanges that are still open, in the order
    in which their last packet was first due (section 4.6 of MQTT 3.1.1). */
module Retransmission {
  import opened Packets
  import opened Store
  import opened Engine
  import opened Frames
  import opened Session
  import opened Runs
  import opened Traffic
  import L = Laws

  /** What happens to exchanges: a packet becomes due for acknowledgement, the acknowledgement of an
      identifier arrives, or the session is dropped. */
  datatype Mark = Due(entry: StorePacket) | Acknowledged(id: nat) | Dropped

  /** A packet that became due at `k` is still unacknowledged at the end of the history. */
  ghost predicate Open(h: seq<Mark>, k: nat) {
    && k < |h| && h[k].Due?
    && forall j :: k < j < |h| ==> h[j] != Dropped && h[j] != Acknowledged(IdOf(h[k].entry))
  }

  /** The unacknowledged packets, oldest first. */
  ghost function Outstanding(h: seq<Mark>): seq<StorePacket> {
    if h == [] then [] else (if Open(h, 0) then [h[0].entry] else []) + Outstanding(h[1..])
  }

  /** Where in the history the unacknowledged packets became due. */
  ghost function Places(h: seq<Mark>, from: nat): seq<nat>
    requires from <= |h|
    decreases |h| - from
  {
    if from == |h| then [] else (if Open(h, from) then [from] else []) + Places(h, from + 1)
  }

  lemma {:induction false} OpenSuffix(h: seq<Mark>, from: nat)
    requires from < |h|
    ensures Open(h[from..], 0) <==> Open(h, from)
    decreases from
  {
    if from > 0 {
      assert Open(h[1..], (from - 1)) <==> Open(h, (from - 1) + 1) by {
        if Open(h[1..], (from - 1)) {
          assert h[1..][(from - 1)] == h[(from - 1) + 1];
          forall j | (from - 1) + 1 < j < |h| ensures h[j] != Dropped
              && h[j] != Acknowledged(IdOf(h[(from - 1) + 1].entry)) {
            assert h[1..][j - 1] == h[j];
          }
        }
      }
      OpenSuffix(h[1..], from - 1);
      assert h[1..][from - 1..] == h[from..];
    } else {
      assert h[0..] == h;
    }
  }

  /** The unacknowledged packets are listed once each, in the order in which they became due. */
  lemma {:induction false} InOrder(h: seq<Mark>, from: nat)
    requires from <= |h|
    ensures var ps := Places(h, from);
      && (forall i, j :: 0 <= i < j < |ps| ==> ps[i] < ps[j])
      && (forall k: nat :: k in ps <==> from <= k && Open(h, k))
      && |ps| == |Outstanding(h[from..])|
      && forall i :: 0 <= i < |ps| ==>
        from <= ps[i] < |h| && h[ps[i]].Due? && Outstanding(h[from..])[i] == h[ps[i]].entry
    decreases |h| - from
  {
    if from < |h| {
      InOrder(h, from + 1);
      OpenSuffix(h, from);
      assert h[from..][1..] == h[from + 1..];
      hide Open;
    }
  }

  function Without(s: seq<StorePacket>, id: nat): seq<StorePacket> {
    if s == [] then [] else (if IdOf(s[0]) == id then [] else [s[0]]) + Without(s[1..], id)
  }

  function Apply(s: seq<StorePacket>, m: Mark): seq<StorePacket> {
    match m
    case Due(e) => s + [e]
    case Acknowledged(id) => Without(s, id)
    case Dropped => []
  }

  function ApplyAll(s: seq<StorePacket>, ms: seq<Mark>): seq<StorePacket>
    decreases |ms|
  {
    if ms == [] then s else ApplyAll(Apply(s, ms[0]), ms[1..])
  }

  lemma {:induction false} OutstandingLast(h: seq<Mark>, m: Mark)
    ensures Outstanding(h + [m]) == Apply(Outstanding(h), m)
  {
    var t := h + [m];
    if h == [] {
      assert t == [m] && [m][1..] == [];
    } else {
      OutstandingLast(h[1..], m);
      assert t[1..] == h[1..] + [m];
      assert Open(h + [m], 0) <==> Open(h, 0) && m != Dropped && m != Acknowledged(IdOf(h[0].entry)) by {
        var t := h + [m];
        assert t[|h|] == m && t[0] == h[0];
        if Open(t, 0) {
          forall j | 0 < j < |h| ensures h[j] != Dropped
              && h[j] != Acknowledged(IdOf(h[0].entry)) { assert t[j] == h[j]; }
        }
      }
      hide Open;
      var head := if Open(h, 0) then [h[0].entry] else [];
      assert Outstanding(h) == head + Outstanding(h[1..]);
      match m {
        case Due(e) =>
        case Acknowledged(id) =>
          assert Without(head + Outstanding(h[1..]), id)
              == (if |head| == 1 && IdOf(head[0]) != id then head else []) + Without(Outstanding(h[1..]), id) by {
            if head == [] {
              assert head + Outstanding(h[1..]) == Outstanding(h[1..]);
            } else {
              assert (head + Outstanding(h[1..]))[1..] == Outstanding(h[1..]) && head == [head[0]];
            }
          }
        case Dropped =>
      }
    }
  }

  lemma {:induction false} OutstandingAppend(h: seq<Mark>, ms: seq<Mark>)
    ensures Outstanding(h + ms) == ApplyAll(Outstanding(h), ms)
    decreases |ms|
  {
    hide Outstanding, Apply;
    if ms == [] {
      assert h + ms == h;
    } else {
      OutstandingLast(h, ms[0]);
      OutstandingAppend(h + [ms[0]], ms[1..]);
      assert h + [ms[0]] + ms[1..] == h + ms;
    }
  }

  // ---------------------------------------------------------------- the marks of a call

  function SendMarks(c: Conn, p: Packet): seq<Mark> {
    match p
    case PublishPacket(pub) =>
      if !pub.qos.AtMostOnce? && MayPublish(c) && IsUsed(c, pub.pid) && Stores(c)
      then [Due(StoredPublish(V3_1_1, pub.(dup := true)))] else []
    case Pubrel(id, rc, rem) => if IsUsed(c, id) && c.session.needStore then [Due(StoredPubrel(V3_1_1, id, rc, rem))]
        else []
    case Connect(clean, _, _, _) => if c.status.Disconnected? && clean then [Dropped] else []
    case _ => []
  }

  function ReceiveMarks(c: Conn, p: Packet): seq<Mark> {
    match p
    case Puback(id, _, _) => if id in c.ids.puback then [Acknowledged(id)] else []
    case Pubcomp(id, _, _) => if id in c.ids.pubcomp then [Acknowledged(id)] else []
    case Pubrec(id, _, _) =>
      if id !in c.ids.pubrec then []
      else [Acknowledged(id)]
           + if c.opt.autoPub && IsConnected(c) && c.session.needStore then [Due(StoredPubrel(V3_1_1, id, None, 2))]
               else []
    case Connect(clean, _, _, _) => if c.status.Disconnected? && clean then [Dropped] else []
    case Connack(ok, present, _, _) => if ok && !present then [Dropped] else []
    case _ => []
  }

  function MarksOf(c: Conn, op: Op): seq<Mark> {
    match op
    case OpSend(v, p) => if c.version == v && !p.Auth? && RoleMaySend(c.opt.role, v, p) then SendMarks(c, p) else []
    case OpReceive(f) => if f.Good? && Arrives(c, f) then ReceiveMarks(c, f.packet) else []
    case _ => []
  }

  function History(c: Conn, ops: seq<Op>): seq<Mark>
    decreases |ops|
  {
    if ops == [] then [] else MarksOf(c, ops[0]) + History(Step(c, ops[0]).c, ops[1..])
  }

  // ---------------------------------------------------------------- the store follows the marks

  lemma {:induction false} EraseIsWithout(s: seq<StorePacket>, r: Response, id: nat)
    requires Distinct(s) && forall p :: p in s && IdOf(p) == id ==> ResponseOf(p) == r
    ensures Erase(s, r, id) == Without(s, id)
  {
    if s != [] {
      if IdOf(s[0]) == id {
        assert forall k :: 0 <= k < |s[1..]| ==> IdOf(s[1..][k]) != id;
        WithoutAbsent(s[1..], id);
      } else {
        EraseIsWithout(s[1..], r, id);
      }
    }
  }

  lemma {:induction false} WithoutAbsent(s: seq<StorePacket>, id: nat)
    requires forall k :: 0 <= k < |s| ==> IdOf(s[k]) != id
    ensures Without(s, id) == s
  {
    if s != [] { WithoutAbsent(s[1..], id); }
  }

  lemma AckErases(c: Conn, k: ResponseKind, id: nat)
    requires Consistent(c)
    requires id in
      match k { case AwaitPuback => c.ids.puback case AwaitPubrec => c.ids.pubrec case AwaitPubcomp => c.ids.pubcomp }
    ensures Erase(c.session.store, Response(V3_1_1, k), id) == Without(c.session.store, id)
  {
    var s := c.session.store;
    forall p | p in s && IdOf(p) == id ensures ResponseOf(p) == Response(V3_1_1, k) { assert Awaited(c.ids, p); }
    EraseIsWithout(s, Response(V3_1_1, k), id);
  }

  lemma OneMark(s: seq<StorePacket>, m: Mark)
    ensures ApplyAll(s, [m]) == Apply(s, m) && ApplyAll(s, []) == s
  {
    assert [m][1..] == [];
  }

  /** The store of the state a call leaves. */
  ghost predicate Tracks(c: Conn, ms: seq<Mark>, d: Conn) { d.session.store == ApplyAll(c.session.store, ms) }

  lemma SendTracks(c: Conn, p: Packet)
    requires Consistent(c) && HostOk(c, OpSend(V3_1_1, p)) && !p.Auth?
    ensures Tracks(c, SendMarks(c, p), Dispatch(c, p).c)
  {
    var s := c.session.store;
    forall m: Mark ensures ApplyAll(s, [m]) == Apply(s, m) && ApplyAll(s, []) == s { OneMark(s, m); }
    hide ApplyAll;
    match p
    case PublishPacket(pub) => PublishTracks(c, pub);
    case Pubrel(id, _, _) => NotStored(c, id); PubrelTracks(c, p);
    case Connect(_, _, _, _) =>
    case Connack(_, _, _, _) =>
      ConsistentFits(c.(status := Connected));
      hide Sendable, Resend;
    case _ =>
  }

  lemma NotStored(c: Conn, id: nat)
    requires Consistent(c) && Fresh(c, id)
    ensures !Has(c.session.store, id)
  {
    forall k | 0 <= k < |c.session.store| ensures IdOf(c.session.store[k]) != id {
      assert c.session.store[k] in c.session.store;
      assert Awaited(c.ids, c.session.store[k]);
    }
  }

  lemma PublishTracks(c: Conn, p: Publish)
    requires Consistent(c) && (!p.qos.AtMostOnce? ==> Fresh(c, p.pid))
    ensures SendPublish(c, p).c.session.store ==
      if !p.qos.AtMostOnce? && MayPublish(c) && IsUsed(c, p.pid) && Stores(c)
      then c.session.store + [StoredPublish(V3_1_1, p.(dup := true))] else c.session.store
  {
    if !p.qos.AtMostOnce? { NotStored(c, p.pid); }
    hide Has, Consistent;
  }

  /** A QoS 1 or 2 publish that is taken without an error is neither sent nor stored exactly if there is no
      connection and either no store or, while disconnected, no offline publishing. */
  lemma PublishLostIff(c: Conn, p: Publish)
    requires Consistent(c) && !p.qos.AtMostOnce? && Fresh(c, p.pid) && AcceptsPublish(c, p)
    ensures Sends(SendPublish(c, p).ev) == [] && SendPublish(c, p).c.session.store == c.session.store <==>
      !IsConnected(c) && (!c.session.needStore || (c.status.Disconnected? && !c.opt.offlinePublish))
  {
    hide SendPublish, Step;
    PublishTracks(c, p);
    SendPublishEmits(c, p);
    assert |c.session.store + [StoredPublish(V3_1_1, p.(dup := true))]| > |c.session.store|;
    hide Consistent, SendPublish;
  }

  lemma PubrelTracks(c: Conn, p: Packet)
    requires c.version.V3_1_1? && p.Pubrel? && IsConnected(c) && !Has(c.session.store, p.pid)
    ensures SendPubrel(c, p).c.session.store ==
      if IsUsed(c, p.pid) && c.session.needStore
      then c.session.store + [StoredPubrel(V3_1_1, p.pid, p.rc, p.rem)] else c.session.store
  {
    hide Has;
  }

  lemma PubrecTracks(c: Conn, p: Packet)
    requires Consistent(c) && p.Pubrec? && p.pid in c.ids.pubrec
    ensures Tracks(c, ReceiveMarks(c, p), ReceivePubrec(c, p).c)
  {
    var id, s := p.pid, c.session.store;
    AckErases(c, AwaitPubrec, id);
    var gone := Erase(s, Response(V3_1_1, AwaitPubrec), id);
    var c1 := c.(ids := c.ids.(pubrec := c.ids.pubrec - {id}), session := c.session.(store := gone));
    AckKeeps(c, c1.ids, Response(V3_1_1, AwaitPubrec), id);
    assert IsUsed(c1, id);
    OneMark(s, Acknowledged(id));
    assert ApplyAll(s, [Acknowledged(id)] + [(Due(StoredPubrel(V3_1_1, id, None, 2)))])
        == Apply(Apply(s, Acknowledged(id)), (Due(StoredPubrel(V3_1_1, id, None, 2)))) by {
      assert ([Acknowledged(id)] + [(Due(StoredPubrel(V3_1_1, id, None, 2)))])[1..]
          == [(Due(StoredPubrel(V3_1_1, id, None, 2)))];
      OneMark(Apply(s, Acknowledged(id)), (Due(StoredPubrel(V3_1_1, id, None, 2))));
    }
    hide ApplyAll, Erase, Has, Consistent;
    if c.opt.autoPub && IsConnected(c) {
      PubrelTracks(c1, Pubrel(id, None, 2));
      hide SendPubrel;
    }
  }

  lemma AckTracks(c: Conn, p: Packet)
    requires Consistent(c) && (p.Puback? || p.Pubcomp?)
    ensures Tracks(c, ReceiveMarks(c, p), ReceivePacket(c, p).c)
  {
    OneMark(c.session.store, Acknowledged(p.pid));
    if p.Puback? && p.pid in c.ids.puback { AckErases(c, AwaitPuback, p.pid); }
    if p.Pubcomp? && p.pid in c.ids.pubcomp { AckErases(c, AwaitPubcomp, p.pid); }
    hide ApplyAll, Erase, Consistent;
  }

  lemma ReceiveTracks(c: Conn, p: Packet)
    requires Consistent(c) && PeerOk(c, Good(p, 4))
    ensures Tracks(c, ReceiveMarks(c, p), ReceivePacket(c, p).c)
  {
    OneMark(c.session.store, Dropped);
    hide ApplyAll;
    match p
    case Puback(_, _, _) => AckTracks(c, p);
    case Pubcomp(_, _, _) => AckTracks(c, p);
    case Pubrec(id, _, _) => if id in c.ids.pubrec { PubrecTracks(c, p); }
    case Connack(_, _, _, _) =>
      ConsistentFits(c.(status := Connected));
      hide Sendable, Resend;
    case PublishPacket(pub) => PublishReceivedTracks(c, pub);
    case _ =>
  }

  lemma PublishReceivedTracks(c: Conn, p: Publish)
    ensures ReceivePublishV3(c, p).c.session.store == c.session.store
  {
    hide Respond;
    RespondStore(c, Puback(p.pid, None, 2));
    RespondStore(c.(session := c.session.(handled := c.session.handled + {p.pid})), Pubrec(p.pid, None, 2));
  }

  lemma RespondStore(c: Conn, p: Packet)
    requires p.Puback? || p.Pubrec?
    ensures Respond(c, p).c.session.store == c.session.store
  {
  }

  lemma FrameTracks(c: Conn, f: Frame)
    requires Consistent(c) && PeerOk(c, f)
    ensures Tracks(c, MarksOf(c, OpReceive(f)), Receive(c, f).c)
  {
    OneMark(c.session.store, Dropped);
    hide ApplyAll, ReceivePacket;
    if f.Good? { ReceiveTracks(c, f.packet); }
  }

  lemma StepTracks(c: Conn, op: Op)
    requires Consistent(c) && Allowed(c, op)
    ensures Tracks(c, MarksOf(c, op), Step(c, op).c)
  {
    hide Dispatch, ReceiveFrame;
    OneMark(c.session.store, Dropped);
    hide ApplyAll;
    match op
    case OpSend(v, p) =>
      if c.version == v && !p.Auth? { SendTracks(c, p); }
      hide Dispatch;
    case OpReceive(f) => FrameTracks(c, f); hide Receive;
    case OpClosed(o) => ClosedMoves(c, o); hide Closed;
    case _ =>
  }

  // ---------------------------------------------------------------- whole runs

  /** After every v3.1.1 run the store holds exactly the packets that are still unacknowledged, in the
      order in which they became due. */
  lemma {:induction false} StoreIsOutstanding(c: Conn, h: seq<Mark>, ops: seq<Op>)
    requires Consistent(c) && AllAllowed(c, ops) && c.session.store == Outstanding(h)
    ensures Final(c, ops).session.store == Outstanding(h + History(c, ops))
    ensures Consistent(Final(c, ops))
    decreases |ops|
  {
    hide Step, Allowed, Consistent, MarksOf, Outstanding;
    if ops == [] {
      assert h + History(c, ops) == h;
    } else {
      var d := Step(c, ops[0]).c;
      StepTracks(c, ops[0]);
      StepKeeps(c, ops[0]);
      OutstandingAppend(h, MarksOf(c, ops[0]));
      StoreIsOutstanding(d, h + MarksOf(c, ops[0]), ops[1..]);
      assert h + MarksOf(c, ops[0]) + History(d, ops[1..]) == h + History(c, ops);
    }
  }

  /** The call that ends a reconnection with the session present. */
  predicate Resumes(c: Conn, op: Op) {
    c.status.Connecting? &&
    match op
    case OpSend(V3_1_1, p) => p.Connack? && p.accepted && RoleMaySend(c.opt.role, V3_1_1, p)
    case OpReceive(f) =>
      f.Good? && f.packet.Connack? && f.packet.accepted && f.packet.sessionPresent && Arrives(c, f)
    case _ => false
  }

  lemma ResumeEmits(c: Conn, op: Op)
    requires Consistent(c) && Resumes(c, op)
    ensures Sends(Step(c, op).ev) == (if op.OpSend? then [op.packet] else []) + StoredPackets(c.session.store)
  {
    match op {
      case OpSend(_, p) =>
        ServerResumes(c, p);
        assert Step(c, op).ev == SendConnack(c, p).ev;
        hide SendConnack;
      case OpReceive(f) =>
        assert Sends(ReceiveConnack(c, f.packet).ev) == [] + StoredPackets(c.session.store) by {
          StoredNow(c);
          assert c.version.V3_1_1?;
          hide Consistent, SendStored, Sends, StoredPackets;
          var s := SendStored(c.(status := Connected));
          var note := [NotifyPacketReceived(f.packet)];
          assert ReceiveConnack(c, f.packet).ev == s.ev + note by { assert [] + s.ev == s.ev; }
          One(note[0]);
          SendsAppend(s.ev, note);
          assert StoredPackets(c.session.store) + [] == [] + StoredPackets(c.session.store);
        }
        hide ReceiveConnack;
        assert Step(c, op).ev == ReceiveConnack(c, f.packet).ev;
    }
  }

  lemma StoredNow(c: Conn)
    requires Consistent(c)
    ensures var d := c.(status := Connected);
      Sends(SendStored(d).ev) == StoredPackets(c.session.store) && SendStored(d).c == d
  {
    var d := c.(status := Connected);
    assert Consistent(d) by { hide IdsOk, StoreOk; }
    hide Consistent;
    ConsistentFits(d);
    SendStoredEmits(d);
  }

  lemma ServerResumes(c: Conn, p: Packet)
    requires Consistent(c) && c.status.Connecting? && p.Connack? && p.accepted
    ensures Sends(SendConnack(c, p).ev) == [p] + StoredPackets(c.session.store)
  {
    StoredNow(c);
    assert c.version.V3_1_1?;
    hide Consistent, SendStored, Sends, StoredPackets;
    var s := SendStored(c.(status := Connected));
    var post := PostSend(s.c);
    var ack := [RequestSendPacket(p, None)];
    assert SendConnack(c, p).ev == ack + s.ev + post.ev by { assert [] + ack == ack; }
    Mute(post.ev);
    One(ack[0]);
    SendsAppend(ack, s.ev);
    SendsAppend(ack + s.ev, post.ev);
    assert [p] + StoredPackets(c.session.store) + [] == [p] + StoredPackets(c.session.store);
  }

  /** Reconnecting after any run resends exactly the unacknowledged packets, oldest first: every PUBLISH
      with DUP set, PUBRELs where their PUBREC came in. A server sends its CONNACK before them. */
  lemma ResendsOutstanding(c: Conn, ops: seq<Op>, op: Op)
    requires Consistent(c) && AllAllowed(c, ops) && c.session.store == []
    requires Resumes(Final(c, ops), op)
    ensures var out := Outstanding(History(c, ops));
      && Sends(Step(Final(c, ops), op).ev) == (if op.OpSend? then [op.packet] else []) + StoredPackets(out)
      && forall k :: 0 <= k < |out| && out[k].StoredPublish? ==> out[k].pub.dup
  {
    hide Step, AllAllowed, Resumes;
    assert Outstanding([]) == [];
    StoreIsOutstanding(c, [], ops);
    var h := History(c, ops);
    assert [] + h == h;
    var d := Final(c, ops);
    ResumeEmits(d, op);
    forall k | 0 <= k < |d.session.store| && d.session.store[k].StoredPublish? ensures d.session.store[k].pub.dup {
      assert d.session.store[k] in d.session.store;
    }
  }
}
