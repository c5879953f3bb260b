/** Reports of released identifiers. In every run of either version the host is told of an identifier as often as
    it becomes free, and once more whenever a stored packet is dropped whose identifier is free already: a v5.0
    publish that is stored and then turned away leaves such a packet behind. */
module Releases {
  import opened Packets
  import opened Store
  import opened Engine
  import opened Frames
  import opened Laws
  import opened Runs
  import Session

  // ---------------------------------------------------------------- how the store grows

  /** What is stored was stored before or is new, and no identifier is stored twice. */
  ghost predicate Grown(s: seq<StorePacket>, t: seq<StorePacket>, added: set<StorePacket>) {
    (forall p :: p in t ==> p in s || p in added) && (Distinct(s) ==> Distinct(t))
  }

  lemma AppendGrown(s: seq<StorePacket>, p: StorePacket)
    requires !Has(s, IdOf(p))
    ensures Grown(s, s + [p], {p})
  {
  }

  lemma {:induction false} EraseGrown(s: seq<StorePacket>, r: Response, id: nat)
    ensures Grown(s, Erase(s, r, id), {})
  {
    if s != [] && IdOf(s[0]) != id {
      EraseGrown(s[1..], r, id);
      var t := Erase(s[1..], r, id);
      forall j | 0 <= j < |t| ensures t[j] in s[1..] { assert t[j] in t; }
    }
  }

  lemma {:induction false} RestoreGrown(c: Conn, ps: seq<StorePacket>)
    ensures Grown(c.session.store, RestorePackets(c, ps).session.store, set p | p in ps)
    decreases |ps|
  {
    if ps != [] {
      var d := RestoreOne(c, ps[0]);
      if !Has(c.session.store, IdOf(ps[0])) { AppendGrown(c.session.store, ps[0]); }
      assert Grown(c.session.store, d.session.store, {ps[0]});
      RestoreGrown(d, ps[1..]);
      hide Has, RestoreOne;
    }
  }

  /** The packets a call may add to the store. */
  function NewOf(c: Conn, op: Op): set<StorePacket> {
    match op
    case OpSend(_, PublishPacket(p)) => {if IsV5(c) then ForStore(c, p) else StoredPublish(V3_1_1, p.(dup := true))}
    case OpSend(_, Pubrel(id, rc, rem)) => {StoredPubrel(c.version, id, rc, rem)}
    case OpReceive(Good(Pubrec(id, _, _), _, _)) => {StoredPubrel(c.version, id, None, 2)}
    case OpRestorePackets(ps) => set p | p in ps
    case _ => {}
  }

  /** A call changes the store like this, and a v3.1.1 connection gets no size limit. */
  ghost predicate Steps(c: Conn, op: Op, d: Conn) {
    && Grown(c.session.store, d.session.store, NewOf(c, op))
    && (c.version.V3_1_1? ==> d.version == c.version)
    && (c.version.V3_1_1? ==> d.flow.maxSend == c.flow.maxSend || d.flow.maxSend == NO_SIZE_LIMIT)
  }

  lemma PublishSteps(c: Conn, v: Version, p: Publish)
    ensures Steps(c, OpSend(v, PublishPacket(p)), SendPublish(c, p).c)
  {
    hide SendPublishV3, SendPublishV5, StoredTopic, BadAlias, QuotaFull, Has, Distinct;
    if !Has(c.session.store, p.pid) {
      AppendGrown(c.session.store, ForStore(c, p));
      AppendGrown(c.session.store, StoredPublish(V3_1_1, p.(dup := true)));
    }
    PublishMovesV3(c, p);
    if IsV5(c) {
      if p.qos.AtMostOnce? { QuietlySent(c, p); } else { PublishPasses(c, p); }
    }
  }

  lemma DispatchSteps(c: Conn, v: Version, p: Packet)
    ensures Steps(c, OpSend(v, p), Dispatch(c, p).c)
  {
    hide Greeting, Has, ReceiveConnack, SendConnack, SendPublish, SendPubrel, SendRequest, Welcomed;
    match p
    case Connect(_, _, _, _) => GreetMoves(c, p);
    case Connack(_, _, _, _) => ConnackSteps(c, p);
    case PublishPacket(pub) => PublishSteps(c, v, pub);
    case Pubrel(_, _, _) =>
      PubrelMoves(c, p);
      if !Has(c.session.store, p.pid) { AppendGrown(c.session.store, StoredPubrel(c.version, p.pid, p.rc, p.rem)); }
    case Subscribe(_, _) => RequestMoves(c, p);
    case Unsubscribe(_, _) => RequestMoves(c, p);
    case _ => DispatchCalm(c, p); hide Dispatch;
  }

  lemma PacketSteps(c: Conn, p: Packet, op: Op)
    requires op.OpReceive? && op.frame.Good? && op.frame.packet == p
    ensures Steps(c, op, ReceivePacket(c, p).c)
  {
    hide Welcomed, ReceiveConnack, ReceivePubrec, Erase, Finish, SendPubrel, Fail, Has;
    var s := c.session.store;
    FailCalm(c, ProtocolError);
    match p
    case Connect(_, _, _, _) => GreetMoves(c, p);
    case Connack(_, _, _, _) => ConnackSteps(c, p);
    case Puback(id, _, _) => AckSteps(c, p, AwaitPuback, c.ids.(puback := c.ids.puback - {id}));
    case Pubcomp(id, _, _) => AckSteps(c, p, AwaitPubcomp, c.ids.(pubcomp := c.ids.pubcomp - {id}));
    case Pubrec(id, _, _) => PubrecSteps(c, p);
    case Suback(id, _) => FinishMoves(c.(ids := c.ids.(suback := c.ids.suback - {id})), id, p, false);
    case Unsuback(id, _) => FinishMoves(c.(ids := c.ids.(unsuback := c.ids.unsuback - {id})), id, p, false);
    case _ => ReceiveCalm(c, p); hide ReceivePacket;
  }

  lemma PubrecSteps(c: Conn, p: Packet)
    requires p.Pubrec?
    ensures var d := ReceivePubrec(c, p).c;
      && Grown(c.session.store, d.session.store, {StoredPubrel(c.version, p.pid, None, 2)})
      && d.version == c.version && d.flow.maxSend == c.flow.maxSend
  {
    hide Erase, Finish, SendPubrel, Fail, Has;
    FailCalm(c, ProtocolError);
    var ids := c.ids.(pubrec := c.ids.pubrec - {p.pid});
    AckSteps(c, p, AwaitPubrec, ids);
    var t := Erase(c.session.store, Response(c.version, AwaitPubrec), p.pid);
    PubrelMoves(c.(ids := ids, session := c.session.(store := t)), Pubrel(p.pid, None, 2));
    if !Has(t, p.pid) { AppendGrown(t, StoredPubrel(c.version, p.pid, None, 2)); }
  }

  lemma AckSteps(c: Conn, p: Packet, k: ResponseKind, ids: Ids)
    requires p.Puback? || p.Pubrec? || p.Pubcomp?
    ensures var t := Erase(c.session.store, Response(c.version, k), p.pid);
      var d := Finish(c.(ids := ids, session := c.session.(store := t)), p.pid, p, true).c;
      Grown(c.session.store, t, {}) && d.session.store == t && d.version == c.version
          && d.flow.maxSend == c.flow.maxSend
  {
    hide Finish, Erase, Grown;
    var t := Erase(c.session.store, Response(c.version, k), p.pid);
    EraseGrown(c.session.store, Response(c.version, k), p.pid);
    FinishMoves(c.(ids := ids, session := c.session.(store := t)), p.pid, p, true);
  }

  /** A CONNACK that is sent or received adds nothing to the store. */
  lemma ConnackSteps(c: Conn, p: Packet)
    requires p.Connack?
    ensures var d, e := SendConnack(c, p).c, ReceiveConnack(c, p).c;
      && Grown(c.session.store, d.session.store, {}) && Grown(c.session.store, e.session.store, {})
      && d.version == e.version == c.version && d.flow.maxSend == c.flow.maxSend
      && (!IsV5(c) ==> e.flow.maxSend == c.flow.maxSend)
  {
    hide ApplySentProps, ApplyReceivedProps, SendStored, Sendable, Grown;
    var s := c.session.store;
    SentPropsMove(c, p.props, false);
    ReceivedPropsMove(c.(status := Connected), p.props, false);
    var d := (if IsV5(c) then ApplySentProps(c, p.props, false).c else c).(status := Connected);
    var e := if IsV5(c) then ApplyReceivedProps(c.(status := Connected), p.props, false).c else c.(status := Connected);
    SendStoredMoves(d);
    SendStoredMoves(e);
    ShrinksOnly(d, s);
    ShrinksOnly(e, s);
  }

  lemma ShrinksOnly(c: Conn, s: seq<StorePacket>)
    ensures Grown(s, s, {}) && Grown(s, [], {}) && Grown(s, Sendable(c, s), {})
  {
    SendableMembers(c, s);
  }

  lemma ReceiveSteps(c: Conn, f: Frame)
    ensures Steps(c, OpReceive(f), Receive(c, f).c)
  {
    hide ReceivePacket, Distinct;
    if f.Good? && Arrives(c, f) {
      var e := if !c.version.Undetermined? then c else c.(version := if f.level == 4 then V3_1_1 else V5_0);
      PacketSteps(e, f.packet, OpReceive(f));
      assert Receive(c, f).c == ReceivePacket(e, f.packet).c;
    } else {
      UnreadCalm(c, f);
      hide Receive;
    }
  }

  /** Every call of either version. */
  lemma StepSteps(c: Conn, op: Op)
    ensures Steps(c, op, Step(c, op).c)
  {
    hide Dispatch, Receive, Closed, RestorePackets, TimerFired, Distinct;
    match op
    case OpSend(v, p) => DispatchSteps(c, v, p);
    case OpReceive(f) => ReceiveSteps(c, f);
    case OpClosed(o) => ClosedMoves(c, o);
    case OpRestorePackets(ps) => RestoreGrown(c, ps); RestoreFrame(c, ps);
    case OpTimer(k) => TimerCalm(c, k);
    case _ =>
  }

  // ---------------------------------------------------------------- calls that drop nothing

  predicate Small(p: StorePacket) { Size(p.version, ToPacket(p)) <= NO_SIZE_LIMIT }

  /** A v3.1.1 connection, which has no packet size limit, with a store of packets that can be encoded. */
  predicate Ready(c: Conn) { c.version.V3_1_1? && c.flow.maxSend == NO_SIZE_LIMIT && AllFit(c) }

  /** Packets that are sent or restored can be encoded; nothing else is asked of a call. */
  predicate Encodes(op: Op) {
    match op
    case OpSend(_, p) => Session.Encodable(p)
    case OpRestorePackets(ps) => forall k :: 0 <= k < |ps| ==> Small(ps[k])
    case _ => true
  }

  predicate AllEncode(ops: seq<Op>) { forall k :: 0 <= k < |ops| ==> Encodes(ops[k]) }

  /** Every call keeps a v3.1.1 connection free of packets that could not be resent. */
  lemma StepReady(c: Conn, op: Op)
    requires Ready(c) && Encodes(op)
    ensures Ready(Step(c, op).c) && Undropped(c, op)
  {
    hide Step;
    StepSteps(c, op);
    assert forall p :: p in NewOf(c, op) ==> Small(p);
    var d := Step(c, op).c;
    hide Step, NewOf;
    forall k | 0 <= k < |d.session.store| ensures Fits(d, d.session.store[k]) {
      assert d.session.store[k] in d.session.store;
    }
  }

  // ---------------------------------------------------------------- resending

  /** A stored packet that is too large for the peer and whose identifier is free: dropping it is reported
      although nothing is freed. */
  predicate Stray(c: Conn, p: StorePacket) { !Fits(c, p) && Freeable(c, IdOf(p)) && IdOf(p) !in c.ids.used }

  ghost predicate HasStray(c: Conn, s: seq<StorePacket>, i: nat) {
    exists k :: 0 <= k < |s| && IdOf(s[k]) == i && Stray(c, s[k])
  }

  function Freed(before: set<nat>, after: set<nat>, i: nat): nat { if i in before && i !in after then 1 else 0 }

  lemma StrayTail(c: Conn, d: Conn, s: seq<StorePacket>, i: nat)
    requires s != [] && Distinct(s) && d.flow == c.flow
    requires i == IdOf(s[0]) || (i in d.ids.used <==> i in c.ids.used)
    ensures HasStray(c, s, i) <==> if IdOf(s[0]) == i then Stray(c, s[0]) else HasStray(d, s[1..], i)
    ensures IdOf(s[0]) == i ==> !HasStray(d, s[1..], i)
  {
    if IdOf(s[0]) == i {
      forall k | 0 < k < |s| ensures IdOf(s[k]) != i {}
      assert forall k :: 0 <= k < |s[1..]| ==> s[1..][k] == s[k + 1];
    } else {
      if k :| 0 <= k < |s| && IdOf(s[k]) == i && Stray(c, s[k]) { assert s[1..][k - 1] == s[k] && Stray(d, s[k]); }
      if k :| 0 <= k < |s[1..]| && IdOf(s[1..][k]) == i && Stray(d, s[1..][k]) {
        assert s[1..][k] == s[k + 1] && Stray(c, s[k + 1]);
      }
    }
  }

  lemma {:induction false} ResendOthers(c: Conn, s: seq<StorePacket>, i: nat)
    requires forall k :: 0 <= k < |s| ==> IdOf(s[k]) != i
    ensures multiset(Released(Resend(c, s).ev))[i] == 0
    ensures i in Resend(c, s).c.ids.used <==> i in c.ids.used
    decreases |s|
  {
    if s != [] {
      var id := IdOf(s[0]);
      var c1 := c.(ids := c.ids.(used := c.ids.used - {id}));
      ResendOthers(c, s[1..], i);
      ResendOthers(c1, s[1..], i);
      ResendOthers(Panic(c), s[1..], i);
      ReleasedAppend([NotifyPacketIdReleased(id)], Resend(c1, s[1..]).ev);
      assert [NotifyPacketIdReleased(id)][1..] == [];
      assert Released([NotifyPacketIdReleased(id)]) == [id];
      ReleasedAppend([RequestSendPacket(ToPacket(s[0]), None)], Resend(c, s[1..]).ev);
      assert [RequestSendPacket(ToPacket(s[0]), None)][1..] == [];
      hide Fits;
    }
  }

  /** Resending reports an identifier when it frees it, and once more for a stray. */
  lemma {:induction false} ResendCounts(c: Conn, s: seq<StorePacket>, i: nat)
    requires Distinct(s)
    ensures multiset(Released(Resend(c, s).ev))[i] ==
      Freed(c.ids.used, Resend(c, s).c.ids.used, i) + if HasStray(c, s, i) then 1 else 0
    decreases |s|
  {
    if s != [] {
      var id := IdOf(s[0]);
      var c1 := c.(ids := c.ids.(used := c.ids.used - {id}));
      var next := if Fits(c, s[0]) then c else if Freeable(c, id) then c1 else Panic(c);
      var e := if Fits(c, s[0]) then [RequestSendPacket(ToPacket(s[0]), None)]
               else if Freeable(c, id) then [NotifyPacketIdReleased(id)] else [];
      assert Resend(c, s) == Before(e, Resend(next, s[1..]));
      assert Released(e) == if !Fits(c, s[0]) && Freeable(c, id) then [id] else [] by {
        if e != [] { assert e[1..] == []; }
      }
      ReleasedAppend(e, Resend(next, s[1..]).ev);
      StrayTail(c, next, s, i);
      ResendCounts(next, s[1..], i);
      if i == id {
        forall k | 0 <= k < |s[1..]| ensures IdOf(s[1..][k]) != i {}
        ResendOthers(next, s[1..], i);
      }
      hide Resend, HasStray, Fits;
      assert multiset(Released(Resend(c, s).ev)) ==
        multiset(Released(e)) + multiset(Released(Resend(next, s[1..]).ev));
    }
  }

  /** The release law of resending holds exactly if nothing that is dropped is a stray. */
  lemma ReleaseLawIff(c: Conn, s: seq<StorePacket>)
    requires Distinct(s)
    ensures ReleaseLaw(c.ids.used, Resend(c, s).ev, Resend(c, s).c.ids.used) <==>
      forall k :: 0 <= k < |s| ==> !Stray(c, s[k])
  {
    forall i: nat
      ensures multiset(Released(Resend(c, s).ev))[i] ==
        Freed(c.ids.used, Resend(c, s).c.ids.used, i) + if HasStray(c, s, i) then 1 else 0
    {
      ResendCounts(c, s, i);
    }
    hide Resend, Stray;
    if k :| 0 <= k < |s| && Stray(c, s[k]) { assert HasStray(c, s, IdOf(s[k])); }
  }

  // ---------------------------------------------------------------- every call and every run

  lemma {:induction false} NoneReleased(ev: seq<Event>, i: nat)
    requires forall k :: 0 <= k < |ev| ==> !ev[k].NotifyPacketIdReleased?
    ensures multiset(Released(ev))[i] == 0
  {
    if ev != [] { NoneReleased(ev[1..], i); }
  }

  /** A call reports an identifier when it frees it, and once more if it resends the store and finds a stray. */
  ghost predicate Reports(c: Conn, op: Op, i: nat) {
    var strays := Resending(c, op).Some? && HasStray(Resending(c, op).value, c.session.store, i);
    multiset(Released(Step(c, op).ev))[i] ==
      Freed(Entry(c, op).ids.used, Step(c, op).c.ids.used, i) + if strays then 1 else 0
  }

  lemma Around(pre: seq<Event>, mid: seq<Event>, post: seq<Event>, i: nat)
    requires multiset(Released(pre))[i] == 0 && multiset(Released(post))[i] == 0
    ensures multiset(Released(pre + mid + post))[i] == multiset(Released(mid))[i]
  {
    ReleasedAppend(pre, mid);
    ReleasedAppend(pre + mid, post);
    assert multiset(Released(pre + mid + post)) ==
      multiset(Released(pre)) + multiset(Released(mid)) + multiset(Released(post));
  }

  /** Strays depend on the size limit and the identifiers in use only. */
  lemma SameStrays(c: Conn, d: Conn, s: seq<StorePacket>, i: nat)
    requires d.flow.maxSend == c.flow.maxSend && d.ids == c.ids
    ensures HasStray(c, s, i) <==> HasStray(d, s, i)
  {
    if k :| 0 <= k < |s| && IdOf(s[k]) == i && Stray(c, s[k]) { assert Stray(d, s[k]); }
    if k :| 0 <= k < |s| && IdOf(s[k]) == i && Stray(d, s[k]) { assert Stray(c, s[k]); }
  }

  lemma SendConnackReports(c: Conn, p: Packet, i: nat)
    requires Distinct(c.session.store) && p.Connack? && p.accepted && c.status.Connecting? && !TooLarge(c, p)
    ensures var r := SendConnack(c, p);
      multiset(Released(r.ev))[i] ==
        Freed(c.ids.used, r.c.ids.used, i) + if HasStray(c, c.session.store, i) then 1 else 0
  {
    hide HasStray, Resend, Sendable, Distinct, ApplySentProps;
    var r := if IsV5(c) then ApplySentProps(c, p.props, false) else R(c, []);
    SentPropsQuiet(c, p.props, i);
    var d := r.c.(status := Connected);
    ResendCounts(d, c.session.store, i);
    SameStrays(c, d, c.session.store, i);
    var post := PostSend(SendStored(d).c);
    var ack := [RequestSendPacket(p, None)];
    NoneReleased(post.ev, i);
    NoneReleased(ack, i);
    NoneReleased([], i);
    ReleasedAppend(r.ev, ack);
    assert multiset(Released(r.ev + ack)) == multiset(Released(r.ev)) + multiset(Released(ack));
    hide Released, Freed;
    Around(r.ev + ack, SendStored(d).ev, post.ev, i);
  }

  /** Applying properties releases nothing and leaves session, identifiers and send limit alone. */
  lemma SentPropsQuiet(c: Conn, props: seq<Prop>, i: nat)
    ensures var r := ApplySentProps(c, props, false);
      && multiset(Released(r.ev))[i] == 0 && SameSession(c, r.c) && r.c.flow.maxSend == c.flow.maxSend
  {
    SentPropsLawful(true, c, props, false);
    hide ApplySentProps, TimerRun, GateOk;
  }

  lemma ReceiveConnackReports(c: Conn, p: Packet, i: nat)
    requires Distinct(c.session.store) && p.Connack? && p.accepted && p.sessionPresent
    ensures var r := ReceiveConnack(c, p);
      multiset(Released(r.ev))[i] ==
        Freed(c.ids.used, r.c.ids.used, i) + if HasStray(Informed(c, p), c.session.store, i) then 1 else 0
  {
    hide HasStray, Resend, Sendable, Distinct;
    var c1 := c.(status := Connected);
    var r := if IsV5(c) then ApplyReceivedProps(c1, p.props, false) else R(c1, []);
    ReceivedPropsLawful(true, c1, p.props, false);
    NoneReleased([NotifyPacketReceived(p)], i);
    NoneReleased([], i);
    ResendCounts(r.c, c.session.store, i);
    hide ApplyReceivedProps;
    Around(r.ev, SendStored(r.c).ev, [NotifyPacketReceived(p)], i);
  }

  lemma StepReports(c: Conn, op: Op, i: nat)
    requires Distinct(c.session.store)
    ensures Reports(c, op, i)
  {
    hide Reports, Distinct, Informed, Arrives, RoleMaySend;
    if Resending(c, op).None? { PlainReports(c, op, i); }
    else if op.OpSend? { SentReports(c, op.version, op.packet, i); }
    else { ReceivedReports(c, op.frame, i); }
  }

  lemma PlainReports(c: Conn, op: Op, i: nat)
    requires Resending(c, op).None?
    ensures Reports(c, op, i)
  {
    hide Step, Entry, Resending;
    ExactStep(c, op, i);
  }

  /** A call that drops nothing reports what it frees. */
  lemma ExactStep(c: Conn, op: Op, i: nat)
    requires Undropped(c, op)
    ensures multiset(Released(Step(c, op).ev))[i] == Freed(Entry(c, op).ids.used, Step(c, op).c.ids.used, i)
  {
    hide Step, Entry, Undropped;
    if TakesIds(op) { OnlyTakes(c, op); } else { StepLawful(true, c, op); }
  }

  lemma OnlyTakes(c: Conn, op: Op)
    requires TakesIds(op)
    ensures Step(c, op).ev == [] && Entry(c, op).ids.used <= Step(c, op).c.ids.used
  {
    hide Receive, Send, TimerFired;
    if op.OpRestorePackets? { RestoreFrame(c, op.packets); hide RestorePackets; }
  }

  lemma SentReports(c: Conn, v: Version, p: Packet, i: nat)
    requires Distinct(c.session.store) && Resending(c, OpSend(v, p)).Some?
    ensures Reports(c, OpSend(v, p), i)
  {
    hide HasStray, SendConnack, Distinct;
    SendConnackReports(c, p, i);
    assert Step(c, OpSend(v, p)) == SendConnack(c, p);
  }

  lemma ReceivedReports(c: Conn, f: Frame, i: nat)
    requires Distinct(c.session.store) && Resending(c, OpReceive(f)).Some?
    ensures Reports(c, OpReceive(f), i)
  {
    hide HasStray, ReceiveConnack, Informed, Distinct;
    ReceiveConnackReports(c, f.packet, i);
    assert Step(c, OpReceive(f)) == ReceiveConnack(c, f.packet);
  }

  /** How often `i` goes from used to free in a run, other than by the start of a new session. */
  function Frees(c: Conn, ops: seq<Op>, i: nat): nat
    decreases |ops|
  {
    if ops == [] then 0
    else
      var d := Step(c, ops[0]).c;
      Freed(Entry(c, ops[0]).ids.used, d.ids.used, i) + Frees(d, ops[1..], i)
  }

  lemma EventsCount(c: Conn, ops: seq<Op>, i: nat)
    requires ops != []
    ensures multiset(Released(Events(c, ops)))[i] == multiset(Released(Step(c, ops[0]).ev))[i]
      + multiset(Released(Events(Step(c, ops[0]).c, ops[1..])))[i]
  {
    hide Step;
    var d := Step(c, ops[0]).c;
    ReleasedAppend(Step(c, ops[0]).ev, Events(d, ops[1..]));
    assert multiset(Released(Events(c, ops)))
        == multiset(Released(Step(c, ops[0]).ev)) + multiset(Released(Events(d, ops[1..])));
  }

  /** In every v3.1.1 run, whatever identifiers are reused, released or restored and whatever the peer
      sends, the reports of released identifiers match, one to one, the times an identifier went from used
      to free. */
  lemma {:induction false} ReleasesMatch(c: Conn, ops: seq<Op>, i: nat)
    requires Ready(c) && AllEncode(ops)
    ensures multiset(Released(Events(c, ops)))[i] == Frees(c, ops, i)
    decreases |ops|
  {
    hide Step, Entry, Ready, Encodes, Undropped, Released;
    if ops != [] {
      var d := Step(c, ops[0]).c;
      assert Encodes(ops[0]);
      StepReady(c, ops[0]);
      ExactStep(c, ops[0], i);
      ReleasesMatch(d, ops[1..], i);
      EventsCount(c, ops, i);
    } else {
      NoneReleased([], i);
    }
  }

  /** How often a run drops a stray stored under `i`. */
  ghost function Strays(c: Conn, ops: seq<Op>, i: nat): nat
    decreases |ops|
  {
    if ops == [] then 0
    else
      var from := Resending(c, ops[0]);
      (if from.Some? && HasStray(from.value, c.session.store, i) then 1 else 0) + Strays(Step(c, ops[0]).c, ops[1..], i)
  }

  /** In every run of either version the reports of an identifier are the times it went from used to free and
      the times a stray of it was dropped. */
  lemma {:induction false} ReleasesCounted(c: Conn, ops: seq<Op>, i: nat)
    requires Distinct(c.session.store)
    ensures multiset(Released(Events(c, ops)))[i] == Frees(c, ops, i) + Strays(c, ops, i)
    decreases |ops|
  {
    hide Step, Entry, Resending, HasStray, Distinct, Released, NewOf;
    if ops != [] {
      StepReports(c, ops[0], i);
      StepSteps(c, ops[0]);
      ReleasesCounted(Step(c, ops[0]).c, ops[1..], i);
      EventsCount(c, ops, i);
    } else {
      NoneReleased([], i);
    }
  }

  // ---------------------------------------------------------------- how strays come about

  /** Every stored identifier is in use. */
  predicate StoredInUse(c: Conn) { forall k :: 0 <= k < |c.session.store| ==> IdOf(c.session.store[k]) in c.ids.used }

  /** A PUBLISH that is stored and then turned away, its identifier given back. */
  predicate Orphans(c: Conn, p: Publish) { Admitted(c, p) && Kept(c, p) && TurnedAway(c, p) }

  /** A v5.0 QoS 1 or 2 PUBLISH under an identifier that is not stored leaves every stored identifier in use
      exactly if it is not stored and then turned away. */
  lemma OrphanIff(c: Conn, p: Publish)
    requires IsV5(c) && StoredInUse(c) && !p.qos.AtMostOnce? && InRange(p.pid) && !Has(c.session.store, p.pid)
    ensures StoredInUse(SendPublishV5(c, p).c) <==> !Orphans(c, p)
  {
    hide SendPublishV5, Step;
    PublishPasses(c, p);
    var d := SendPublishV5(c, p).c;
    hide SendPublishV5, BadAlias, QuotaFull, TooLarge, ForStore;
    assert forall k :: 0 <= k < |c.session.store| ==> IdOf(c.session.store[k]) != p.pid;
    if Kept(c, p) && d.session.store == c.session.store + [ForStore(c, p)] {
      assert IdOf(d.session.store[|c.session.store|]) == p.pid by { assert IdOf(ForStore(c, p)) == p.pid; }
    }
  }
}
