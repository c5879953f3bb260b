/** Identifiers, acknowledgement sets and store of a v5.0 connection. Unlike v3.1.1 the v5.0 paths can break
    their agreement; every call keeps it exactly if it is none of the five listed in `Breaks`. */
module Session5 {
  import opened Packets
  import opened Store
  import opened Engine
  import opened Session
  import opened Laws
  import opened Frames
  import Releases
  import Runs

  ghost predicate Matched(i: Ids, s: seq<StorePacket>) {
    && Distinct(s)
    && forall k :: 0 <= k < |s| ==>
         Awaited(i, s[k]) && s[k].version.V5_0? && (s[k].StoredPublish? ==> !s[k].pub.qos.AtMostOnce?)
  }

  /** The five sets are disjoint and in use, and every stored identifier sits in the set its expected response
      names. */
  ghost predicate Consistent5(c: Conn) { IsV5(c) && IdsOk(c.ids) && Matched(c.ids, c.session.store) }

  /** What the host has to respect: identifiers in flight are neither reused nor released. The peer may send
      anything. */
  ghost predicate Allowed5(c: Conn, op: Op) {
    match op
    case OpSend(_, p) =>
      && (p.PublishPacket? && !p.pub.qos.AtMostOnce? ==> Fresh(c, p.pub.pid))
      && (p.Subscribe? || p.Unsubscribe? || p.Pubrel? ==> Fresh(c, p.pid))
    case OpRelease(id) => Fresh(c, id)
    case OpRestorePackets(_) => false
    case OpClosed(o) => DrainOk(c, o)
    case _ => true
  }

  /** A PUBLISH is turned away after it was awaited. */
  predicate LateRefusal(c: Conn, p: Publish) {
    !p.qos.AtMostOnce? && Admitted(c, p) && !Unresolved(c, p) && TurnedAway(c, p)
  }

  /** A PUBREL is stored without being awaited. */
  predicate EarlyRelease(c: Conn, p: Packet)
    requires p.Pubrel?
  {
    !TooLarge(c, p) && !IsConnected(c) && c.session.needStore && IsUsed(c, p.pid)
  }

  /** The calls after which identifiers and store no longer agree: a late refusal, an early PUBREL, a resend that
      drops a packet, a CONNACK that wipes out awaited requests, and a close that keeps the store but not the
      identifiers. */
  predicate Breaks(c: Conn, op: Op) {
    || !Undropped(c, op)
    || match op
       case OpSend(v, p) =>
         && v.V5_0? && RoleMaySend(c.opt.role, v, p)
         && ((p.PublishPacket? && LateRefusal(c, p.pub)) || (p.Pubrel? && EarlyRelease(c, p)))
       case OpReceive(f) => f.Good? && f.packet.Connack? && Arrives(c, f) && !Harmless(c, f.packet)
       case OpClosed(_) => !c.session.needStore && c.session.store != []
       case _ => false
  }

  // ---------------------------------------------------------------- parts

  /** Nothing changes that matters here. */
  predicate Still(c: Conn, d: Conn) {
    d.version == c.version && d.ids == c.ids && d.session.store == c.session.store
  }

  lemma StillKeeps(c: Conn, d: Conn)
    requires Consistent5(c) && Still(c, d)
    ensures Consistent5(d)
  {
  }

  /** An identifier that is not in flight may leave the pool or enter it. */
  lemma PoolKeeps(c: Conn, d: Conn, id: nat)
    requires Consistent5(c) && Fresh(c, id) && Still(c, d.(ids := c.ids))
    requires d.ids == c.ids.(used := c.ids.used - {id}) || d.ids == c.ids.(used := c.ids.used + {id})
    ensures Consistent5(d)
  {
    forall k | 0 <= k < |c.session.store| ensures Awaited(d.ids, c.session.store[k]) {
      assert Awaited(c.ids, c.session.store[k]);
    }
  }

  lemma NotStored(c: Conn, id: nat)
    requires Consistent5(c) && Fresh(c, id)
    ensures !Has(c.session.store, id)
  {
    forall k | 0 <= k < |c.session.store| ensures IdOf(c.session.store[k]) != id {
      assert Awaited(c.ids, c.session.store[k]);
    }
  }

  /** Awaiting a response for an identifier in use, with or without storing a packet for it. */
  lemma AwaitedKeeps(c: Conn, d: Conn, id: nat, s: StorePacket)
    requires Consistent5(c) && Fresh(c, id) && id in c.ids.used && IdOf(s) == id && s.version.V5_0?
    requires s.StoredPublish? ==> !s.pub.qos.AtMostOnce?
    requires d.ids == match ResponseOf(s).kind
               case AwaitPuback => c.ids.(puback := c.ids.puback + {id})
               case AwaitPubrec => c.ids.(pubrec := c.ids.pubrec + {id})
               case AwaitPubcomp => c.ids.(pubcomp := c.ids.pubcomp + {id})
    requires d.session.store == c.session.store || d.session.store == c.session.store + [s]
    requires d.version == c.version
    ensures Consistent5(d)
  {
    NotStored(c, id);
    assert IdsOk(d.ids);
    forall k | 0 <= k < |c.session.store| ensures Awaited(d.ids, c.session.store[k]) {
      assert Awaited(c.ids, c.session.store[k]);
    }
    hide IdsOk;
  }

  predicate AwaitedAs(i: Ids, k: ResponseKind, id: nat) {
    match k case AwaitPuback => id in i.puback case AwaitPubrec => id in i.pubrec case AwaitPubcomp => id in i.pubcomp
  }

  predicate WithoutId(i: Ids, j: Ids, id: nat) {
    && j.suback == i.suback && j.unsuback == i.unsuback && j.puback == i.puback - {id}
    && j.pubrec == i.pubrec - {id} && j.pubcomp == i.pubcomp - {id}
    && (j.used == i.used || j.used == i.used - {id})
  }

  /** An acknowledgement takes the identifier out of its set and out of the store, and perhaps out of use. */
  lemma AckKeeps5(c: Conn, d: Conn, k: ResponseKind, id: nat)
    requires Consistent5(c) && AwaitedAs(c.ids, k, id) && WithoutId(c.ids, d.ids, id)
    requires d.session.store == Erase(c.session.store, Response(V5_0, k), id)
    requires d.version == c.version
    ensures Consistent5(d) && !Has(d.session.store, id)
  {
    ErasedMatches(c, d.ids, k, id);
    hide Erase, Matched;
    IdsShrink(c.ids, d.ids);
  }

  lemma ErasedMatches(c: Conn, i: Ids, k: ResponseKind, id: nat)
    requires Consistent5(c) && AwaitedAs(c.ids, k, id) && WithoutId(c.ids, i, id)
    ensures var t := Erase(c.session.store, Response(V5_0, k), id); Matched(i, t) && !Has(t, id)
  {
    hide Erase, Has, WithoutId;
    var s := c.session.store;
    forall p | p in s && IdOf(p) == id ensures ResponseOf(p) == Response(V5_0, k) { assert Awaited(c.ids, p); }
    hide IdsOk, Awaited, AwaitedAs;
    EraseRemoves(s, Response(V5_0, k), id);
    OthersMatched(c.ids, s, i, Erase(s, Response(V5_0, k), id), id);
  }

  lemma OthersMatched(i: Ids, s: seq<StorePacket>, j: Ids, t: seq<StorePacket>, id: nat)
    requires Matched(i, s) && WithoutId(i, j, id) && Distinct(t)
    requires forall p :: p in t ==> p in s && IdOf(p) != id
    ensures Matched(j, t)
  {
    hide Distinct;
    forall n | 0 <= n < |t|
      ensures Awaited(j, t[n]) && t[n].version.V5_0? && (t[n].StoredPublish? ==> !t[n].pub.qos.AtMostOnce?)
    {
      assert t[n] in s && IdOf(t[n]) != id;
      var m :| 0 <= m < |s| && s[m] == t[n];
      assert Awaited(i, s[m]);
    }
  }

  // ---------------------------------------------------------------- resending

  predicate AllGoOut(c: Conn) { forall k :: 0 <= k < |c.session.store| ==> Fits(c, c.session.store[k]) }

  /** Resending keeps agreement exactly if nothing is dropped. */
  lemma SendStoredIff(c: Conn)
    requires Consistent5(c)
    ensures Consistent5(SendStored(c).c) <==> AllGoOut(c)
  {
    var s := c.session.store;
    if AllGoOut(c) {
      ResendKeeps(c, s);
    } else {
      var k :| 0 <= k < |s| && !Fits(c, s[k]);
      var i := IdOf(s[k]);
      ResendMoves(c, s, i);
      var d := SendStored(c).c;
      assert Awaited(c.ids, s[k]) && InFlight(d.ids, i) && i !in d.ids.used;
    }
  }

  // ---------------------------------------------------------------- sending

  lemma PublishIff(c: Conn, p: Publish)
    requires Consistent5(c) && (!p.qos.AtMostOnce? ==> Fresh(c, p.pid))
    ensures Consistent5(SendPublishV5(c, p).c) <==> !LateRefusal(c, p)
  {
    hide SendPublishV5, BadAlias, QuotaFull, TooLarge, IdsOk, Matched, Has;
    var d := SendPublishV5(c, p).c;
    if p.qos.AtMostOnce? {
      QuietlySent(c, p);
      StillKeeps(c, d);
    } else {
      PublishPasses(c, p);
      if !Admitted(c, p) || Unresolved(c, p) {
        assert Consistent5(d) by {
          hide IdsOk, Matched;
          if d.ids.used == c.ids.used { StillKeeps(c, d); } else { PoolKeeps(c, d, p.pid); }
        }
      }
      else if TurnedAway(c, p) { TurnedBreaks(c, p, d); }
      else {
        assert Consistent5(d) by {
          hide IdsOk, Matched;
          AwaitedKeeps(c, d, p.pid, ForStore(c, p));
        }
      }
    }
  }

  lemma TurnedBreaks(c: Conn, p: Publish, d: Conn)
    requires Consistent5(c) && InRange(p.pid) && Passes(Taken(c, p), d, c.ids.used - {p.pid}, c.flow.sendCount)
    ensures !Consistent5(d)
  {
    assert InFlight(d.ids, p.pid) && p.pid !in d.ids.used;
  }

  lemma PubrelIff(c: Conn, p: Packet)
    requires Consistent5(c) && p.Pubrel? && Fresh(c, p.pid)
    ensures Consistent5(SendPubrel(c, p).c) <==> !EarlyRelease(c, p)
  {
    var d := SendPubrel(c, p).c;
    var s := StoredPubrel(c.version, p.pid, p.rc, p.rem);
    NotStored(c, p.pid);
    hide Has, TooLarge;
    if EarlyRelease(c, p) {
      assert d.session.store[|c.session.store|] == s && !Awaited(d.ids, s);
    } else if d.ids == c.ids {
      StillKeeps(c, d);
    } else {
      hide IdsOk, Matched;
      AwaitedKeeps(c, d, p.pid, s);
    }
  }

  lemma RequestKeeps5(c: Conn, p: Packet)
    requires Consistent5(c) && (p.Subscribe? || p.Unsubscribe?) && Fresh(c, p.pid)
    ensures Consistent5(SendRequest(c, p).c)
  {
    var d := SendRequest(c, p).c;
    forall k | 0 <= k < |c.session.store| ensures Awaited(d.ids, c.session.store[k]) {
      assert Awaited(c.ids, c.session.store[k]);
    }
    assert IdsOk(d.ids);
    hide IdsOk;
  }

  lemma GreetKeeps5(c: Conn, p: Packet)
    requires Consistent5(c) && p.Connect?
    ensures Consistent5(Greeting(c, p)) && Consistent5(Welcomed(c, p))
  {
    GreetMoves(c, p);
    GreetedKeeps(c, Greeting(c, p), p.clean);
    GreetedKeeps(c, Welcomed(c, p), p.clean);
    hide Greeting, Welcomed;
  }

  lemma GreetedKeeps(c: Conn, d: Conn, clean: bool)
    requires Consistent5(c) && Greeted(c, d, clean)
    ensures Consistent5(d)
  {
    forall k | 0 <= k < |d.session.store| ensures Awaited(d.ids, d.session.store[k]) {
      assert Awaited(c.ids, c.session.store[k]);
    }
  }

  lemma SendConnackIff(c: Conn, p: Packet)
    requires Consistent5(c) && p.Connack?
    ensures Consistent5(SendConnack(c, p).c) <==>
      !(p.accepted && c.status.Connecting? && !TooLarge(c, p) && !AllGoOut(c))
  {
    hide ApplySentProps, SendStored, TooLarge, IdsOk, Matched;
    var d := SendConnack(c, p).c;
    if p.accepted && c.status.Connecting? && !TooLarge(c, p) {
      SentPropsLawful(false, c, p.props, false);
      hide Lawful;
      var e := ApplySentProps(c, p.props, false).c.(status := Connected);
      StillKeeps(c, e);
      SendStoredIff(e);
      assert AllGoOut(e) <==> AllGoOut(c);
      var st := SendStored(e).c;
      assert Consistent5(st) <==> Consistent5(d);
    } else {
      StillKeeps(c, d);
    }
  }

  lemma DispatchIff(c: Conn, p: Packet)
    requires Consistent5(c) && Allowed5(c, OpSend(V5_0, p)) && RoleMaySend(c.opt.role, V5_0, p)
    ensures Consistent5(Dispatch(c, p).c) <==> !Breaks(c, OpSend(V5_0, p))
  {
    hide SendPublishV3, SendPublishV5, SendPubrel, SendConnack, Greeting, SendRequest, IdsOk, Matched, TooLarge,
        LateRefusal, EarlyRelease;
    match p
    case Connect(_, _, _, _) =>
      assert Consistent5(SendConnect(c, p).c) by {
        hide Greeting, IdsOk, Matched, TooLarge, Welcomed;
        GreetKeeps5(c, p);
        var d := SendConnect(c, p).c;
        StillKeeps(c, c);
        if !TooLarge(c, p) && c.status.Disconnected? { StillKeeps(Greeting(c, p), d); }
      }
    case Connack(_, _, _, _) => SendConnackIff(c, p);
    case PublishPacket(pub) => PublishIff(c, pub);
    case Pubrel(_, _, _) => PubrelIff(c, p);
    case Subscribe(_, _) => RequestKeeps5(c, p);
    case Unsubscribe(_, _) => RequestKeeps5(c, p);
    case _ => DispatchCalm(c, p); StillKeeps(c, Dispatch(c, p).c);
  }

  // ---------------------------------------------------------------- receiving

  lemma ReceiveConnackIff(c: Conn, p: Packet)
    requires Consistent5(c) && p.Connack?
    ensures Consistent5(ReceiveConnack(c, p).c) <==>
      Harmless(c, p) && (p.accepted && p.sessionPresent ==>
        forall k :: 0 <= k < |c.session.store| ==> Fits(Informed(c, p), c.session.store[k]))
  {
    var d := ReceiveConnack(c, p).c;
    if !p.accepted {
      StillKeeps(c, d);
    } else {
      InformedMoves(c, p);
      var e := Informed(c, p);
      StillKeeps(c, e);
      assert d == if p.sessionPresent then SendStored(e).c else ClearSession(e);
      hide ReceiveConnack, Informed, SendStored;
      if p.sessionPresent {
        SendStoredIff(e);
      } else {
        if id :| id in c.ids.suback { assert InFlight(d.ids, id) && id !in d.ids.used; }
        if id :| id in c.ids.unsuback { assert InFlight(d.ids, id) && id !in d.ids.used; }
      }
    }
  }

  lemma PubrecKeeps5(c: Conn, p: Packet)
    requires Consistent5(c) && p.Pubrec?
    ensures Consistent5(ReceivePubrec(c, p).c)
  {
    hide Erase, SendPubrel, IdsOk, Matched;
    var d := ReceivePubrec(c, p).c;
    if p.pid !in c.ids.pubrec {
      StillKeeps(c, d);
    } else {
      InFlightUsed(c, p.pid);
      var c1 := c.(ids := c.ids.(pubrec := c.ids.pubrec - {p.pid}),
          session := c.session.(store := Erase(c.session.store, Response(V5_0, AwaitPubrec), p.pid)));
      AckKeeps5(c, c1, AwaitPubrec, p.pid);
      if p.rc.Some? && p.rc.value != 0 {
        AckKeeps5(c, d, AwaitPubrec, p.pid);
      } else if c.opt.autoPub && IsConnected(c) {
        var r := SendPubrel(c1, Pubrel(p.pid, None, 2)).c;
        PubrelIff(c1, Pubrel(p.pid, None, 2));
        StillKeeps(r, d);
      } else {
        StillKeeps(c1, d);
      }
    }
  }

  /** An awaited identifier is in use, in range, and awaited once. */
  lemma InFlightUsed(c: Conn, id: nat)
    requires Consistent5(c) && InFlight(c.ids, id)
    ensures id in c.ids.used && InRange(id)
    ensures id in c.ids.puback ==> c.ids.pubrec == c.ids.pubrec - {id} && c.ids.pubcomp == c.ids.pubcomp - {id}
    ensures id in c.ids.pubrec ==> c.ids.puback == c.ids.puback - {id} && c.ids.pubcomp == c.ids.pubcomp - {id}
    ensures id in c.ids.pubrec ==> id !in c.ids.suback && id !in c.ids.unsuback
    ensures id in c.ids.pubcomp ==> c.ids.puback == c.ids.puback - {id} && c.ids.pubrec == c.ids.pubrec - {id}
  {
  }

  lemma AckedKeeps5(c: Conn, p: Packet)
    requires Consistent5(c) && (p.Puback? || p.Pubcomp?)
    ensures Consistent5(ReceivePacket(c, p).c)
  {
    hide Erase, IdsOk, Matched;
    var d := ReceivePacket(c, p).c;
    if p.Puback? && p.pid in c.ids.puback {
      InFlightUsed(c, p.pid);
      AckKeeps5(c, d, AwaitPuback, p.pid);
    } else if p.Pubcomp? && p.pid in c.ids.pubcomp {
      InFlightUsed(c, p.pid);
      AckKeeps5(c, d, AwaitPubcomp, p.pid);
    } else {
      StillKeeps(c, d);
    }
  }

  lemma RequestAcked5(c: Conn, p: Packet)
    requires Consistent5(c) && (p.Suback? || p.Unsuback?)
    ensures Consistent5(ReceivePacket(c, p).c)
  {
    var d := ReceivePacket(c, p).c;
    assert d.session.store == c.session.store;
    assert IdsOk(d.ids);
    forall k | 0 <= k < |c.session.store| ensures Awaited(d.ids, c.session.store[k]) {
      assert Awaited(c.ids, c.session.store[k]);
    }
    hide ReceivePacket, IdsOk;
  }

  lemma WelcomeKeeps5(c: Conn, p: Packet)
    requires Consistent5(c) && p.Connect?
    ensures Consistent5(ReceiveConnect(c, p).c)
  {
    hide IdsOk, Matched, Welcomed, Fail;
    GreetKeeps5(c, p);
    FailCalm(c, ProtocolError);
    var d := ReceiveConnect(c, p).c;
    if c.status.Disconnected? { StillKeeps(Welcomed(c, p), d); } else { StillKeeps(c, d); }
  }

  lemma ReceivePacketIff(c: Conn, p: Packet)
    requires Consistent5(c)
    ensures Consistent5(ReceivePacket(c, p).c) <==>
      (p.Connack? ==> Harmless(c, p) && (p.accepted && p.sessionPresent ==>
        forall k :: 0 <= k < |c.session.store| ==> Fits(Informed(c, p), c.session.store[k])))
  {
    hide ReceiveConnect, ReceiveConnack, ReceivePublishV5, ReceivePubrec, ReceivePubrel, IdsOk, Matched;
    match p
    case Connect(_, _, _, _) => WelcomeKeeps5(c, p);
    case Connack(_, _, _, _) => ReceiveConnackIff(c, p);
    case Pubrec(_, _, _) => PubrecKeeps5(c, p);
    case Puback(_, _, _) => AckedKeeps5(c, p);
    case Pubcomp(_, _, _) => AckedKeeps5(c, p);
    case Suback(_, _) => RequestAcked5(c, p);
    case Unsuback(_, _) => RequestAcked5(c, p);
    case _ => ReceiveCalm(c, p); StillKeeps(c, ReceivePacket(c, p).c);
  }

  lemma ReceiveIff(c: Conn, f: Frame)
    requires Consistent5(c)
    ensures Consistent5(Receive(c, f).c) <==> !Breaks(c, OpReceive(f))
  {
    hide ReceivePacket, IdsOk, Matched, Informed;
    var d := Receive(c, f).c;
    if f.Good? && Arrives(c, f) {
      ReceivePacketIff(c, f.packet);
      assert d == ReceivePacket(c, f.packet).c;
    } else {
      UnreadCalm(c, f);
      StillKeeps(c, d);
    }
  }

  // ---------------------------------------------------------------- closing, and every call

  lemma ClosedIff(c: Conn, o: DrainOrder)
    requires Consistent5(c) && DrainOk(c, o)
    ensures Consistent5(Closed(c, o).c) <==> (c.session.needStore || c.session.store == [])
  {
    var d := Closed(c, o).c;
    ClosedMoves(c, o);
    hide Closed;
    if c.session.needStore || c.session.store == [] {
      forall k | 0 <= k < |c.session.store| ensures Awaited(d.ids, c.session.store[k]) {
        assert Awaited(c.ids, c.session.store[k]);
      }
      IdsShrink(c.ids, d.ids);
    } else {
      assert !Awaited(d.ids, d.session.store[0]);
    }
  }

  lemma SettingKeeps5(c: Conn, op: Op)
    requires Consistent5(c) && Allowed5(c, op) && !op.OpSend? && !op.OpReceive? && !op.OpClosed?
    ensures Consistent5(Step(c, op).c)
  {
    hide Acquire, IdsOk, Matched, Receive, Send, TimerFired;
    var d := Step(c, op).c;
    match op
    case OpRelease(id) =>
      if d.ids == c.ids { StillKeeps(c, d); } else { PoolKeeps(c, d, id); }
    case OpAcquire => AcquireKeeps5(c);
    case OpRegister(id) =>
      assert d.ids != c.ids ==> Grown(c.ids, id, d.ids);
      TakenKeepsPool(c, d);
    case OpTimer(k) => TimerCalm(c, k); StillKeeps(c, d);
    case _ => StillKeeps(c, d);
  }

  lemma AcquireKeeps5(c: Conn)
    requires Consistent5(c)
    ensures Consistent5(Acquire(c).0)
  {
    hide IdsOk, Matched;
    LeastFreeInRange(c.ids.used, 1);
    var d, id := Acquire(c).0, Acquire(c).1;
    assert id.Some? ==> Grown(c.ids, id.value, d.ids);
    TakenKeepsPool(c, d);
  }

  predicate Grown(i: Ids, id: nat, j: Ids) { InRange(id) && id !in i.used && j == i.(used := i.used + {id}) }

  lemma TakenKeepsPool(c: Conn, d: Conn)
    requires Consistent5(c) && Still(c, d.(ids := c.ids))
    requires d.ids == c.ids || exists id :: Grown(c.ids, id, d.ids)
    ensures Consistent5(d)
  {
    if d.ids == c.ids {
      StillKeeps(c, d);
    } else {
      var id :| Grown(c.ids, id, d.ids);
      assert !InFlight(c.ids, id);
      PoolKeeps(c, d, id);
    }
  }

  /** Every call on a v5.0 connection, whatever the peer sends, keeps identifiers, sets and store in agreement
      exactly if it is not one that breaks it. */
  lemma StepKeepsIff(c: Conn, op: Op)
    requires Consistent5(c) && Allowed5(c, op)
    ensures Consistent5(Step(c, op).c) <==> !Breaks(c, op)
  {
    hide IdsOk, Matched, Send, Receive, Closed;
    match op
    case OpSend(v, p) => SendIff(c, v, p);
    case OpReceive(f) => ReceiveIff(c, f);
    case OpClosed(o) => ClosedIff(c, o);
    case _ => SettingKeeps5(c, op);
  }

  lemma SendIff(c: Conn, v: Version, p: Packet)
    requires Consistent5(c) && Allowed5(c, OpSend(v, p))
    ensures Consistent5(Send(c, v, p).c) <==> !Breaks(c, OpSend(v, p))
  {
    hide IdsOk, Matched, Dispatch, RoleMaySend, LateRefusal, EarlyRelease;
    if v.V5_0? && RoleMaySend(c.opt.role, v, p) { DispatchIff(c, p); } else { StillKeeps(c, Send(c, v, p).c); }
  }

  // ---------------------------------------------------------------- runs

  ghost predicate AllAllowed5(c: Conn, ops: seq<Op>)
    decreases |ops|
  {
    ops == [] || (Allowed5(c, ops[0]) && AllAllowed5(Step(c, ops[0]).c, ops[1..]))
  }

  ghost predicate NeverBreaks(c: Conn, ops: seq<Op>)
    decreases |ops|
  {
    ops == [] || (!Breaks(c, ops[0]) && NeverBreaks(Step(c, ops[0]).c, ops[1..]))
  }

  /** In every v5.0 run without such a call the agreement holds throughout and each report of a released
      identifier matches one that went free. */
  lemma {:induction false} RunStaysConsistent5(c: Conn, ops: seq<Op>, i: nat)
    requires Consistent5(c) && AllAllowed5(c, ops) && NeverBreaks(c, ops)
    ensures Consistent5(Runs.Final(c, ops))
    ensures multiset(Released(Runs.Events(c, ops)))[i] == Releases.Frees(c, ops, i)
    decreases |ops|
  {
    hide Step;
    if ops != [] {
      hide Step, IdsOk, Matched, Allowed5, Entry;
      var d := Step(c, ops[0]).c;
      StepKeepsIff(c, ops[0]);
      RunStaysConsistent5(d, ops[1..], i);
      Releases.ExactStep(c, ops[0], i);
      hide Breaks;
      ReleasedAppend(Step(c, ops[0]).ev, Runs.Events(d, ops[1..]));
      assert multiset(Released(Runs.Events(c, ops)))
          == multiset(Released(Step(c, ops[0]).ev)) + multiset(Released(Runs.Events(d, ops[1..])));
    }
  }
}
