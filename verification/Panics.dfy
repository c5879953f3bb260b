/** Where a v5.0 connection can fail an assert or an unwrap, call by call and over whole runs. */
module Panics {
  import opened Packets
  import opened TopicAlias
  import opened Store
  import opened Engine
  import opened Frames
  import opened Laws
  import opened Session
  import opened Session5
  import opened Boundaries
  import SendCount

  /** The table of sent aliases is in order. */
  ghost predicate AliasesOk(c: Conn) {
    c.alias.send.Some? ==> Wf(c.alias.send.value) && c.alias.send.value.max >= 1
  }

  // ---------------------------------------------------------------- publishing

  /** The send count is as large as it can get. */
  predicate CountEnds(c: Conn) { c.flow.sendMax.Some? && c.flow.sendCount == 0xFFFF }

  /** After the alias of `p` was dealt with in `c`. */
  lemma CountedPanics(c: Conn, c1: Conn, p: Publish, q: Publish, release: Option<nat>)
    requires c1 == c.(alias := c1.alias) && AliasesOk(c1) && q.qos == p.qos && q.pid == p.pid
    requires p.qos.AtMostOnce? || InRange(p.pid)
    ensures var d := SendCounted(c1, q, release).c;
      AliasesOk(d) && (d.panicked <==> c.panicked || (!p.qos.AtMostOnce? && !QuotaFull(c) && CountEnds(c)))
  {
    hide Wf;
  }

  lemma BindOk(c: Conn, t: Topic, a: nat)
    requires AliasesOk(c) && t != [] && (c.alias.send.Some? ==> 1 <= a <= c.alias.send.value.max)
    ensures var d := BindAlias(c, t, a); AliasesOk(d) && d == c.(alias := d.alias)
  {
    if c.alias.send.Some? {
      InsertKeeps(c.alias.send.value, t, a);
      InsertTaken(c.alias.send.value, t, a);
    }
    hide Wf, InsertOrUpdate;
  }

  lemma LruInRange(m: AliasSend)
    requires Wf(m) && m.max >= 1
    ensures 1 <= LruAlias(m) <= m.max
  {
    FirstVacantIs(m, 1);
  }

  lemma ResolveOk(c: Conn, a: Option<nat>)
    requires AliasesOk(c)
    ensures var d := ResolveAlias(c, a).0; AliasesOk(d) && d == c.(alias := d.alias)
  {
    if a.Some? && AliasInRange(c, a.value) { TouchKeeps(c.alias.send.value, a.value); }
    hide Wf, Peek;
  }

  lemma AliasedPanics(c: Conn, p: Publish, release: Option<nat>, validated: bool)
    requires AliasesOk(c) && (p.qos.AtMostOnce? || InRange(p.pid))
    ensures var d := SendAliased(c, p, release, validated).c;
      var bad := BadAlias(c, p) && !(p.topic == [] && validated);
      && AliasesOk(d)
      && (d.panicked <==> c.panicked || (!p.qos.AtMostOnce? && !bad && !QuotaFull(c) && CountEnds(c)))
  {
    hide SendCounted, BindAlias, ResolveAlias, FindByTopic, LruAlias, AliasesOk;
    CountedPanics(c, c, p, p, release);
    if p.topic == [] {
      ResolveOk(c, p.alias);
      CountedPanics(c, ResolveAlias(c, p.alias).0, p, p, release);
      RefusedOk(c, ResolveAlias(c, p.alias).0, p);
    } else if p.alias.Some? {
      if AliasInRange(c, p.alias.value) {
        BindOk(c, p.topic, p.alias.value);
        CountedPanics(c, BindAlias(c, p.topic, p.alias.value), p, p, release);
      }
      RefusedOk(c, c, p);
    } else if c.alias.send.Some? {
      MappedPanics(c, p, release);
    }
  }

  lemma MappedPanics(c: Conn, p: Publish, release: Option<nat>)
    requires AliasesOk(c) && (p.qos.AtMostOnce? || InRange(p.pid)) && c.alias.send.Some? && p.topic != []
    ensures var m := c.alias.send.value;
      var a := LruAlias(m);
      var d := SendCounted(BindAlias(c, p.topic, a), ByAlias(p, a), release).c;
      AliasesOk(d) && (d.panicked <==> c.panicked || (!p.qos.AtMostOnce? && !QuotaFull(c) && CountEnds(c)))
    ensures forall a {:trigger ByAlias(p, a)} ::
      var d := SendCounted(c, ByAlias(p, a), release).c;
      AliasesOk(d) && (d.panicked <==> c.panicked || (!p.qos.AtMostOnce? && !QuotaFull(c) && CountEnds(c)))
  {
    var a := LruAlias(c.alias.send.value);
    LruInRange(c.alias.send.value);
    hide SendCounted, BindAlias, LruAlias, Wf;
    BindOk(c, p.topic, a);
    CountedPanics(c, BindAlias(c, p.topic, a), p, ByAlias(p, a), release);
    forall b ensures var d := SendCounted(c, ByAlias(p, b), release).c;
      AliasesOk(d) && (d.panicked <==> c.panicked || (!p.qos.AtMostOnce? && !QuotaFull(c) && CountEnds(c)))
    {
      CountedPanics(c, c, p, ByAlias(p, b), release);
    }
  }

  lemma RefusedOk(c: Conn, c1: Conn, p: Publish)
    requires c1 == c.(alias := c1.alias) && AliasesOk(c1) && (p.qos.AtMostOnce? || InRange(p.pid))
    ensures var d := RefusePublish(c1, PacketNotAllowedToSend, p).c; AliasesOk(d) && d.panicked == c.panicked
  {
    hide Wf;
  }

  /** A PUBLISH that is to be stored under an identifier that is stored, or under a topic that is none, or that
      overflows the send count. */
  predicate PublishFails(c: Conn, p: Publish) {
    && Admitted(c, p) && !Unresolved(c, p)
    && (|| (Stores(c) && (Has(c.session.store, p.pid) || (p.topic == [] && HasWildcard(StoredTopic(c, p)))))
        || (!TurnedAway(c, p) && CountEnds(c)))
  }

  /** Sending a v5.0 QoS 1 or 2 PUBLISH fails an unwrap or overflows exactly in these cases. */
  lemma SendPanicsIff(c: Conn, p: Publish)
    requires IsV5(c) && !c.panicked && AliasesOk(c) && !p.qos.AtMostOnce? && InRange(p.pid)
    ensures var d := SendPublishV5(c, p).c; AliasesOk(d) && (d.panicked <==> PublishFails(c, p))
  {
    hide SendAliased, Wf, Has, Touch, Peek, HasWildcard;
    ResolveOk(c, p.alias);
    if Admitted(c, p) {
      if !Stores(c) {
        AliasedPanics(Await(c, p), p, Some(p.pid), false);
      } else if p.topic != [] {
        AliasedPanics(Await(Keep(c, ForStore(c, p)), p), p, None, false);
      } else {
        var (c1, t) := ResolveAlias(c, p.alias);
        if t.Some? {
          var c2 := if HasWildcard(t.value) then Panic(c1)
                    else Keep(c1, StoredPublish(V5_0, p.(topic := t.value, alias := None, dup := true)));
          AliasedPanics(Await(c2, p), p, None, true);
        }
      }
    }
  }

  // ---------------------------------------------------------------- handshake

  lemma {:induction false} SentPropsPanic(c: Conn, props: seq<Prop>, connect: bool)
    ensures ApplySentProps(c, props, connect).c.panicked <==> c.panicked || ZeroLimit(props)
    decreases |props|
  {
    if props != [] {
      var d := SentProp(c, props[0], connect).c;
      assert d.panicked <==> c.panicked || ZeroLimit([props[0]]);
      hide SentProp;
      SentPropsPanic(d, props[1..], connect);
      assert props == [props[0]] + props[1..];
    }
  }

  lemma {:induction false} ReceivedPropsOk(c: Conn, props: seq<Prop>, connect: bool)
    requires AliasesOk(c)
    ensures AliasesOk(ApplyReceivedProps(c, props, connect).c)
    decreases |props|
  {
    if props != [] {
      var d := ReceivedProp(c, props[0], connect).c;
      assert AliasesOk(d) by { if props[0].TopicAliasMaximum? { assert Wf(NewSend(props[0].max)); } }
      hide ReceivedProp, Wf;
      ReceivedPropsOk(d, props[1..], connect);
    }
  }

  lemma {:induction false} ResendSound(c: Conn, s: seq<StorePacket>)
    requires Distinct(s) && forall k :: 0 <= k < |s| ==> IdOf(s[k]) in c.ids.used && InRange(IdOf(s[k]))
    ensures Resend(c, s).c.panicked == c.panicked
    decreases |s|
  {
    if s != [] {
      assert forall k :: 0 <= k < |s[1..]| ==> s[1..][k] == s[k + 1] && IdOf(s[k + 1]) != IdOf(s[0]);
      ResendSound(c, s[1..]);
      ResendSound(c.(ids := c.ids.(used := c.ids.used - {IdOf(s[0])})), s[1..]);
      hide Fits;
    }
  }

  lemma SendStoredSound(c: Conn)
    requires Consistent5(c)
    ensures var d := SendStored(c).c; d.panicked == c.panicked && d.alias == c.alias
  {
    var s := c.session.store;
    forall k | 0 <= k < |s| ensures IdOf(s[k]) in c.ids.used && InRange(IdOf(s[k])) {
      assert Awaited(c.ids, s[k]) && InFlight(c.ids, IdOf(s[k]));
    }
    ResendSound(c, s);
    SendStoredMoves(c);
    hide Resend, Sendable;
  }

  /** The panic flag and the aliases after a call: sound but for `fails`. */
  ghost predicate Ends(d: Conn, fails: bool) { AliasesOk(d) && (d.panicked <==> fails) }

  lemma ConnectEnds(c: Conn, p: Packet)
    requires IsV5(c) && !c.panicked && AliasesOk(c) && p.Connect?
    ensures Ends(Greeting(c, p), ZeroLimit(p.props)) && Ends(Welcomed(c, p), TopicAliasMaximum(0) in p.props)
  {
    hide ApplySentProps, ApplyReceivedProps, Wf;
    var c1 := Initialize(c, true).(status := Connecting);
    var c2 := c1.(timers := c1.timers.(keepAliveMs := p.keepAlive * 1000));
    var c3 := if p.clean then ClearSession(c2) else c2;
    SentPropsPanic(c3, p.props, true);
    SentPropsMove(c3, p.props, true);
    var e1 := Initialize(c, false).(status := Connecting);
    var e2 := if p.keepAlive > 0 then e1.(timers := e1.timers.(recvTimeoutMs := p.keepAlive * 1000 * 3 / 2)) else e1;
    var e3 := if p.clean then ClearSession(e2) else e2;
    PropsPanicIff(e3, p.props, true);
    ReceivedPropsOk(e3, p.props, true);
  }

  lemma ConnackEnds(c: Conn, p: Packet)
    requires Consistent5(c) && !c.panicked && AliasesOk(c) && p.Connack?
    ensures Ends(SendConnack(c, p).c, p.accepted && c.status.Connecting? && !TooLarge(c, p) && ZeroLimit(p.props))
    ensures Ends(ReceiveConnack(c, p).c, p.accepted && ZeroLimit(p.props))
  {
    hide ApplySentProps, ApplyReceivedProps, SendStored, Wf, IdsOk, Matched, TooLarge;
    SentPropsPanic(c, p.props, false);
    SentPropsMove(c, p.props, false);
    var d := ApplySentProps(c, p.props, false).c.(status := Connected);
    SendStoredSound(d);
    var c1 := c.(status := Connected);
    PropsPanicIff(c1, p.props, false);
    ReceivedPropsOk(c1, p.props, false);
    ReceivedPropsMove(c1, p.props, false);
    SendStoredSound(ApplyReceivedProps(c1, p.props, false).c);
  }

  // ---------------------------------------------------------------- every call

  /** The calls that fail an assert or an unwrap, or overflow. */
  predicate Fails(c: Conn, op: Op) {
    match op
    case OpSend(v, p) =>
      && v.V5_0? && RoleMaySend(c.opt.role, v, p)
      && (match p
          case Connect(_, _, props, _) => c.status.Disconnected? && !TooLarge(c, p) && ZeroLimit(props)
          case Connack(ok, _, props, _) => ok && c.status.Connecting? && !TooLarge(c, p) && ZeroLimit(props)
          case PublishPacket(pub) => !pub.qos.AtMostOnce? && PublishFails(c, pub)
          case _ => false)
    case OpReceive(f) => f.Good? && Arrives(c, f) && ReceptionFails(c, f.packet)
    case _ => false
  }

  predicate ReceptionFails(c: Conn, p: Packet) {
    match p
    case Connect(_, _, props, _) => c.status.Disconnected? && TopicAliasMaximum(0) in props
    case Connack(ok, _, props, _) => ok && ZeroLimit(props)
    case PublishPacket(pub) => pub.pid == 0 && Answered(c, pub)
    case Pubrel(id, _, _) => id == 0 && c.opt.autoPub && IsConnected(c)
    case _ => SendCount.Expected(c, p) && c.flow.sendMax.Some? && c.flow.sendCount == 0
  }

  /** Sent packets that cannot fail. */
  lemma PassingEnds(c: Conn, p: Packet)
    requires !c.panicked && (Passing(p) || ((p.Subscribe? || p.Unsubscribe?) && InRange(p.pid)))
    ensures Dispatch(c, p).c.panicked == false && Dispatch(c, p).c.alias.send == c.alias.send
  {
  }

  lemma SendEnds(c: Conn, p: Packet)
    requires Consistent5(c) && !c.panicked && AliasesOk(c) && Allowed5(c, OpSend(V5_0, p))
    requires RoleMaySend(c.opt.role, V5_0, p)
    ensures Ends(Dispatch(c, p).c, Fails(c, OpSend(V5_0, p)))
  {
    hide SendPublishV3, SendPublishV5, SendPubrel, SendConnack, Greeting, Wf, Has, TooLarge, IdsOk, Matched,
        PublishFails;
    match p
    case Connect(_, _, _, _) => ConnectEnds(c, p);
    case Connack(_, _, _, _) => ConnackEnds(c, p);
    case PublishPacket(pub) =>
      if pub.qos.AtMostOnce? { QuietEnds(c, pub); } else { SendPanicsIff(c, pub); }
    case Pubrel(_, _, _) => NotStored(c, p.pid); PubrelEnds(c, p);
    case _ => PassingEnds(c, p); hide Dispatch;
  }

  lemma QuietEnds(c: Conn, p: Publish)
    requires !c.panicked && AliasesOk(c) && p.qos.AtMostOnce?
    ensures Ends(SendPublishV5(c, p).c, false)
  {
    AliasedPanics(c, p, None, false);
    hide SendAliased, Wf;
  }

  lemma PubrelEnds(c: Conn, p: Packet)
    requires !c.panicked && p.Pubrel? && !Has(c.session.store, p.pid)
    ensures var d := SendPubrel(c, p).c; !d.panicked && d.alias == c.alias
  {
    hide Has;
  }

  lemma AckEnds(c: Conn, p: Packet)
    requires Consistent5(c) && !c.panicked && (p.Puback? || p.Pubcomp? || p.Suback? || p.Unsuback?)
    ensures var d := ReceivePacket(c, p).c; (d.panicked <==> ReceptionFails(c, p)) && d.alias == c.alias
  {
    assert InFlight(c.ids, p.pid) ==> InRange(p.pid);
    hide Erase, IdsOk, Matched;
  }

  lemma PubrecEnds(c: Conn, p: Packet)
    requires Consistent5(c) && !c.panicked && p.Pubrec?
    ensures var d := ReceivePubrec(c, p).c; (d.panicked <==> ReceptionFails(c, p)) && d.alias == c.alias
  {
    hide Erase, SendPubrel, IdsOk, Matched, Has;
    if p.pid in c.ids.pubrec {
      InFlightUsed(c, p.pid);
      var c1 := c.(ids := c.ids.(pubrec := c.ids.pubrec - {p.pid}),
          session := c.session.(store := Erase(c.session.store, Response(V5_0, AwaitPubrec), p.pid)));
      AckKeeps5(c, c1, AwaitPubrec, p.pid);
      NotStored(c1, p.pid);
      PubrelEnds(c1, Pubrel(p.pid, None, 2));
    }
  }

  lemma PacketEnds(c: Conn, p: Packet)
    requires Consistent5(c) && !c.panicked && AliasesOk(c)
    ensures Ends(ReceivePacket(c, p).c, ReceptionFails(c, p))
  {
    hide Welcomed, ReceiveConnack, ReceivePublishV5, ReceivePubrec, Answered, Wf, IdsOk, Matched, Finish;
    match p
    case Connect(_, _, _, _) => ConnectEnds(c, p);
    case Connack(_, _, _, _) => ConnackEnds(c, p);
    case PublishPacket(pub) => PublishPanicsIff5(c, pub); PublishCalm(c, pub);
    case Pubrec(_, _, _) => PubrecEnds(c, p);
    case Puback(_, _, _) => AckEnds(c, p); hide ReceivePacket;
    case Pubcomp(_, _, _) => AckEnds(c, p); hide ReceivePacket;
    case Suback(_, _) => AckEnds(c, p); hide ReceivePacket;
    case Unsuback(_, _) => AckEnds(c, p); hide ReceivePacket;
    case _ =>
  }

  lemma ReceiveEnds(c: Conn, f: Frame)
    requires Consistent5(c) && !c.panicked && AliasesOk(c)
    ensures Ends(Receive(c, f).c, Fails(c, OpReceive(f)))
  {
    hide ReceivePacket, ReceptionFails, Wf, IdsOk, Matched;
    if f.Good? && Arrives(c, f) { PacketEnds(c, f.packet); } else { UnreadCalm(c, f); }
  }

  lemma ClosedEnds(c: Conn, o: DrainOrder)
    requires Consistent5(c) && !c.panicked && DrainOk(c, o)
    ensures Ends(Closed(c, o).c, false)
  {
    hide Closed;
    ClosedMoves(c, o);
    assert forall id :: GivenUp(c, o, id) ==> InFlight(c.ids, id);
  }

  lemma SettingEnds(c: Conn, op: Op)
    requires Consistent5(c) && !c.panicked && AliasesOk(c) && Allowed5(c, op)
    requires !op.OpSend? && !op.OpReceive? && !op.OpClosed?
    ensures Ends(Step(c, op).c, false)
  {
    hide Wf, IdsOk, Matched, LeastFree, Send, Receive, Closed;
  }

  /** A call on a v5.0 connection fails an assert or an unwrap, or overflows, exactly if it is one of these. */
  lemma StepPanicsIff(c: Conn, op: Op)
    requires Consistent5(c) && !c.panicked && AliasesOk(c) && Allowed5(c, op)
    ensures Ends(Step(c, op).c, Fails(c, op))
  {
    hide IdsOk, Matched, Wf, Dispatch, Receive, Closed, ReceptionFails;
    match op
    case OpSend(v, p) => if v.V5_0? && RoleMaySend(c.opt.role, v, p) { SendEnds(c, p); }
    case OpReceive(f) => ReceiveEnds(c, f);
    case OpClosed(o) => ClosedEnds(c, o);
    case _ => SettingEnds(c, op); hide Step;
  }

  ghost predicate NeverPanics(c: Conn, ops: seq<Op>)
    decreases |ops|
  {
    !c.panicked && (ops == [] || NeverPanics(Step(c, ops[0]).c, ops[1..]))
  }

  ghost predicate SomeFails(c: Conn, ops: seq<Op>)
    decreases |ops|
  {
    ops != [] && (Fails(c, ops[0]) || SomeFails(Step(c, ops[0]).c, ops[1..]))
  }

  /** A v5.0 run without a call that breaks the agreement gets through without a panic exactly if none of its
      calls fails. */
  lemma {:induction false} RunPanicsIff(c: Conn, ops: seq<Op>)
    requires Consistent5(c) && !c.panicked && AliasesOk(c) && AllAllowed5(c, ops) && NeverBreaks(c, ops)
    ensures NeverPanics(c, ops) <==> !SomeFails(c, ops)
    decreases |ops|
  {
    hide Step, Fails, Breaks, Consistent5, Allowed5, AliasesOk;
    if ops != [] {
      var d := Step(c, ops[0]).c;
      StepKeepsIff(c, ops[0]);
      StepPanicsIff(c, ops[0]);
      if !d.panicked { RunPanicsIff(d, ops[1..]); }
    }
  }
}
