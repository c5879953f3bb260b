/** The two topic alias tables after every call: what an alias stands for on the way out and on the way in. */
module Tables {
  import opened Packets
  import opened TopicAlias
  import opened Store
  import opened Engine
  import opened Frames
  import opened Receptions
  import opened Settings

  // ---------------------------------------------------------------- publishing

  function Binding(m: AliasSend, t: Topic, a: nat): AliasSend {
    if 1 <= a <= m.max then InsertOrUpdate(m, t, a) else m
  }

  /** A named packet with an alias binds it, a bare alias is used, and automatic mapping binds the next alias to a topic
      that has none. Whether the packet then goes out makes no difference. */
  function Named(c: Conn, m: AliasSend, p: Publish): AliasSend {
    match p.alias
    case Some(a) =>
      if p.topic != [] then Binding(m, p.topic, a) else if 1 <= a <= m.max then Touch(m, a) else m
    case None =>
      if p.topic != [] && c.status == Connected && c.opt.autoMap && FindByTopic(m, p.topic).None?
      then Binding(m, p.topic, LruAlias(m)) else m
  }

  /** The packet gets as far as its topic. */
  predicate Opened(c: Conn, p: Publish) {
    && Size(V5_0, PublishPacket(p)) <= c.flow.maxSend
    && (c.status == Connected || (p.qos != AtMostOnce && (c.session.needStore || c.opt.offlinePublish)))
    && (p.qos != AtMostOnce && 1 <= p.pid <= 65535 ==> p.pid in c.ids.used)
  }

  function Outward(c: Conn, p: Publish): Option<AliasSend> {
    match c.alias.send case Some(m) => if Opened(c, p) then Some(Named(c, m, p)) else Some(m) case None => None
  }

  lemma SameTables(c: Conn, p: Publish, release: Option<nat>)
    ensures SendCounted(c, p, release).c.alias == c.alias
    ensures RefusePublish(c, PacketNotAllowedToSend, p).c.alias == c.alias
    ensures Await(c, p).alias == c.alias
  {
  }

  lemma AliasedTables(c: Conn, p: Publish, release: Option<nat>)
    ensures SendAliased(c, p, release, false).c.alias ==
      c.alias.(send := match c.alias.send case Some(m) => Some(Named(c, m, p)) case None => None)
    ensures p.topic == [] ==> SendAliased(c, p, release, true).c.alias == c.alias
    ensures p.topic != [] ==> SendAliased(c, p, release, true) == SendAliased(c, p, release, false)
  {
    hide SendCounted, RefusePublish, Touch, InsertOrUpdate, FindByTopic, LruAlias, Peek;
    SameTables(c, p, release);
    SameTables(ResolveAlias(c, p.alias).0, p, release);
    if p.alias.Some? { SameTables(BindAlias(c, p.topic, p.alias.value), p, release); }
    if c.alias.send.Some? {
      var a := LruAlias(c.alias.send.value);
      SameTables(BindAlias(c, p.topic, a), ByAlias(p, a), release);
      var f := FindByTopic(c.alias.send.value, p.topic);
      if f.Some? { SameTables(c, ByAlias(p, f.value), release); }
    }
  }

  lemma KeptTables(c: Conn, s: StorePacket, p: Publish)
    ensures var d := Await(Keep(c, s), p); d == c.(ids := d.ids, session := d.session, panicked := d.panicked)
    ensures var d := Await(c, p); d == c.(ids := d.ids)
    ensures RefuseAndRelease(c, PacketNotAllowedToSend, p.pid).c.alias == c.alias
  {
    hide Has;
  }

  lemma PublishTables(c: Conn, p: Publish)
    requires IsV5(c)
    ensures SendPublishV5(c, p).c.alias == c.alias.(send := Outward(c, p))
  {
    hide SendAliased, Keep, Await, RefuseAndRelease, Touch, InsertOrUpdate, FindByTopic, LruAlias, Peek, HasWildcard;
    var s := StoredPublish(V5_0, p.(alias := None, dup := true));
    KeptTables(c, s, p);
    AliasedTables(c, p, None);
    AliasedTables(Await(c, p), p, Some(p.pid));
    AliasedTables(Await(Keep(c, s), p), p, None);
    if p.topic == [] { BareTables(c, p); }
  }

  lemma BareTables(c: Conn, p: Publish)
    requires p.topic == []
    ensures var (c1, t) := ResolveAlias(c, p.alias);
      && c1.alias == c.alias.(send := match c.alias.send case Some(m) => Some(Named(c, m, p)) case None => None)
      && RefuseAndRelease(c1, PacketNotAllowedToSend, p.pid).c.alias == c1.alias
      && (t.Some? ==>
            var c2 := if HasWildcard(t.value) then Panic(c1)
                      else Keep(c1, StoredPublish(V5_0, p.(topic := t.value, alias := None, dup := true)));
            SendAliased(Await(c2, p), p, None, true).c.alias == c1.alias)
  {
    hide SendAliased, Keep, Await, RefuseAndRelease, Touch, Peek, HasWildcard;
    var (c1, t) := ResolveAlias(c, p.alias);
    KeptTables(c1, StoredPubrel(V5_0, 0, None, 0), p);
    if t.Some? {
      var s := StoredPublish(V5_0, p.(topic := t.value, alias := None, dup := true));
      KeptTables(c1, s, p);
      KeptTables(Panic(c1), s, p);
      AliasedTables(Await(if HasWildcard(t.value) then Panic(c1) else Keep(c1, s), p), p, None);
    }
  }

  // ---------------------------------------------------------------- property lists

  /** A maximum that is announced starts an empty table. */
  function FreshIn(props: seq<Prop>, was: Option<AliasRecv>): Option<AliasRecv> {
    match Last(props, KAliases, false) case Some(n) => Some(AliasRecv(n, map[])) case None => was
  }

  function FreshOut(props: seq<Prop>, was: Option<AliasSend>): Option<AliasSend> {
    match Last(props, KAliases, false) case Some(n) => Some(AliasSend(n, [], map[], {})) case None => was
  }

  lemma {:induction false} PropsSentTables(c: Conn, props: seq<Prop>, connect: bool)
    ensures ApplySentProps(c, props, connect).c.alias == c.alias.(recv := FreshIn(props, c.alias.recv))
    decreases |props|
  {
    if props != [] {
      var d := SentProp(c, props[0], connect).c;
      assert d.alias == c.alias.(recv := match Says(props[0], KAliases, false)
                                         case Some(n) => Some(AliasRecv(n, map[])) case None => c.alias.recv);
      hide SentProp;
      PropsSentTables(d, props[1..], connect);
      LastFirst(props[0], props[1..], KAliases, false);
      assert [props[0]] + props[1..] == props;
      hide Last;
    }
  }

  lemma {:induction false} PropsReceivedTables(c: Conn, props: seq<Prop>, connect: bool)
    ensures ApplyReceivedProps(c, props, connect).c.alias == c.alias.(send := FreshOut(props, c.alias.send))
    decreases |props|
  {
    if props != [] {
      var d := ReceivedProp(c, props[0], connect).c;
      assert d.alias == c.alias.(send := match Says(props[0], KAliases, false)
                                         case Some(n) => Some(AliasSend(n, [], map[], {})) case None => c.alias.send);
      hide ReceivedProp;
      PropsReceivedTables(d, props[1..], connect);
      LastFirst(props[0], props[1..], KAliases, false);
      assert [props[0]] + props[1..] == props;
      hide Last;
    }
  }

  lemma GreetingTables(c: Conn, p: Packet)
    requires p.Connect?
    ensures Greeting(c, p).alias == Aliases(None, if IsV5(c) then FreshIn(p.props, None) else None)
    ensures Welcomed(c, p).alias == Aliases(if IsV5(c) then FreshOut(p.props, None) else None, None)
  {
    hide ApplySentProps, ApplyReceivedProps, FreshIn, FreshOut;
    var c1 := Initialize(c, true).(status := Connecting);
    var c2 := c1.(timers := c1.timers.(keepAliveMs := p.keepAlive * 1000));
    var c3 := if p.clean then ClearSession(c2) else c2;
    PropsSentTables(c3, p.props, true);
    var e1 := Initialize(c, false).(status := Connecting);
    var e2 := if p.keepAlive > 0 then e1.(timers := e1.timers.(recvTimeoutMs := p.keepAlive * 1000 * 3 / 2)) else e1;
    var e3 := if p.clean then ClearSession(e2) else e2;
    PropsReceivedTables(e3, p.props, true);
  }

  // ---------------------------------------------------------------- sending and receiving

  function AfterSend(c: Conn, p: Packet): Aliases {
    match p
    case Connect(_, _, props, _) =>
      if c.status != Disconnected || TooLarge(c, p) then c.alias
      else Aliases(None, if c.version == V5_0 then FreshIn(props, None) else None)
    case Connack(ok, _, props, _) =>
      if c.status != Connecting || TooLarge(c, p) || !ok || c.version != V5_0 then c.alias
      else c.alias.(recv := FreshIn(props, c.alias.recv))
    case PublishPacket(pub) => if c.version == V5_0 then c.alias.(send := Outward(c, pub)) else c.alias
    case _ => c.alias
  }

  function AfterReceive(c: Conn, p: Packet): Aliases {
    match p
    case Connect(_, _, props, _) =>
      if c.status != Disconnected then c.alias
      else Aliases(if c.version == V5_0 then FreshOut(props, None) else None, None)
    case Connack(ok, _, props, _) =>
      if !ok || c.version != V5_0 then c.alias else c.alias.(send := FreshOut(props, c.alias.send))
    case PublishPacket(pub) =>
      if c.version == V5_0 && Complaint(c, p).None? && pub.alias.Some? && pub.topic != [] && c.alias.recv.Some? then
        var m := c.alias.recv.value;
        c.alias.(recv := Some(m.(aliases := m.aliases[pub.alias.value := pub.topic])))
      else c.alias
    case _ => c.alias
  }

  lemma ConnackTables(c: Conn, p: Packet)
    requires p.Connack?
    ensures SendConnack(c, p).c.alias == AfterSend(c, p) && ReceiveConnack(c, p).c.alias == AfterReceive(c, p)
  {
    hide ApplySentProps, ApplyReceivedProps, SendStored, TooLarge, FreshIn, FreshOut;
    PropsSentTables(c, p.props, false);
    PropsReceivedTables(c.(status := Connected), p.props, false);
    var r := if IsV5(c) then ApplySentProps(c, p.props, false) else R(c, []);
    SendStoredMoves(r.c.(status := Connected));
    SendStoredMoves(Informed(c, p));
  }

  lemma DispatchTables(c: Conn, p: Packet)
    ensures Dispatch(c, p).c.alias == AfterSend(c, p)
  {
    if p.Connect? {
      GreetingTables(c, p);
      hide Greeting, TooLarge, FreshIn;
    } else if p.Connack? {
      ConnackTables(c, p);
      hide SendConnack, AfterSend;
    } else if p.PublishPacket? {
      PublishMovesV3(c, p.pub);
      if IsV5(c) { PublishTables(c, p.pub); }
      hide SendPublishV3, SendPublishV5, Outward;
    } else if p.Pubrel? {
      PubrelMoves(c, p);
      hide SendPubrel;
    } else if p.Subscribe? || p.Unsubscribe? {
      RequestMoves(c, p);
      hide SendRequest;
    } else {
      PassingTables(c, p);
      hide Dispatch;
    }
  }

  lemma PassingTables(c: Conn, p: Packet)
    requires Passing(p)
    ensures Dispatch(c, p).c.alias == c.alias
  {
    hide SendConnect, SendConnack, SendPublish, SendPubrel, SendRequest;
  }

  lemma AnsweredTables(c: Conn, p: Publish, respond: bool, again: bool)
    ensures AcceptPublish(c, p, respond, again).c.alias == c.alias
  {
  }

  lemma FailTables(c: Conn, e: MqttError)
    ensures Fail(c, e).c.alias == c.alias
  {
  }

  lemma TopicTables(c: Conn, p: Publish, respond: bool, again: bool)
    ensures ReceiveTopic(c, p, respond, again).c.alias ==
      if Understood(c, p) && p.alias.Some? && p.topic != [] then
        var m := c.alias.recv.value;
        c.alias.(recv := Some(m.(aliases := m.aliases[p.alias.value := p.topic])))
      else c.alias
  {
    hide AcceptPublish, Fail, HasWildcard;
    FailTables(c, TopicAliasInvalid);
    AnsweredTables(c, p, respond, again);
    if p.alias.Some? && RecvAliasValid(c, p.alias.value) {
      var m := c.alias.recv.value;
      AnsweredTables(c.(alias := c.alias.(recv := Some(m.(aliases := m.aliases[p.alias.value := p.topic])))), p,
          respond, again);
      if RecvGet(m, p.alias.value).Some? {
        AnsweredTables(c, p.(topic := RecvGet(m, p.alias.value).value, extracted := true), respond, again);
      }
    }
  }

  lemma PublishTakenTables(c: Conn, p: Publish)
    requires IsV5(c)
    ensures ReceivePublishV5(c, p).c.alias == AfterReceive(c, PublishPacket(p))
  {
    hide ReceiveTopic, Fail, HasWildcard;
    FailTables(c, ReceiveMaximumExceeded);
    var c1 := c.(flow := c.flow.(publishRecv := c.flow.publishRecv + {p.pid}));
    var c2 := c1.(session := c1.session.(handled := c1.session.handled + {p.pid}));
    var again := p.pid in c.session.handled;
    match p.qos
    case AtMostOnce => TopicTables(c, p, false, false);
    case AtLeastOnce => TopicTables(c1, p, c.opt.autoPub && IsConnected(c), false);
    case ExactlyOnce => TopicTables(c2, p, IsConnected(c) && (c.opt.autoPub || again), again);
  }

  lemma AckTables(c: Conn, p: Packet)
    requires p.Puback? || p.Pubcomp? || p.Suback? || p.Unsuback?
    ensures ReceivePacket(c, p).c.alias == c.alias
  {
    hide Fail, Finish, Erase;
    FailTables(c, ProtocolError);
    var st := c.session.store;
    match p {
      case Puback(id, _, _) =>
        FinishMoves(c.(ids := c.ids.(puback := c.ids.puback - {id}),
            session := c.session.(store := Erase(st, Response(c.version, AwaitPuback), id))), id, p, true);
      case Pubcomp(id, _, _) =>
        FinishMoves(c.(ids := c.ids.(pubcomp := c.ids.pubcomp - {id}),
            session := c.session.(store := Erase(st, Response(c.version, AwaitPubcomp), id))), id, p, true);
      case Suback(id, _) => FinishMoves(c.(ids := c.ids.(suback := c.ids.suback - {id})), id, p, false);
      case Unsuback(id, _) => FinishMoves(c.(ids := c.ids.(unsuback := c.ids.unsuback - {id})), id, p, false);
    }
  }

  lemma PubrecTables(c: Conn, p: Packet)
    requires p.Pubrec?
    ensures ReceivePubrec(c, p).c.alias == c.alias
  {
    hide Fail, Erase, SendPubrel, Finish;
    FailTables(c, ProtocolError);
    var c1 := c.(ids := c.ids.(pubrec := c.ids.pubrec - {p.pid}),
        session := c.session.(store := Erase(c.session.store, Response(c.version, AwaitPubrec), p.pid)));
    FinishMoves(c1, p.pid, p, true);
    PubrelMoves(c1, Pubrel(p.pid, None, 2));
  }

  lemma OtherTables(c: Conn, p: Packet)
    requires Incidental(p) && !p.PublishPacket?
    ensures ReceivePacket(c, p).c.alias == c.alias
  {
    hide ReceiveConnect, ReceiveConnack, ReceivePublishV3, ReceivePublishV5, ReceivePuback, ReceivePubrec,
      ReceivePubcomp;
  }

  lemma PublishTakenV3(c: Conn, p: Publish)
    ensures ReceivePublishV3(c, p).c.alias == c.alias
  {
  }

  lemma PacketTables(c: Conn, p: Packet)
    ensures ReceivePacket(c, p).c.alias == AfterReceive(c, p)
  {
    if p.Connect? {
      GreetingTables(c, p);
      FailTables(c, ProtocolError);
      hide Welcomed, Fail, FreshOut;
    } else if p.Connack? {
      ConnackTables(c, p);
      hide ReceiveConnack, AfterReceive;
    } else if p.PublishPacket? {
      if IsV5(c) { PublishTakenTables(c, p.pub); } else { PublishTakenV3(c, p.pub); }
      hide ReceivePublishV3, ReceivePublishV5;
    } else if p.Pubrec? {
      PubrecTables(c, p);
      hide ReceivePubrec;
    } else if Incidental(p) {
      OtherTables(c, p);
      hide ReceivePacket;
    } else {
      AckTables(c, p);
      hide ReceivePacket;
    }
  }

  // ---------------------------------------------------------------- every call

  function Remembered(c: Conn, op: Op): Aliases {
    match op
    case OpSend(v, p) =>
      if v == Undetermined || c.version != v || (p.Auth? && v != V5_0) || !RoleMaySend(c.opt.role, v, p) then c.alias
      else AfterSend(c, p)
    case OpReceive(f) => if f.Good? && Arrives(c, f) then AfterReceive(Speaking(c, f), f.packet) else c.alias
    case OpClosed(_) => Aliases(None, None)
    case _ => c.alias
  }

  /** Every call leaves both tables exactly as the protocol has them. */
  lemma StepTables(c: Conn, op: Op)
    ensures Step(c, op).c.alias == Remembered(c, op)
  {
    hide Dispatch, Receive, Closed, TimerFired, RestorePackets, AfterSend, AfterReceive, LeastFree;
    match op
    case OpSend(v, p) => DispatchTables(c, p);
    case OpReceive(f) => ReceiveTables(c, f);
    case OpTimer(k) => TimerTables(c, k);
    case OpClosed(o) => ClosedMoves(c, o);
    case OpRestorePackets(ps) => RestoreTables(c, ps);
    case _ =>
  }

  lemma TimerTables(c: Conn, k: TimerKind)
    ensures TimerFired(c, k).c.alias == c.alias
  {
  }

  lemma {:induction false} RestoreTables(c: Conn, ps: seq<StorePacket>)
    ensures RestorePackets(c, ps).alias == c.alias
    decreases |ps|
  {
    if ps != [] {
      RestoreTables(RestoreOne(c, ps[0]), ps[1..]);
      assert RestoreOne(c, ps[0]).alias == c.alias by { hide Has; }
    }
  }

  lemma ReceiveTables(c: Conn, f: Frame)
    ensures Receive(c, f).c.alias == Remembered(c, OpReceive(f))
  {
    hide ReceivePacket, AfterReceive, Fail, ReceiveBadConnect, Oversized;
    if f.Good? && Arrives(c, f) {
      PacketTables(Speaking(c, f), f.packet);
    } else {
      UnreadTables(c);
      if f.Bad? {
        UnreadTables(Speaking(c, f));
        FailTables(Speaking(c, f), f.error);
      }
    }
  }

  lemma UnreadTables(c: Conn)
    ensures Oversized(c).c.alias == c.alias
    ensures forall e: MqttError :: ReceiveBadConnect(c, e).c.alias == c.alias
  {
    forall e: MqttError ensures ReceiveBadConnect(c, e).c.alias == c.alias { BadConnectTables(c, e); }
    hide ReceiveBadConnect;
  }

  lemma BadConnectTables(c: Conn, e: MqttError)
    ensures ReceiveBadConnect(c, e).c.alias == c.alias
  {
    hide Fail, SendConnack, TooLarge;
    FailTables(c, ProtocolError);
    ConnackTables(c.(status := Connecting), Connack(false, false, [], if IsV5(c) then 3 else 2));
  }
}
