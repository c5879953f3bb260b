/** What a connection has been told and what it remembers of the peer's exchanges, after every call: status, session
    keeping, limits and intervals as the last CONNECT and CONNACK set them, the duplicate filter and the receptions
    that are open. */
module Settings {
  import opened Packets
  import opened TopicAlias
  import opened Store
  import opened Engine
  import opened Frames
  import opened Receptions

  /** `aliasesOut` and `aliasesIn` are the topic alias maxima for what is sent and received. */
  datatype Terms = Terms(
    opt: Options, version: Version, status: Status, needStore: bool, handled: set<nat>, receiving: set<nat>,
    maxSend: nat, maxRecv: nat, sendMax: Option<nat>, recvMax: Option<nat>,
    aliasesOut: Option<nat>, aliasesIn: Option<nat>,
    userMs: Option<nat>, ownMs: nat, serverMs: Option<nat>, recvMs: nat, respMs: nat)

  function OutMax(a: Option<AliasSend>): Option<nat> { match a case Some(m) => Some(m.max) case None => None }

  function InMax(a: Option<AliasRecv>): Option<nat> { match a case Some(m) => Some(m.max) case None => None }

  function TermsOf(c: Conn): Terms {
    Terms(c.opt, c.version, c.status, c.session.needStore, c.session.handled, c.flow.publishRecv,
          c.flow.maxSend, c.flow.maxRecv, c.flow.sendMax, c.flow.recvMax, OutMax(c.alias.send), InMax(c.alias.recv),
          c.timers.userSendMs, c.timers.keepAliveMs, c.timers.serverKeepAliveMs, c.timers.recvTimeoutMs,
          c.timers.respTimeoutMs)
  }

  predicate Same(c: Conn, d: Conn) { TermsOf(d) == TermsOf(c) }

  // ---------------------------------------------------------------- property lists

  datatype Kind = KAliases | KReceive | KSize | KKeepAlive

  /** What a property says of one kind of limit. A limit of 0 says nothing, except in a received CONNECT. */
  function Says(p: Prop, k: Kind, zero: bool): Option<nat> {
    match p
    case TopicAliasMaximum(v) => if k == KAliases && v != 0 then Some(v) else None
    case ReceiveMaximum(v) => if k == KReceive && (v != 0 || zero) then Some(v) else None
    case MaximumPacketSize(v) => if k == KSize && (v != 0 || zero) then Some(v) else None
    case ServerKeepAlive(v) => if k == KKeepAlive then Some(v) else None
    case _ => None
  }

  /** What the last property of the kind says. */
  function Last(props: seq<Prop>, k: Kind, zero: bool): Option<nat> {
    if props == [] then None
    else
      var s := Says(props[|props| - 1], k, zero);
      if s.Some? then s else Last(props[..|props| - 1], k, zero)
  }

  function Or(a: Option<nat>, b: Option<nat>): Option<nat> { if a.Some? then a else b }

  function OrElse(a: Option<nat>, n: nat): nat { match a case Some(v) => v case None => n }

  lemma {:induction false} LastFirst(p: Prop, props: seq<Prop>, k: Kind, zero: bool)
    ensures Last([p] + props, k, zero) == Or(Last(props, k, zero), Says(p, k, zero))
  {
    var all := [p] + props;
    if props == [] {
      assert all == [p] && all[..0] == [];
    } else {
      LastFirst(p, props[..|props| - 1], k, zero);
      assert all[..|all| - 1] == [p] + props[..|props| - 1] && all[|all| - 1] == props[|props| - 1];
    }
  }

  /** The list asks to keep the session. */
  predicate Expires(props: seq<Prop>) { exists p :: p in props && p.SessionExpiryInterval? && p.val > 0 }

  /** Announcing `props` binds the receiving side. */
  function Announcing(t: Terms, props: seq<Prop>, connect: bool): Terms {
    t.(aliasesIn := Or(Last(props, KAliases, false), t.aliasesIn),
       recvMax := Or(Last(props, KReceive, false), t.recvMax),
       maxRecv := OrElse(Last(props, KSize, false), t.maxRecv), needStore := t.needStore || (connect && Expires(props)),
       recvMs := match Last(props, KKeepAlive, false)
                 case Some(v) => if connect then t.recvMs else v * 1500 case None => t.recvMs)
  }

  /** Being told `props` binds the sending side. */
  function Heeding(t: Terms, props: seq<Prop>, connect: bool): Terms {
    t.(aliasesOut := Or(Last(props, KAliases, connect), t.aliasesOut),
       sendMax := Or(Last(props, KReceive, connect), t.sendMax),
       maxSend := OrElse(Last(props, KSize, connect), t.maxSend),
       needStore := t.needStore || (connect && Expires(props)),
       serverMs := match Last(props, KKeepAlive, connect)
                   case Some(v) => if connect then t.serverMs else Some(v * 1000) case None => t.serverMs)
  }

  lemma Unlisted(t: Terms, connect: bool)
    ensures Announcing(t, [], connect) == t && Heeding(t, [], connect) == t
  {
  }

  lemma Chained(t: Terms, p: Prop, props: seq<Prop>, connect: bool)
    ensures Announcing(Announcing(t, [p], connect), props, connect) == Announcing(t, [p] + props, connect)
    ensures Heeding(Heeding(t, [p], connect), props, connect) == Heeding(t, [p] + props, connect)
  {
    assert [p][..0] == [];
    forall k: Kind, zero: bool ensures Last([p] + props, k, zero) == Or(Last(props, k, zero), Last([p], k, zero)) {
      LastFirst(p, props, k, zero);
    }
    assert Expires([p] + props) <==> Expires([p]) || Expires(props) by {
      if Expires([p]) { assert p in [p] + props; }
      if q :| q in props && q.SessionExpiryInterval? && q.val > 0 { assert q in [p] + props; }
    }
    hide Last, Expires;
  }

  lemma Single(p: Prop, k: Kind, zero: bool)
    ensures Last([p], k, zero) == Says(p, k, zero)
    ensures Expires([p]) <==> p.SessionExpiryInterval? && p.val > 0
  {
    assert [p][..0] == [] && p in [p];
  }

  lemma OneAnnounced(c: Conn, p: Prop, connect: bool)
    ensures TermsOf(SentProp(c, p, connect).c) == Announcing(TermsOf(c), [p], connect)
  {
    forall k: Kind ensures Last([p], k, false) == Says(p, k, false) { Single(p, k, false); }
    Single(p, KSize, false);
    hide Last, Expires;
  }

  lemma OneHeeded(c: Conn, p: Prop, connect: bool)
    ensures TermsOf(ReceivedProp(c, p, connect).c) == Heeding(TermsOf(c), [p], connect)
  {
    forall k: Kind ensures Last([p], k, connect) == Says(p, k, connect) { Single(p, k, connect); }
    Single(p, KSize, connect);
    hide Last, Expires;
  }

  lemma {:induction false} PropsAnnounced(c: Conn, props: seq<Prop>, connect: bool)
    ensures TermsOf(ApplySentProps(c, props, connect).c) == Announcing(TermsOf(c), props, connect)
    decreases |props|
  {
    hide Announcing, SentProp, TermsOf;
    if props == [] {
      Unlisted(TermsOf(c), connect);
    } else {
      OneAnnounced(c, props[0], connect);
      PropsAnnounced(SentProp(c, props[0], connect).c, props[1..], connect);
      Chained(TermsOf(c), props[0], props[1..], connect);
      assert [props[0]] + props[1..] == props;
    }
  }

  lemma {:induction false} PropsHeeded(c: Conn, props: seq<Prop>, connect: bool)
    ensures TermsOf(ApplyReceivedProps(c, props, connect).c) == Heeding(TermsOf(c), props, connect)
    decreases |props|
  {
    hide Heeding, ReceivedProp, TermsOf;
    if props == [] {
      Unlisted(TermsOf(c), connect);
    } else {
      OneHeeded(c, props[0], connect);
      PropsHeeded(ReceivedProp(c, props[0], connect).c, props[1..], connect);
      Chained(TermsOf(c), props[0], props[1..], connect);
      assert [props[0]] + props[1..] == props;
    }
  }

  // ---------------------------------------------------------------- the handshake

  /** A CONNECT starts afresh, but for the limits that stand until the connection closes and the duplicate filter. */
  function Renewed(t: Terms, client: bool): Terms {
    t.(opt := t.opt.(isClient := client), status := Connecting, needStore := false, receiving := {},
       sendMax := None, recvMax := None, aliasesOut := None, aliasesIn := None, ownMs := 0, serverMs := None)
  }

  /** After a CONNECT that is sent. The session is kept if CONNECT asks for it: v3.1.1 by its clean session flag, v5.0
      by a session expiry interval above 0. */
  function Calling(c: Conn, p: Packet): Terms
    requires p.Connect?
  {
    var t := Renewed(TermsOf(c), true).(ownMs := p.keepAlive * 1000);
    if c.version == V5_0 then Announcing(t, p.props, true) else t.(needStore := !p.clean)
  }

  /** After a CONNECT that is taken up: the peer may be silent for one and a half times its keep alive. */
  function Called(c: Conn, p: Packet): Terms
    requires p.Connect?
  {
    var t := Renewed(TermsOf(c), false);
    var u := if p.keepAlive > 0 then t.(recvMs := p.keepAlive * 1500) else t;
    if c.version == V5_0 then Heeding(u, p.props, true) else u.(needStore := !p.clean)
  }

  lemma GreetingTerms(c: Conn, p: Packet)
    requires p.Connect?
    ensures TermsOf(Greeting(c, p)) == Calling(c, p) && TermsOf(Welcomed(c, p)) == Called(c, p)
  {
    hide ApplySentProps, ApplyReceivedProps, Announcing, Heeding;
    var c1 := Initialize(c, true).(status := Connecting);
    var c2 := c1.(timers := c1.timers.(keepAliveMs := p.keepAlive * 1000));
    PropsAnnounced(if p.clean then ClearSession(c2) else c2, p.props, true);
    var e1 := Initialize(c, false).(status := Connecting);
    var e2 := if p.keepAlive > 0 then e1.(timers := e1.timers.(recvTimeoutMs := p.keepAlive * 1000 * 3 / 2)) else e1;
    PropsHeeded(if p.clean then ClearSession(e2) else e2, p.props, true);
  }

  lemma StoredTerms(c: Conn)
    ensures Same(c, SendStored(c).c)
  {
    SendStoredMoves(c);
    hide SendStored, Sendable;
  }

  // ---------------------------------------------------------------- sending

  /** A packet of this size can be sent. */
  predicate Takes(c: Conn, size: nat) { c.status == Connected && (c.version == V5_0 ==> size <= c.flow.maxSend) }

  /** A v5.0 response that goes out ends a reception; a PUBREC does so only with a reason code of 128 or more, and then
      opens the filter. */
  function Responded(t: Terms, c: Conn, p: Packet): Terms {
    if c.version != V5_0 || !Takes(c, Size(V5_0, p)) then t
    else match p {
      case Puback(id, _, _) => t.(receiving := t.receiving - {id})
      case Pubcomp(id, _, _) => t.(receiving := t.receiving - {id})
      case Pubrec(id, rc, _) =>
        if rc.Some? && rc.value >= 128
        then t.(receiving := t.receiving - {id}, handled := t.handled - {id}) else t
      case _ => t
    }
  }

  function AfterSending(c: Conn, p: Packet): Terms {
    var t := TermsOf(c);
    match p
    case Connect(_, _, _, _) => if c.status != Disconnected || TooLarge(c, p) then t else Calling(c, p)
    case Connack(ok, _, props, _) =>
      if c.status != Connecting || TooLarge(c, p) then t
      else if !ok then t.(status := Disconnected)
      else (if c.version == V5_0 then Announcing(t, props, false) else t).(status := Connected)
    case Disconnect(_, _) => if Takes(c, Size(c.version, p)) then t.(status := Disconnected) else t
    case _ => Responded(t, c, p)
  }

  lemma ConnackTerms(c: Conn, p: Packet)
    requires p.Connack?
    ensures TermsOf(SendConnack(c, p).c) == AfterSending(c, p)
  {
    hide ApplySentProps, SendStored, Announcing, TooLarge;
    PropsAnnounced(c, p.props, false);
    var r := if IsV5(c) then ApplySentProps(c, p.props, false) else R(c, []);
    StoredTerms(r.c.(status := Connected));
  }

  /** Timers that start or stop change no terms. */
  lemma TimedTerms(c: Conn)
    ensures Same(c, PostSend(c).c) && Same(c, RefreshRecv(c).c)
  {
  }

  lemma SentTerms(c: Conn, p: Packet, release: Option<nat>)
    ensures Same(c, SendNow(c, p, release).c) && Same(c, Deliver(c, p).c)
  {
    TimedTerms(c);
    hide PostSend, RefreshRecv;
  }

  lemma TouchMax(m: AliasSend, a: nat, t: Topic)
    ensures Touch(m, a).max == m.max && InsertOrUpdate(m, t, a).max == m.max
  {
  }

  lemma CountedTerms(c: Conn, p: Publish, release: Option<nat>)
    ensures Same(c, SendCounted(c, p, release).c)
  {
    hide SendNow;
    SentTerms(c, PublishPacket(p), release);
    SentTerms(c.(flow := c.flow.(sendCount := c.flow.sendCount + 1)), PublishPacket(p), release);
    SentTerms(Panic(c), PublishPacket(p), release);
  }

  lemma AliasedTerms(c: Conn, p: Publish, release: Option<nat>, validated: bool)
    ensures Same(c, SendAliased(c, p, release, validated).c)
  {
    hide SendCounted, Peek, Touch, InsertOrUpdate, FindByTopic, LruAlias;
    CountedTerms(c, p, release);
    ResolveTerms(c, p.alias);
    CountedTerms(ResolveAlias(c, p.alias).0, p, release);
    if p.alias.Some? {
      BindTerms(c, p.topic, p.alias.value);
      CountedTerms(BindAlias(c, p.topic, p.alias.value), p, release);
    }
    if c.alias.send.Some? {
      var a := LruAlias(c.alias.send.value);
      BindTerms(c, p.topic, a);
      CountedTerms(BindAlias(c, p.topic, a), ByAlias(p, a), release);
      var f := FindByTopic(c.alias.send.value, p.topic);
      if f.Some? { CountedTerms(c, ByAlias(p, f.value), release); }
    }
  }

  lemma ResolveTerms(c: Conn, alias: Option<nat>)
    ensures Same(c, ResolveAlias(c, alias).0)
  {
    if alias.Some? && c.alias.send.Some? { TouchMax(c.alias.send.value, alias.value, []); }
    hide Touch;
  }

  lemma BindTerms(c: Conn, t: Topic, a: nat)
    ensures Same(c, BindAlias(c, t, a))
  {
    if c.alias.send.Some? { TouchMax(c.alias.send.value, a, t); }
    hide InsertOrUpdate;
  }

  lemma PublishTerms(c: Conn, p: Publish)
    ensures Same(c, SendPublish(c, p).c)
  {
    if IsV5(c) { PublishTermsV5(c, p); } else { PublishTermsV3(c, p); }
    hide SendPublishV5, SendPublishV3;
  }

  lemma PublishTermsV3(c: Conn, p: Publish)
    ensures Same(c, SendPublishV3(c, p).c)
  {
    hide SendNow, Has;
    var c1 := Await(if Stores(c) then Keep(c, StoredPublish(V3_1_1, p.(dup := true))) else c, p);
    SentTerms(c, PublishPacket(p), None);
    SentTerms(c1, PublishPacket(p), if Stores(c) then None else Some(p.pid));
  }

  lemma KeptTerms(c: Conn, p: Publish, s: StorePacket)
    ensures Same(c, Await(c, p)) && Same(c, Keep(c, s))
  {
    hide Has;
  }

  lemma PublishTermsV5(c: Conn, p: Publish)
    ensures Same(c, SendPublishV5(c, p).c)
  {
    hide SendAliased, Peek, Touch, HasWildcard, TooLarge, Await, Keep;
    var s := StoredPublish(V5_0, p.(alias := None, dup := true));
    KeptTerms(c, p, s);
    KeptTerms(Keep(c, s), p, s);
    AliasedTerms(c, p, None, false);
    AliasedTerms(Await(c, p), p, Some(p.pid), false);
    AliasedTerms(Await(Keep(c, s), p), p, None, false);
    ResolveTerms(c, p.alias);
    var (c1, t) := ResolveAlias(c, p.alias);
    if t.Some? {
      var s1 := StoredPublish(V5_0, p.(topic := t.value, alias := None, dup := true));
      var c2 := if HasWildcard(t.value) then Panic(c1) else Keep(c1, s1);
      KeptTerms(c1, p, s1);
      KeptTerms(c2, p, s1);
      AliasedTerms(Await(c2, p), p, None, true);
    }
  }

  lemma PubrelSentTerms(c: Conn, p: Packet)
    requires p.Pubrel?
    ensures Same(c, SendPubrel(c, p).c)
  {
    PubrelMoves(c, p);
    assert Same(c, SendPubrel(c, p).c) by { hide Has; }
  }

  lemma RequestTerms(c: Conn, p: Packet)
    ensures p.Subscribe? || p.Unsubscribe? ==> Same(c, SendRequest(c, p).c)
    ensures Same(c, SendPingreq(c).c) && Same(c, SendAuth(c, p).c)
  {
    hide SendNow;
    SentTerms(c, p, None);
    SentTerms(c, Pingreq, None);
    if p.Subscribe? || p.Unsubscribe? { AwaitedTerms(c, p); }
  }

  lemma AwaitedTerms(c: Conn, p: Packet)
    requires p.Subscribe? || p.Unsubscribe?
    ensures Same(c, SendRequest(c, p).c)
  {
    hide SendNow;
    var ids := if p.Subscribe? then c.ids.(suback := c.ids.suback + {p.pid})
               else c.ids.(unsuback := c.ids.unsuback + {p.pid});
    SentTerms(c.(ids := ids), p, Some(p.pid));
  }

  lemma DisconnectTerms(c: Conn, p: Packet)
    requires p.Disconnect?
    ensures TermsOf(SendDisconnect(c, p, IsV5(c)).c) == AfterSending(c, p)
  {
  }

  lemma ResponseTerms(c: Conn, p: Packet)
    ensures TermsOf(SendWhenConnected(c, p).c) == Responded(TermsOf(c), c, p)
  {
    hide SendNow;
    SentTerms(AfterResponse(c, p), p, None);
  }

  lemma PlainTerms(c: Conn, p: Packet)
    requires !(p.Connect? || p.Connack? || p.PublishPacket?)
    ensures TermsOf(Dispatch(c, p).c) == AfterSending(c, p)
  {
    hide SendConnect, SendConnack, SendPublish, SendPubrel, SendRequest, SendPingreq, SendAuth, SendWhenConnected,
      SendDisconnect;
    match p
    case Pubrel(_, _, _) => PubrelSentTerms(c, p);
    case Subscribe(_, _) => RequestTerms(c, p);
    case Unsubscribe(_, _) => RequestTerms(c, p);
    case Pingreq => RequestTerms(c, p);
    case Auth(_) => RequestTerms(c, p);
    case Disconnect(_, _) => DisconnectTerms(c, p);
    case _ => ResponseTerms(c, p);
  }

  lemma DispatchTerms(c: Conn, p: Packet)
    ensures TermsOf(Dispatch(c, p).c) == AfterSending(c, p)
  {
    if p.Connect? {
      GreetingTerms(c, p);
      hide Greeting, Calling, TooLarge;
    } else if p.Connack? {
      ConnackTerms(c, p);
      hide SendConnack;
    } else if p.PublishPacket? {
      PublishTerms(c, p.pub);
      hide SendPublish;
    } else {
      PlainTerms(c, p);
      hide Dispatch;
    }
  }

  // ---------------------------------------------------------------- receiving

  /** An error in v5.0 is announced by a DISCONNECT of three bytes. */
  function Struck(t: Terms, c: Conn): Terms {
    if c.version == V5_0 && Takes(c, 3) then t.(status := Disconnected) else t
  }

  lemma FailTerms(c: Conn, e: MqttError)
    ensures TermsOf(Fail(c, e).c) == Struck(TermsOf(c), c)
  {
  }

  /** A PUBLISH is entered: by v5.0 among the open receptions unless they are too many, a QoS 2 one in the filter. */
  function Entered(c: Conn, p: Publish): Terms {
    var t := TermsOf(c);
    if p.qos == AtMostOnce || Complaint(c, PublishPacket(p)) == Some(ReceiveMaximumExceeded) then t
    else t.(receiving := if c.version == V5_0 then t.receiving + {p.pid} else t.receiving,
            handled := if p.qos == ExactlyOnce then t.handled + {p.pid} else t.handled)
  }

  function AfterReceiving(c: Conn, p: Packet): Terms {
    var t := TermsOf(c);
    match p
    case Connect(_, _, _, _) => if c.status == Disconnected then Called(c, p) else Struck(t, c)
    case Connack(ok, _, props, _) =>
      if !ok then t else (if c.version == V5_0 then Heeding(t, props, false) else t).(status := Connected)
    case PublishPacket(pub) =>
      if Complaint(c, p).Some? then Struck(Entered(c, pub), c)
      else if pub.qos == AtLeastOnce && c.opt.autoPub && pub.pid != 0
      then Responded(Entered(c, pub), c, Puback(pub.pid, None, 2))
      else Entered(c, pub)
    case Pubrel(id, _, _) =>
      var u := t.(handled := t.handled - {id});
      if c.opt.autoPub && id != 0 then
        Responded(u, c, if id in c.session.handled then Pubcomp(id, None, 2) else Pubcomp(id, Some(146), 3))
      else u
    case _ => if Complaint(c, p).Some? then Struck(t, c) else t
  }

  lemma RespondTerms(c: Conn, p: Packet)
    requires (p.Puback? || p.Pubrec? || p.Pubcomp?) && IsConnected(c)
    ensures TermsOf(Respond(c, p).c) == if p.pid == 0 then TermsOf(c) else Responded(TermsOf(c), c, p)
  {
    hide SendWhenConnected;
    ResponseTerms(c, p);
  }

  lemma AcceptTerms(c: Conn, p: Publish, respond: bool, again: bool)
    requires respond ==> IsConnected(c)
    ensures TermsOf(AcceptPublish(c, p, respond, again).c) ==
      if respond && p.qos.AtLeastOnce? && p.pid != 0
      then Responded(TermsOf(c), c, Puback(p.pid, None, 2)) else TermsOf(c)
  {
    hide Respond, Responded;
    var ack := if p.qos.AtLeastOnce? then Puback(p.pid, None, 2) else Pubrec(p.pid, None, 2);
    if respond { RespondTerms(c, ack); }
    assert Responded(TermsOf(c), c, Pubrec(p.pid, None, 2)) == TermsOf(c) by { PubrecKeeps(c, p.pid); }
  }

  lemma PubrecKeeps(c: Conn, id: nat)
    ensures Responded(TermsOf(c), c, Pubrec(id, None, 2)) == TermsOf(c)
  {
  }

  lemma TopicTerms(c: Conn, p: Publish, respond: bool, again: bool)
    requires IsV5(c) && (respond ==> IsConnected(c))
    ensures TermsOf(ReceiveTopic(c, p, respond, again).c) ==
      if !Understood(c, p) then Struck(TermsOf(c), c)
      else if respond && p.qos.AtLeastOnce? && p.pid != 0
      then Responded(TermsOf(c), c, Puback(p.pid, None, 2)) else TermsOf(c)
  {
    hide AcceptPublish, Fail;
    FailTerms(c, TopicAliasInvalid);
    AcceptTerms(c, p, respond, again);
    if p.alias.Some? && RecvAliasValid(c, p.alias.value) {
      var m := c.alias.recv.value;
      AcceptTerms(c.(alias := c.alias.(recv := Some(m.(aliases := m.aliases[p.alias.value := p.topic])))), p,
          respond, again);
      if RecvGet(m, p.alias.value).Some? {
        AcceptTerms(c, p.(topic := RecvGet(m, p.alias.value).value, extracted := true), respond, again);
      }
    }
  }

  lemma PublishTakenV5(c: Conn, p: Publish)
    requires IsV5(c)
    ensures TermsOf(ReceivePublishV5(c, p).c) == AfterReceiving(c, PublishPacket(p))
  {
    hide ReceiveTopic, Fail, Struck, Responded, Understood;
    var again := p.pid in c.session.handled;
    var c1 := c.(flow := c.flow.(publishRecv := c.flow.publishRecv + {p.pid}));
    var c2 := c1.(session := c1.session.(handled := c1.session.handled + {p.pid}));
    FailTerms(c, ReceiveMaximumExceeded);
    match p.qos
    case AtMostOnce => TopicTerms(c, p, false, false);
    case AtLeastOnce =>
      TopicTerms(c1, p, c.opt.autoPub && IsConnected(c), false);
      EnteredSame(c, c1, p);
      SameAnswer(c, c1, TermsOf(c1), Puback(p.pid, None, 2));
    case ExactlyOnce =>
      TopicTerms(c2, p, IsConnected(c) && (c.opt.autoPub || again), again);
      EnteredSame(c, c2, p);
  }

  lemma EnteredSame(c: Conn, d: Conn, p: Publish)
    requires d == c.(flow := d.flow, session := d.session) && d.flow.maxSend == c.flow.maxSend
    ensures Understood(d, p) == Understood(c, p) && forall t: Terms :: Struck(t, d) == Struck(t, c)
  {
  }

  lemma SameAnswer(c: Conn, d: Conn, t: Terms, a: Packet)
    requires d == c.(flow := d.flow, session := d.session) && d.flow.maxSend == c.flow.maxSend
    ensures Responded(t, d, a) == Responded(t, c, a) && ((IsConnected(c) && IsV5(c)) || Responded(t, c, a) == t)
  {
  }

  lemma PublishTakenV3(c: Conn, p: Publish)
    requires !IsV5(c)
    ensures TermsOf(ReceivePublishV3(c, p).c) == AfterReceiving(c, PublishPacket(p))
  {
    hide Respond, Responded, Deliver, RefreshRecv;
    match p.qos
    case AtMostOnce => SentTerms(c, PublishPacket(p), None);
    case AtLeastOnce =>
      var r := if IsConnected(c) && c.opt.autoPub then Respond(c, Puback(p.pid, None, 2)) else R(c, []);
      SameAnswer(c, c, TermsOf(c), Puback(p.pid, None, 2));
      if IsConnected(c) { RespondTerms(c, Puback(p.pid, None, 2)); }
      SentTerms(r.c, PublishPacket(p), None);
    case ExactlyOnce =>
      var again := p.pid in c.session.handled;
      var c1 := c.(session := c.session.(handled := c.session.handled + {p.pid}));
      var r := if IsConnected(c) && (c.opt.autoPub || again) then Respond(c1, Pubrec(p.pid, None, 2)) else R(c1, []);
      PubrecKeeps(c1, p.pid);
      if IsConnected(c) { RespondTerms(c1, Pubrec(p.pid, None, 2)); }
      SentTerms(r.c, PublishPacket(p), None);
      TimedTerms(r.c);
  }

  lemma PubrelTerms(c: Conn, p: Packet)
    requires p.Pubrel?
    ensures TermsOf(ReceivePubrel(c, p).c) == AfterReceiving(c, p)
  {
    hide Respond, Responded;
    var c1 := c.(session := c.session.(handled := c.session.handled - {p.pid}));
    SameAnswer(c, c1, TermsOf(c1), Pubcomp(p.pid, None, 2));
    SameAnswer(c, c1, TermsOf(c1), Pubcomp(p.pid, Some(0x92), 3));
    if IsConnected(c) {
      RespondTerms(c1, Pubcomp(p.pid, None, 2));
      RespondTerms(c1, Pubcomp(p.pid, Some(0x92), 3));
    }
  }

  lemma FinishTerms(c: Conn, id: nat, p: Packet, counted: bool)
    ensures Same(c, Finish(c, id, p, counted).c)
  {
    hide Deliver;
    var r := Release(c, id);
    SentTerms(if counted then FreeSlot(r.c) else r.c, p, None);
  }

  lemma AckTerms(c: Conn, p: Packet)
    requires p.Puback? || p.Pubcomp? || p.Suback? || p.Unsuback?
    ensures TermsOf(ReceivePacket(c, p).c) == AfterReceiving(c, p)
  {
    hide Fail, Erase, Step, Finish;
    FailTerms(c, ProtocolError);
    var st := c.session.store;
    match p {
      case Puback(id, _, _) =>
        FinishTerms(c.(ids := c.ids.(puback := c.ids.puback - {id}),
            session := c.session.(store := Erase(st, Response(c.version, AwaitPuback), id))), id, p, true);
      case Pubcomp(id, _, _) =>
        FinishTerms(c.(ids := c.ids.(pubcomp := c.ids.pubcomp - {id}),
            session := c.session.(store := Erase(st, Response(c.version, AwaitPubcomp), id))), id, p, true);
      case Suback(id, _) => FinishTerms(c.(ids := c.ids.(suback := c.ids.suback - {id})), id, p, false);
      case Unsuback(id, _) => FinishTerms(c.(ids := c.ids.(unsuback := c.ids.unsuback - {id})), id, p, false);
    }
  }

  lemma PubrecTerms(c: Conn, p: Packet)
    requires p.Pubrec?
    ensures TermsOf(ReceivePubrec(c, p).c) == AfterReceiving(c, p)
  {
    hide Fail, Erase, SendPubrel, Finish;
    FailTerms(c, ProtocolError);
    var c1 := c.(ids := c.ids.(pubrec := c.ids.pubrec - {p.pid}),
        session := c.session.(store := Erase(c.session.store, Response(c.version, AwaitPubrec), p.pid)));
    FinishTerms(c1, p.pid, p, true);
    PubrelSentTerms(c1, Pubrel(p.pid, None, 2));
  }

  lemma PassingTerms(c: Conn, p: Packet)
    requires p.Subscribe? || p.Unsubscribe? || p.Pingreq? || p.Pingresp? || p.Disconnect? || p.Auth?
    ensures Same(c, ReceivePacket(c, p).c)
  {
    hide ReceiveConnect, ReceiveConnack, ReceivePublishV3, ReceivePublishV5, ReceivePubrel, ReceivePuback,
      ReceivePubrec, ReceivePubcomp;
  }

  lemma PacketTerms(c: Conn, p: Packet)
    ensures TermsOf(ReceivePacket(c, p).c) == AfterReceiving(c, p)
  {
    hide Called, Struck, Entered;
    match p
    case Connect(_, _, _, _) =>
      hide Welcomed, Fail;
      GreetingTerms(c, p);
      FailTerms(c, ProtocolError);
    case Connack(_, _, _, _) =>
      hide ApplyReceivedProps, SendStored, Heeding;
      var c1 := c.(status := Connected);
      PropsHeeded(c1, p.props, false);
      StoredTerms(Informed(c, p));
      HeedingStatus(TermsOf(c), p.props);
    case PublishPacket(pub) =>
      hide ReceivePublishV3, ReceivePublishV5;
      if IsV5(c) { PublishTakenV5(c, pub); } else { PublishTakenV3(c, pub); }
    case Pubrel(_, _, _) => PubrelTerms(c, p); hide ReceivePubrel;
    case Pubrec(_, _, _) => PubrecTerms(c, p); hide ReceivePubrec;
    case Puback(_, _, _) => AckTerms(c, p); hide ReceivePacket;
    case Pubcomp(_, _, _) => AckTerms(c, p); hide ReceivePacket;
    case Suback(_, _) => AckTerms(c, p); hide ReceivePacket;
    case Unsuback(_, _) => AckTerms(c, p); hide ReceivePacket;
    case _ => PassingTerms(c, p); hide ReceivePacket;
  }

  lemma HeedingStatus(t: Terms, props: seq<Prop>)
    ensures Heeding(t.(status := Connected), props, false) == Heeding(t, props, false).(status := Connected)
  {
  }

  // ---------------------------------------------------------------- every call

  function Expected(c: Conn, op: Op): Terms {
    var t := TermsOf(c);
    match op
    case OpSend(v, p) =>
      if v == Undetermined || c.version != v || (p.Auth? && v != V5_0) || !RoleMaySend(c.opt.role, v, p) then t
      else AfterSending(c, p)
    case OpReceive(f) => if f.Good? && Arrives(c, f) then AfterReceiving(Speaking(c, f), f.packet) else t
    case OpTimer(k) => if k == PingreqSend then t else Struck(t, c)
    case OpClosed(_) =>
      t.(status := Disconnected, maxSend := 268435461, maxRecv := 268435461, aliasesOut := None, aliasesIn := None,
         handled := if c.session.needStore then t.handled else {})
    case OpInterval(ms) => t.(userMs := ms)
    case OpOfflinePublish(on) => t.(opt := t.opt.(offlinePublish := on), needStore := t.needStore || on)
    case OpAutoPub(on) => t.(opt := t.opt.(autoPub := on))
    case OpAutoPing(on) => t.(opt := t.opt.(autoPing := on))
    case OpAutoMap(on) => t.(opt := t.opt.(autoMap := on))
    case OpAutoReplace(on) => t.(opt := t.opt.(autoReplace := on))
    case OpRespTimeout(ms) => t.(respMs := ms)
    case OpRestoreHandled(ids) => t.(handled := ids)
    case _ => t
  }

  /** The call receives something that does not parse or is not let through. */
  predicate Unread(c: Conn, op: Op) { op.OpReceive? && !(op.frame.Good? && Arrives(c, op.frame)) }

  lemma TimerTerms(c: Conn, k: TimerKind)
    ensures TermsOf(TimerFired(c, k).c) == Expected(c, OpTimer(k))
  {
    hide SendPingreq, SendDisconnect;
    var d := Disarm(c, k);
    RequestTerms(d, Pingreq);
    if IsV5(c) { DisconnectTerms(d, Disconnect(Some(KeepAliveTimeout), 1)); }
  }

  lemma ClosedTerms(c: Conn, o: DrainOrder)
    ensures TermsOf(Closed(c, o).c) == Expected(c, OpClosed(o))
  {
    ClosedMoves(c, o);
    hide Closed, Step;
  }

  lemma {:induction false} RestoreTerms(c: Conn, ps: seq<StorePacket>)
    ensures TermsOf(RestorePackets(c, ps)) == Expected(c, OpRestorePackets(ps))
    decreases |ps|
  {
    hide RestoreOne;
    if ps != [] {
      RestoredTerms(c, ps[0]);
      RestoreTerms(RestoreOne(c, ps[0]), ps[1..]);
    }
  }

  lemma RestoredTerms(c: Conn, p: StorePacket)
    ensures Same(c, RestoreOne(c, p))
  {
    hide Has;
  }

  lemma UnreadTerms(c: Conn, f: Frame)
    requires !(f.Good? && Arrives(c, f))
    ensures var d := Receive(c, f).c; TermsOf(d) == TermsOf(c).(status := d.status, version := d.version)
  {
    hide ReceivePacket, Fail, ReceiveBadConnect, Oversized;
    var d := Speaking(c, f);
    if f.Bad? {
      FailTerms(d, f.error);
      BadConnectTerms(d, f.error);
    }
    OversizedTerms(c);
  }

  lemma OversizedTerms(c: Conn)
    ensures var d := Oversized(c).c; TermsOf(d) == TermsOf(c).(status := d.status)
  {
  }

  lemma BadConnectTerms(c: Conn, e: MqttError)
    ensures var d := ReceiveBadConnect(c, e).c; TermsOf(d) == TermsOf(c).(status := d.status)
  {
    hide SendConnack, Fail;
    FailTerms(c, ProtocolError);
    ConnackTerms(c.(status := Connecting), Connack(false, false, [], if IsV5(c) then 3 else 2));
  }

  /** Every call leaves the connection with exactly the terms and the receptions that the protocol gives it. What is
      not read can only cost the connection and settle the version. */
  lemma StepTerms(c: Conn, op: Op)
    ensures var d := Step(c, op).c;
      TermsOf(d) == if Unread(c, op) then Expected(c, op).(status := d.status, version := d.version)
                    else Expected(c, op)
  {
    hide Send, Receive, TimerFired, Closed, RestorePackets, Expected, LeastFree;
    match op
    case OpSend(v, p) => SendTerms(c, v, p);
    case OpReceive(f) => ReceiveTerms(c, f);
    case OpTimer(k) => TimerTerms(c, k);
    case OpClosed(o) => ClosedTerms(c, o);
    case OpRestorePackets(ps) => RestoreTerms(c, ps);
    case _ => OtherTerms(c, op);
  }

  lemma OtherTerms(c: Conn, op: Op)
    requires !(op.OpSend? || op.OpReceive? || op.OpTimer? || op.OpClosed? || op.OpRestorePackets?)
    ensures TermsOf(Step(c, op).c) == Expected(c, op)
  {
    hide AfterReceiving, AfterSending, LeastFree;
  }

  lemma SendTerms(c: Conn, v: Version, p: Packet)
    ensures TermsOf(Send(c, v, p).c) == Expected(c, OpSend(v, p))
  {
    hide Dispatch, AfterSending;
    DispatchTerms(c, p);
  }

  lemma ReceiveTerms(c: Conn, f: Frame)
    ensures var d, e := Receive(c, f).c, Expected(c, OpReceive(f));
      TermsOf(d) == if Unread(c, OpReceive(f)) then e.(status := d.status, version := d.version) else e
  {
    hide ReceivePacket, AfterReceiving;
    if f.Good? && Arrives(c, f) {
      PacketTerms(Speaking(c, f), f.packet);
    } else {
      UnreadTerms(c, f);
      hide Receive;
    }
  }

  // ---------------------------------------------------------------- when the filter forgets

  predicate Emitted(ev: seq<Event>, p: Packet) {
    exists k :: 0 <= k < |ev| && ev[k].RequestSendPacket? && ev[k].packet == p
  }

  lemma PubrecGoesOut(c: Conn, p: Packet)
    requires IsV5(c) && p.Pubrec?
    ensures Emitted(Step(c, OpSend(V5_0, p)).ev, p) <==> Takes(c, Size(V5_0, p))
  {
    var ev := Step(c, OpSend(V5_0, p)).ev;
    if Takes(c, Size(V5_0, p)) { assert ev[0] == RequestSendPacket(p, None); }
  }

  /** A v5.0 PUBREC takes its identifier out of the filter and the open receptions exactly if it goes out and its
      reason code is 128 or more. */
  lemma PubrecForgets(c: Conn, p: Packet)
    requires IsV5(c) && p.Pubrec?
    ensures var r := Step(c, OpSend(V5_0, p));
      var over := p.rc.Some? && p.rc.value >= 128 && Emitted(r.ev, p);
      && r.c.session.handled == (if over then c.session.handled - {p.pid} else c.session.handled)
      && r.c.flow.publishRecv == (if over then c.flow.publishRecv - {p.pid} else c.flow.publishRecv)
  {
    StepTerms(c, OpSend(V5_0, p));
    PubrecGoesOut(c, p);
    hide Step, Emitted;
  }

  /** What makes the filter forget an identifier: its PUBREL, a v5.0 PUBREC that goes out with a reason code of 128 or
      more, a close without stored session, a filter restored by the host. */
  predicate Ends(c: Conn, op: Op, id: nat) {
    match op
    case OpReceive(f) => f.Good? && Arrives(c, f) && f.packet.Pubrel? && f.packet.pid == id
    case OpSend(v, p) =>
      && v == V5_0 && c.version == V5_0 && p.Pubrec? && p.pid == id && p.rc.Some? && p.rc.value >= 128
      && c.status == Connected && Size(V5_0, p) <= c.flow.maxSend
    case OpClosed(_) => !c.session.needStore
    case OpRestoreHandled(ids) => id !in ids
    case _ => false
  }

  /** The filter takes in the identifier of a QoS 2 PUBLISH that arrives, unless v5.0 has too many receptions open. */
  predicate Enters(c: Conn, op: Op, id: nat) {
    match op
    case OpReceive(f) =>
      && f.Good? && Arrives(c, f) && f.packet.PublishPacket?
      && f.packet.pub.qos == ExactlyOnce && f.packet.pub.pid == id
      && (c.version == V5_0 && c.flow.recvMax.Some? ==> |c.flow.publishRecv| < c.flow.recvMax.value)
    case OpRestoreHandled(ids) => id in ids
    case _ => false
  }

  lemma SendingMemory(c: Conn, p: Packet)
    ensures AfterSending(c, p).handled ==
      (if p.Pubrec? && c.version == V5_0 && p.rc.Some? && p.rc.value >= 128 && Takes(c, Size(V5_0, p))
       then c.session.handled - {p.pid} else c.session.handled)
    ensures AfterSending(c, p).needStore ==
      if p.Connect? && c.status == Disconnected && !TooLarge(c, p)
      then if c.version == V5_0 then Expires(p.props) else !p.clean else c.session.needStore
  {
    hide Last, Expires;
  }

  lemma ReceivingMemory(c: Conn, p: Packet)
    ensures AfterReceiving(c, p).handled ==
      (match p
       case Pubrel(id, _, _) => c.session.handled - {id}
       case PublishPacket(pub) =>
         if pub.qos == ExactlyOnce
           && (c.version == V5_0 && c.flow.recvMax.Some? ==> |c.flow.publishRecv| < c.flow.recvMax.value)
         then c.session.handled + {pub.pid} else c.session.handled
       case _ => c.session.handled)
    ensures AfterReceiving(c, p).needStore ==
      if p.Connect? && c.status == Disconnected then if c.version == V5_0 then Expires(p.props) else !p.clean
      else c.session.needStore
  {
    hide Last, Expires, Understood;
  }

  /** The filter holds an identifier exactly from its PUBLISH to what ends the exchange. */
  lemma FilterIff(c: Conn, op: Op, id: nat)
    ensures id in Step(c, op).c.session.handled <==> Enters(c, op, id) || (id in c.session.handled && !Ends(c, op, id))
  {
    StepTerms(c, op);
    if op.OpSend? { SendingMemory(c, op.packet); }
    if op.OpReceive? && op.frame.Good? { ReceivingMemory(Speaking(c, op.frame), op.frame.packet); }
    hide Step, AfterSending, AfterReceiving, Struck, TooLarge;
  }

  /** CONNECT decides whether the session is kept, sent or taken up: v3.1.1 by the clean session flag, v5.0 by a session
      expiry interval above 0. Besides, only the host's offline publishing asks for a stored session; CONNACK does
      not. */
  lemma KeptIff(c: Conn, op: Op)
    ensures Step(c, op).c.session.needStore <==>
      match Hello(c, op)
      case Some(p) => if Speaks(c, op) == V5_0 then Expires(p.props) else !p.clean
      case None => c.session.needStore || op == OpOfflinePublish(true)
  {
    StepTerms(c, op);
    if op.OpSend? { SendingMemory(c, op.packet); }
    if op.OpReceive? && op.frame.Good? { ReceivingMemory(Speaking(c, op.frame), op.frame.packet); }
    hide Step, AfterSending, AfterReceiving, Struck, Expires, Arrives;
  }

  /** The CONNECT that a call sends or takes up. */
  function Hello(c: Conn, op: Op): Option<Packet> {
    match op
    case OpSend(v, p) =>
      if p.Connect? && v != Undetermined && c.version == v && c.opt.role != Server && c.status == Disconnected
          && (v == V5_0 ==> Size(v, p) <= c.flow.maxSend)
      then Some(p) else None
    case OpReceive(f) =>
      if f.Good? && Arrives(c, f) && f.packet.Connect? && c.status == Disconnected then Some(f.packet) else None
    case _ => None
  }

  function Speaks(c: Conn, op: Op): Version { if op.OpReceive? then Speaking(c, op.frame).version else c.version }

  lemma HelloLimits(c: Conn, p: Packet)
    requires IsV5(c) && p.Connect?
    ensures var t, u := Calling(c, p), Called(c, p);
      && t.recvMax == Last(p.props, KReceive, false) && t.aliasesIn == Last(p.props, KAliases, false)
      && t.maxRecv == OrElse(Last(p.props, KSize, false), c.flow.maxRecv) && t.maxSend == c.flow.maxSend
      && t.sendMax == None && t.aliasesOut == None
      && u.sendMax == Last(p.props, KReceive, true) && u.aliasesOut == Last(p.props, KAliases, true)
      && u.maxSend == OrElse(Last(p.props, KSize, true), c.flow.maxSend) && u.maxRecv == c.flow.maxRecv
      && u.recvMax == None && u.aliasesIn == None
  {
    hide Last, Expires;
  }

  lemma SentHello(c: Conn, p: Packet)
    requires IsV5(c) && Hello(c, OpSend(V5_0, p)) == Some(p)
    ensures TermsOf(Step(c, OpSend(V5_0, p)).c) == Calling(c, p)
  {
    StepTerms(c, OpSend(V5_0, p));
    hide Step, Calling;
  }

  lemma HeardHello(c: Conn, f: Frame)
    requires f.Good? && f.packet.Connect? && Arrives(c, f) && c.status == Disconnected
    ensures TermsOf(Step(c, OpReceive(f)).c) == Called(Speaking(c, f), f.packet)
  {
    StepTerms(c, OpReceive(f));
    hide Step, Called, Arrives;
  }

  /** A taken-up v5.0 CONNECT binds the sending side by the last property of each kind and leaves the receiving side
      unbound; a sent one does the reverse. */
  lemma LimitsOfConnect(c: Conn, op: Op)
    requires Hello(c, op).Some? && Speaks(c, op) == V5_0
    ensures var d, props := Step(c, op).c, Hello(c, op).value.props;
      if op.OpReceive? then
        && d.flow.sendMax == Last(props, KReceive, true) && OutMax(d.alias.send) == Last(props, KAliases, true)
        && d.flow.maxSend == OrElse(Last(props, KSize, true), c.flow.maxSend) && d.flow.maxRecv == c.flow.maxRecv
        && d.flow.recvMax == None && d.alias.recv == None
      else
        && d.flow.recvMax == Last(props, KReceive, false) && InMax(d.alias.recv) == Last(props, KAliases, false)
        && d.flow.maxRecv == OrElse(Last(props, KSize, false), c.flow.maxRecv) && d.flow.maxSend == c.flow.maxSend
        && d.flow.sendMax == None && d.alias.send == None
  {
    hide Step, Last, Calling, Called, Arrives;
    if op.OpReceive? {
      HeardHello(c, op.frame);
      HelloLimits(Speaking(c, op.frame), op.frame.packet);
    } else {
      SentHello(c, op.packet);
      HelloLimits(c, op.packet);
    }
    hide Hello;
  }

  /** A v5.0 CONNACK that accepts binds the other side, where it says something, and keeps the rest. */
  lemma LimitsOfConnack(c: Conn, op: Op, p: Packet)
    requires IsV5(c) && p.Connack? && p.accepted
    requires
      || (op == OpSend(V5_0, p) && c.opt.role != Client && c.status == Connecting && Size(V5_0, p) <= c.flow.maxSend)
      || (op.OpReceive? && op.frame.Good? && op.frame.packet == p && Arrives(c, op.frame))
    ensures var d := Step(c, op).c;
      if op.OpReceive? then
        && d.flow.sendMax == Or(Last(p.props, KReceive, false), c.flow.sendMax)
        && OutMax(d.alias.send) == Or(Last(p.props, KAliases, false), OutMax(c.alias.send))
        && d.flow.maxSend == OrElse(Last(p.props, KSize, false), c.flow.maxSend)
        && d.flow.recvMax == c.flow.recvMax && d.flow.maxRecv == c.flow.maxRecv
        && InMax(d.alias.recv) == InMax(c.alias.recv)
      else
        && d.flow.recvMax == Or(Last(p.props, KReceive, false), c.flow.recvMax)
        && InMax(d.alias.recv) == Or(Last(p.props, KAliases, false), InMax(c.alias.recv))
        && d.flow.maxRecv == OrElse(Last(p.props, KSize, false), c.flow.maxRecv)
        && d.flow.sendMax == c.flow.sendMax && d.flow.maxSend == c.flow.maxSend
        && OutMax(d.alias.send) == OutMax(c.alias.send)
  {
    StepTerms(c, op);
    hide Step, Last, Expires;
  }
}
