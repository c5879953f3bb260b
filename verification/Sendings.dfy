/** What becomes of a packet the host wants sent, in both versions and from any state: it goes out, or it is refused
    with an error, or it waits for the next connection; and what a timer that fires makes the engine do. */
module Sendings {
  import opened Packets
  import opened TopicAlias
  import opened Store
  import opened Engine
  import opened Frames
  import opened Receptions
  import opened Settings
  import L = Laws

  // ---------------------------------------------------------------- publishing

  function Refusal(e: MqttError): seq<Event> { [NotifyError(e)] }

  /** Why a PUBLISH is refused, if it is. A v3.1.1 PUBLISH has neither alias nor quota. */
  function Barred(c: Conn, p: Publish): Option<MqttError> {
    if c.version == V5_0 && c.flow.maxSend < Size(V5_0, PublishPacket(p)) then Some(PacketTooLarge)
    else if p.qos == AtMostOnce && c.status != Connected then Some(PacketNotAllowedToSend)
    else if p.qos != AtMostOnce && c.status != Connected && !c.session.needStore && !c.opt.offlinePublish
    then Some(PacketNotAllowedToSend)
    else if p.qos != AtMostOnce && 1 <= p.pid <= 65535 && p.pid !in c.ids.used then Some(PacketIdentifierInvalid)
    else if c.version == V5_0 && BadAlias(c, p) then Some(PacketNotAllowedToSend)
    else if c.version == V5_0 && p.qos != AtMostOnce && QuotaFull(c) then Some(ReceiveMaximumExceeded)
    else None
  }

  /** An alias to bind is no good unless it is within the peer's maximum, a bare one unless it also stands for a
      topic. */
  lemma BadAliasMeans(c: Conn, p: Publish)
    ensures BadAlias(c, p) <==>
      && (p.alias.Some? || p.topic == [])
      && !(p.alias.Some? && c.alias.send.Some? && 1 <= p.alias.value <= c.alias.send.value.max
           && (p.topic == [] ==> Peek(c.alias.send.value, p.alias.value).Some?))
  {
    hide Touch, Peek;
  }

  /** The packet as it goes out: v5.0 may put an alias in the place of the topic. */
  function OnWire(c: Conn, p: Publish): Publish {
    if c.version != V5_0 || p.topic == [] || p.alias.Some? || c.alias.send.None? then p
    else match FindByTopic(c.alias.send.value, p.topic) {
      case Some(a) => if c.opt.autoMap || c.opt.autoReplace then ByAlias(p, a) else p
      case None => if c.opt.autoMap then ByAlias(p, LruAlias(c.alias.send.value)) else p
    }
  }

  /** The identifier that is given back if the packet cannot be sent: that of an exchange which is not stored. */
  function GivenBack(c: Conn, p: Publish): Option<nat> {
    if p.qos == AtMostOnce || (c.session.needStore && (c.status != Disconnected || c.opt.offlinePublish)) then None
    else Some(p.pid)
  }

  function Publishing(c: Conn, p: Publish): seq<Event> {
    match Barred(c, p)
    case Some(e) => Refusal(e)
    case None =>
      if c.status != Connected then []
      else [RequestSendPacket(PublishPacket(OnWire(c, p)), GivenBack(c, p))] + Restart(c)
  }

  lemma RefusalShows(c: Conn, e: MqttError, id: nat)
    ensures Visible(Refuse(c, e).ev) == Refusal(e) && Visible(RefuseAndRelease(c, e, id).ev) == Refusal(e)
  {
    AllLoud([NotifyError(e)]);
    ReleaseQuiet(c, id);
    VisibleAppend([NotifyError(e)], Release(c, id).ev);
    hide Release;
  }

  lemma PublishV3Shows(c: Conn, p: Publish)
    requires !IsV5(c)
    ensures Visible(SendPublishV3(c, p).ev) == Publishing(c, p)
  {
    hide SendNow, Refuse, RefuseAndRelease, Has;
    RefusalShows(c, PacketNotAllowedToSend, p.pid);
    RefusalShows(c, PacketIdentifierInvalid, p.pid);
    if p.qos.AtMostOnce? {
      SendNowShows(c, PublishPacket(p), None);
    } else {
      var c1 := Await(if Stores(c) then Keep(c, StoredPublish(V3_1_1, p.(dup := true))) else c, p);
      SendNowShows(c1, PublishPacket(p), GivenBack(c, p));
    }
  }

  /** What is left once the alias is settled: the quota and the packet itself. */
  function Launched(c: Conn, p: Publish, release: Option<nat>): seq<Event> {
    if p.qos != AtMostOnce && QuotaFull(c) then Refusal(ReceiveMaximumExceeded)
    else if c.status == Connected then [RequestSendPacket(PublishPacket(p), release)] + Restart(c) else []
  }

  lemma CountedShows(c: Conn, d: Conn, p: Publish, release: Option<nat>)
    requires d == c.(alias := d.alias, ids := d.ids, session := d.session, panicked := d.panicked)
    ensures Visible(SendCounted(d, p, release).ev) == Launched(c, p, release)
  {
    hide SendNow, RefuseAndRelease;
    RefusalShows(d, ReceiveMaximumExceeded, p.pid);
    SendNowShows(d, PublishPacket(p), release);
    SendNowShows(Panic(d), PublishPacket(p), release);
    SendNowShows(d.(flow := d.flow.(sendCount := d.flow.sendCount + 1)), PublishPacket(p), release);
  }

  lemma AliasedShows(c: Conn, p: Publish, release: Option<nat>, validated: bool)
    requires IsV5(c)
    ensures Visible(SendAliased(c, p, release, validated).ev) ==
      if BadAlias(c, p) && !(p.topic == [] && validated) then Refusal(PacketNotAllowedToSend)
      else Launched(c, OnWire(c, p), release)
  {
    if p.topic == [] || p.alias.Some? {
      NamedShows(c, p, release, validated);
    } else {
      MappedShows(c, p, release, validated);
    }
    hide SendAliased, BadAlias, OnWire, Launched;
  }

  lemma NamedShows(c: Conn, p: Publish, release: Option<nat>, validated: bool)
    requires IsV5(c) && (p.topic == [] || p.alias.Some?)
    ensures Visible(SendAliased(c, p, release, validated).ev) ==
      if BadAlias(c, p) && !(p.topic == [] && validated) then Refusal(PacketNotAllowedToSend)
      else Launched(c, OnWire(c, p), release)
  {
    hide SendCounted, Refuse, RefuseAndRelease, Peek, Touch, InsertOrUpdate, Launched, Visible;
    var c1 := ResolveAlias(c, p.alias).0;
    RefusalShows(c, PacketNotAllowedToSend, p.pid);
    RefusalShows(c1, PacketNotAllowedToSend, p.pid);
    CountedShows(c, c, p, release);
    CountedShows(c, c1, p, release);
    if p.alias.Some? { CountedShows(c, BindAlias(c, p.topic, p.alias.value), p, release); }
  }

  lemma MappedShows(c: Conn, p: Publish, release: Option<nat>, validated: bool)
    requires IsV5(c) && p.topic != [] && p.alias.None?
    ensures Visible(SendAliased(c, p, release, validated).ev) == Launched(c, OnWire(c, p), release)
  {
    hide SendCounted, InsertOrUpdate, FindByTopic, LruAlias, Launched, Visible;
    CountedShows(c, c, p, release);
    if c.alias.send.Some? && IsConnected(c) {
      var a := LruAlias(c.alias.send.value);
      CountedShows(c, BindAlias(c, p.topic, a), ByAlias(p, a), release);
      var f := FindByTopic(c.alias.send.value, p.topic);
      if f.Some? { CountedShows(c, c, ByAlias(p, f.value), release); }
    } else {
      Unconnected(c, p, release);
    }
  }

  /** Without a connection nothing goes out, in whatever form. */
  lemma Unconnected(c: Conn, p: Publish, release: Option<nat>)
    ensures c.alias.send.None? || !IsConnected(c) ==> Launched(c, OnWire(c, p), release) == Launched(c, p, release)
  {
    hide FindByTopic, LruAlias;
  }

  lemma AfterAwait(c: Conn, d: Conn, p: Publish, release: Option<nat>)
    requires IsV5(c) && d == c.(alias := d.alias, ids := d.ids, session := d.session, panicked := d.panicked)
    requires d.alias == c.alias || p.topic == []
    ensures Launched(d, OnWire(d, p), release) == Launched(c, OnWire(c, p), release)
    ensures d.alias == c.alias ==> (BadAlias(d, p) <==> BadAlias(c, p))
  {
    hide FindByTopic, LruAlias, Peek, Touch;
  }

  lemma PublishV5Shows(c: Conn, p: Publish)
    requires IsV5(c)
    ensures Visible(SendPublishV5(c, p).ev) == Publishing(c, p)
  {
    hide SendAliased, Refuse, RefuseAndRelease, Peek, Touch, FindByTopic, LruAlias, Has, HasWildcard, Visible, OnWire,
      Launched;
    RefusalShows(c, PacketTooLarge, p.pid);
    RefusalShows(c, PacketNotAllowedToSend, p.pid);
    RefusalShows(c, PacketIdentifierInvalid, p.pid);
    PublishingIs(c, p);
    if p.qos.AtMostOnce? {
      AliasedShows(c, p, None, false);
      hide BadAlias;
    } else if !Stores(c) {
      AliasedShows(Await(c, p), p, Some(p.pid), false);
      AfterAwait(c, Await(c, p), p, Some(p.pid));
      hide BadAlias;
    } else if p.topic != [] {
      var d := Await(Keep(c, StoredPublish(V5_0, p.(alias := None, dup := true))), p);
      AliasedShows(d, p, None, false);
      AfterAwait(c, d, p, None);
      hide BadAlias;
    } else {
      var (c1, t) := ResolveAlias(c, p.alias);
      RefusalShows(c1, PacketNotAllowedToSend, p.pid);
      if t.Some? {
        var c2 := if HasWildcard(t.value) then Panic(c1)
                  else Keep(c1, StoredPublish(V5_0, p.(topic := t.value, alias := None, dup := true)));
        AliasedShows(Await(c2, p), p, None, true);
        AfterAwait(c, Await(c2, p), p, None);
      }
    }
  }

  /** The checks of v5.0 in the order in which they are made. */
  lemma PublishingIs(c: Conn, p: Publish)
    requires IsV5(c)
    ensures Publishing(c, p) ==
      if TooLarge(c, PublishPacket(p)) then Refusal(PacketTooLarge)
      else if p.qos.AtMostOnce? && !IsConnected(c) then Refusal(PacketNotAllowedToSend)
      else if !p.qos.AtMostOnce? && !MayPublish(c) then Refusal(PacketNotAllowedToSend)
      else if !p.qos.AtMostOnce? && !IsUsed(c, p.pid) then Refusal(PacketIdentifierInvalid)
      else if BadAlias(c, p) then Refusal(PacketNotAllowedToSend)
      else Launched(c, OnWire(c, p), if p.qos.AtMostOnce? || Stores(c) then None else Some(p.pid))
  {
    hide BadAlias, FindByTopic, LruAlias;
  }

  // ---------------------------------------------------------------- every other packet

  /** What is sent at once if there is a connection that takes it. */
  function Attempt(c: Conn, p: Packet, release: Option<nat>): seq<Event> {
    if c.version == V5_0 && c.flow.maxSend < Size(V5_0, p) then Refusal(PacketTooLarge)
    else if c.status != Connected then Refusal(PacketNotAllowedToSend)
    else [RequestSendPacket(p, release)] + Restart(c)
  }

  /** A server keep alive that is announced restarts the timer that watches the client. */
  function Watching(props: seq<Prop>): seq<Event> {
    if props == [] then []
    else
      (match props[0] case ServerKeepAlive(v) => if v > 0 then [RequestTimerReset(PingreqRecv, v * 1500)] else []
                      case _ => [])
      + Watching(props[1..])
  }

  function Outgoing(c: Conn, p: Packet): seq<Event> {
    match p
    case PublishPacket(pub) => Publishing(c, pub)
    case Connect(_, keep, _, _) =>
      if TooLarge(c, p) then Refusal(PacketTooLarge)
      else if c.status != Disconnected then Refusal(PacketNotAllowedToSend)
      else
        var ms := match c.timers.userSendMs case Some(ms) => ms case None => keep * 1000;
        [RequestSendPacket(p, None)] + if ms > 0 then [RequestTimerReset(PingreqSend, ms)] else []
    case Connack(ok, _, props, _) =>
      if TooLarge(c, p) then Refusal(PacketTooLarge)
      else if c.status != Connecting then Refusal(PacketNotAllowedToSend)
      else if !ok then [RequestSendPacket(p, None), RequestClose]
      else (if c.version == V5_0 then Watching(props) else [])
           + [RequestSendPacket(p, None)] + Resent(Sendable(c, c.session.store)) + Restart(c)
    case Pubrel(id, _, _) =>
      if TooLarge(c, p) then Refusal(PacketTooLarge)
      else if c.status != Connected && !c.session.needStore then Refusal(PacketNotAllowedToSend)
      else if 1 <= id <= 65535 && id !in c.ids.used then Refusal(PacketIdentifierInvalid)
      else (if c.status == Connected then [RequestSendPacket(p, None)] else []) + Restart(c)
    case Subscribe(id, _) =>
      if Takes(c, Size(c.version, p)) && 1 <= id <= 65535 && id !in c.ids.used then Refusal(PacketIdentifierInvalid)
      else Attempt(c, p, Some(id))
    case Unsubscribe(id, _) =>
      if Takes(c, Size(c.version, p)) && 1 <= id <= 65535 && id !in c.ids.used then Refusal(PacketIdentifierInvalid)
      else Attempt(c, p, Some(id))
    case Pingreq =>
      if Takes(c, 2) && c.timers.respTimeoutMs > 0 then
        [RequestSendPacket(p, None), RequestTimerReset(PingrespRecv, c.timers.respTimeoutMs)] + Restart(c)
      else Attempt(c, p, None)
    case Disconnect(_, _) =>
      if Takes(c, Size(c.version, p)) then [RequestSendPacket(p, None), RequestClose] else Attempt(c, p, None)
    case Auth(_) =>
      if c.flow.maxSend < Size(V5_0, p) then Refusal(PacketTooLarge)
      else if c.status == Disconnected then Refusal(PacketNotAllowedToSend)
      else [RequestSendPacket(p, None)] + Restart(c)
    case _ => Attempt(c, p, None)
  }

  lemma ConnectShows(c: Conn, p: Packet)
    requires p.Connect?
    ensures Visible(SendConnect(c, p).ev) == Outgoing(c, p)
  {
    hide SendNow, Greeting, Refuse;
    RefusalShows(c, PacketTooLarge, 0);
    RefusalShows(c, PacketNotAllowedToSend, 0);
    SendNowShows(Greeting(c, p), p, None);
    GreetingTerms(c, p);
    assert var t := Calling(c, p);
      t.opt.isClient && t.userMs == c.timers.userSendMs && t.serverMs == None && t.ownMs == p.keepAlive * 1000 by {
      hide Last, Expires;
    }
    hide Calling;
  }

  lemma {:induction false} PropsWatch(c: Conn, props: seq<Prop>)
    ensures Visible(ApplySentProps(c, props, false).ev) == Watching(props)
    decreases |props|
  {
    if props != [] {
      var r := SentProp(c, props[0], false);
      if props[0].ServerKeepAlive? && props[0].val > 0 { AllLoud(r.ev); } else { AllQuiet(r.ev); }
      VisibleAppend(r.ev, ApplySentProps(r.c, props[1..], false).ev);
      hide SentProp;
      PropsWatch(r.c, props[1..]);
    }
  }

  lemma ConnackSentShows(c: Conn, p: Packet)
    requires p.Connack?
    ensures Visible(SendConnack(c, p).ev) == Outgoing(c, p)
  {
    hide ApplySentProps, Resend, Sendable, Refuse;
    RefusalShows(c, PacketTooLarge, 0);
    RefusalShows(c, PacketNotAllowedToSend, 0);
    if !TooLarge(c, p) && c.status.Connecting? {
      if !p.accepted { RejectShows(c, p); } else { AcceptShows(c, p); }
    }
  }

  lemma AcceptShows(c: Conn, p: Packet)
    requires p.Connack? && p.accepted && !TooLarge(c, p) && c.status.Connecting?
    ensures Visible(SendConnack(c, p).ev) ==
      (if c.version == V5_0 then Watching(p.props) else [])
      + [RequestSendPacket(p, None)] + Resent(Sendable(c, c.session.store)) + Restart(c)
  {
    hide ApplySentProps, Sendable, TooLarge, SendStored, Watching, Resent, Visible, PostSend, CancelTimers;
    var r := if IsV5(c) then ApplySentProps(c, p.props, false) else R(c, []);
    PropsWatch(c, p.props);
    assert Visible([]) == [] by { AllQuiet([]); }
    SentPropsMove(c, p.props, false);
    SentPropsIntervals(c, p.props);
    var e := r.c.(status := Connected);
    StoredShows(e);
    SameSendable(c, e, c.session.store);
    SendStoredMoves(e);
    var stored := SendStored(e);
    TimersShow(stored.c);
    var send := [RequestSendPacket(p, None)];
    AllLoud(send);
    VisibleAppend(r.ev, send);
    VisibleAppend(r.ev + send, stored.ev);
    VisibleAppend(r.ev + send + stored.ev, PostSend(stored.c).ev);
  }

  lemma StoredShows(c: Conn)
    ensures Visible(SendStored(c).ev) == Resent(Sendable(c, c.session.store))
  {
    ResendShows(c, c.session.store);
  }

  lemma SentPropsIntervals(c: Conn, props: seq<Prop>)
    ensures var d := ApplySentProps(c, props, false).c;
      Restart(d) == Restart(c) && d.flow.maxSend == c.flow.maxSend && d.session.store == c.session.store
  {
    PropsAnnounced(c, props, false);
    SentPropsMove(c, props, false);
    hide ApplySentProps, Last, Expires;
    assert TermsOf(ApplySentProps(c, props, false).c).userMs == TermsOf(c).userMs;
  }

  lemma PubrelShows(c: Conn, p: Packet)
    requires p.Pubrel?
    ensures Visible(SendPubrel(c, p).ev) == Outgoing(c, p)
  {
    hide Refuse, Has, Visible, PostSend, Restart;
    RefusalShows(c, PacketTooLarge, 0);
    RefusalShows(c, PacketNotAllowedToSend, 0);
    RefusalShows(c, PacketIdentifierInvalid, 0);
    if IsConnected(c) {
      PubrelSentShows(c, p);
      hide SendPubrel;
    } else {
      var c1 := if c.session.needStore then Keep(c, StoredPubrel(c.version, p.pid, p.rc, p.rem)) else c;
      TimersShow(c1);
      SameRestart(c, c1);
    }
  }

  lemma SameRestart(c: Conn, d: Conn)
    requires d.opt == c.opt && d.timers == c.timers
    ensures Restart(d) == Restart(c)
  {
  }

  lemma RequestShows(c: Conn, p: Packet)
    requires p.Subscribe? || p.Unsubscribe?
    ensures Visible(SendRequest(c, p).ev) == Outgoing(c, p)
  {
    hide SendNow, Refuse, RefuseAndRelease;
    RefusalShows(c, PacketTooLarge, p.pid);
    RefusalShows(c, PacketNotAllowedToSend, p.pid);
    RefusalShows(c, PacketIdentifierInvalid, p.pid);
    var c1 := if p.Subscribe? then c.(ids := c.ids.(suback := c.ids.suback + {p.pid}))
        else c.(ids := c.ids.(unsuback := c.ids.unsuback + {p.pid}));
    SendNowShows(c1, p, Some(p.pid));
  }

  lemma PingreqShows(c: Conn)
    ensures Visible(SendPingreq(c).ev) == Outgoing(c, Pingreq)
  {
    hide SendNow, Refuse, PostSend, Visible;
    if Takes(c, 2) && c.timers.respTimeoutMs != 0 {
      var d := c.(timers := c.timers.(respSet := true));
      var ev := [RequestSendPacket(Pingreq, None), RequestTimerReset(PingrespRecv, c.timers.respTimeoutMs)];
      TimersShow(d);
      AllLoud(ev);
      VisibleAppend(ev, PostSend(d).ev);
    } else {
      RefusalShows(c, PacketTooLarge, 0);
      RefusalShows(c, PacketNotAllowedToSend, 0);
      SendNowShows(c, Pingreq, None);
    }
  }

  lemma FarewellShows(c: Conn, p: Packet)
    requires p.Disconnect?
    ensures Visible(SendDisconnect(c, p, IsV5(c)).ev) == Outgoing(c, p)
  {
    hide SendNow, Refuse, Visible, CancelTimers, Restart;
    if Takes(c, Size(c.version, p)) {
      var d := c.(status := Disconnected);
      TimersShow(d);
      AllLoud([RequestSendPacket(p, None), RequestClose]);
      VisibleAppend(CancelTimers(d).ev, [RequestSendPacket(p, None), RequestClose]);
    } else {
      RefusalShows(c, PacketTooLarge, 0);
      RefusalShows(c, PacketNotAllowedToSend, 0);
    }
  }

  lemma AuthShows(c: Conn, p: Packet)
    requires p.Auth?
    ensures Visible(SendAuth(c, p).ev) == Outgoing(c, p)
  {
    hide SendNow, Refuse, Visible, Restart;
    RefusalShows(c, PacketTooLarge, 0);
    RefusalShows(c, PacketNotAllowedToSend, 0);
    SendNowShows(c, p, None);
  }

  lemma ResponseShows(c: Conn, p: Packet)
    ensures Visible(SendWhenConnected(c, p).ev) == Attempt(c, p, None)
  {
    hide Refuse;
    RefusalShows(c, PacketTooLarge, 0);
    RefusalShows(c, PacketNotAllowedToSend, 0);
    if IsConnected(c) { AnswerShows(c, p, Size(c.version, p)); }
    hide SendNow;
  }

  lemma DispatchShows(c: Conn, p: Packet)
    ensures Visible(Dispatch(c, p).ev) == Outgoing(c, p)
  {
    hide SendConnect, SendConnack, SendPublishV3, SendPublishV5, SendPubrel, SendRequest, SendPingreq, SendAuth,
      SendWhenConnected, SendDisconnect, Attempt, TooLarge, Publishing, Restart, Visible;
    match p
    case Connect(_, _, _, _) => ConnectShows(c, p); hide Outgoing;
    case Connack(_, _, _, _) => ConnackSentShows(c, p); hide Outgoing;
    case PublishPacket(pub) => if IsV5(c) { PublishV5Shows(c, pub); } else { PublishV3Shows(c, pub); }
    case Pubrel(_, _, _) => PubrelShows(c, p); hide Outgoing;
    case Subscribe(_, _) => RequestShows(c, p); hide Outgoing;
    case Unsubscribe(_, _) => RequestShows(c, p); hide Outgoing;
    case Pingreq => PingreqShows(c); hide Outgoing;
    case Auth(_) => AuthShows(c, p); hide Outgoing;
    case Disconnect(_, _) => FarewellShows(c, p); hide Outgoing;
    case _ => ResponseShows(c, p);
  }

  /** Everything a call to send makes the engine show: the packet, with the identifier to give back if the host cannot
      send it, what goes with it, and the timers it restarts; or the one error that refuses it. */
  lemma SendingShows(c: Conn, v: Version, p: Packet)
    ensures Visible(Step(c, OpSend(v, p)).ev) ==
      if v == Undetermined || c.version != v || (p.Auth? && v != V5_0) then Refusal(VersionMismatch)
      else if !RoleMaySend(c.opt.role, v, p) then Refusal(PacketNotAllowedToSend)
      else Outgoing(c, p)
  {
    hide Dispatch, Refuse, Outgoing;
    DispatchShows(c, p);
    RefusalShows(c, VersionMismatch, 0);
    RefusalShows(c, PacketNotAllowedToSend, 0);
  }

  // ---------------------------------------------------------------- roles

  /** What one role may send is what the other takes: a client and a server agree on the directions of all packets. */
  lemma RolesAgree(v: Version, p: Packet)
    requires v != Undetermined && !(p.Auth? && v == V3_1_1)
    ensures RoleMaySend(Client, v, p) <==> RoleMayReceive(Server, v, TypeCode(p))
    ensures RoleMaySend(Server, v, p) <==> RoleMayReceive(Client, v, TypeCode(p))
    ensures !RoleMaySend(Client, v, p) ==> RoleMaySend(Server, v, p)
    ensures p.Connect? ==> !RoleMaySend(Server, v, p)
  {
  }

  // ---------------------------------------------------------------- SUBSCRIBE and UNSUBSCRIBE

  predicate IsRequest(p: Packet) { p.Subscribe? || p.Unsubscribe? }

  /** The acknowledgement of a request, and the other kind. */
  function AckOf(p: Packet, rem: nat): Packet
    requires IsRequest(p)
  {
    if p.Subscribe? then Suback(p.pid, rem) else Unsuback(p.pid, rem)
  }

  function OtherAck(p: Packet, rem: nat): Packet
    requires IsRequest(p)
  {
    if p.Subscribe? then Unsuback(p.pid, rem) else Suback(p.pid, rem)
  }

  /** A request is awaited, in its own set, exactly if it goes out; it goes out exactly if there is a connection that
      takes it, for an identifier in use. */
  lemma RequestAwaitedIff(c: Conn, p: Packet)
    requires IsRequest(p) && c.version != Undetermined && c.opt.role != Server && 1 <= p.pid <= 65535
    ensures var r := Step(c, OpSend(c.version, p));
      && (Emitted(r.ev, p) <==> Takes(c, Size(c.version, p)) && p.pid in c.ids.used)
      && r.c.ids.suback == (if p.Subscribe? && Emitted(r.ev, p) then c.ids.suback + {p.pid} else c.ids.suback)
      && r.c.ids.unsuback == (if p.Unsubscribe? && Emitted(r.ev, p) then c.ids.unsuback + {p.pid} else c.ids.unsuback)
      && r.c.ids == c.ids.(used := r.c.ids.used, suback := r.c.ids.suback, unsuback := r.c.ids.unsuback)
      && (Takes(c, Size(c.version, p)) ==> r.c.ids.used == c.ids.used)
  {
    var r := Step(c, OpSend(c.version, p));
    if Takes(c, Size(c.version, p)) && p.pid in c.ids.used { assert r.ev[0] == RequestSendPacket(p, Some(p.pid)); }
  }

  /** The answer to a request that went out: it gives the identifier back, with one report, and is handed to the host;
      the other kind of acknowledgement is a protocol error and gives nothing back. */
  lemma RequestAnswered(c: Conn, p: Packet, rem: nat)
    requires IsRequest(p) && c.version != Undetermined && c.opt.role != Server && 1 <= p.pid <= 65535
    requires Emitted(Step(c, OpSend(c.version, p)).ev, p) && TotalSize(rem) <= c.flow.maxRecv
    ensures var d := Step(c, OpSend(c.version, p)).c;
      && (var r := Step(d, Arrival(AckOf(p, rem)));
          && p.pid in d.ids.used && r.c.ids.used == d.ids.used - {p.pid} && L.Released(r.ev) == [p.pid]
          && p.pid !in (if p.Subscribe? then r.c.ids.suback else r.c.ids.unsuback)
          && Visible(r.ev) == Wake(c) + [NotifyPacketReceived(AckOf(p, rem))])
      && (p.pid !in (if p.Subscribe? then c.ids.unsuback else c.ids.suback) ==>
            var r := Step(d, Arrival(OtherAck(p, rem)));
            && r.c.ids == d.ids && L.Released(r.ev) == [] && Visible(r.ev) == Objection(d, ProtocolError))
  {
    hide Step, Visible, L.Released, Shown;
    var d := Step(c, OpSend(c.version, p)).c;
    RequestAwaitedIff(c, p);
    RequestLeaves(c, p);
    AckEnds(d, AckOf(p, rem));
    if p.pid !in (if p.Subscribe? then c.ids.unsuback else c.ids.suback) { AckEnds(d, OtherAck(p, rem)); }
  }

  lemma RequestLeaves(c: Conn, p: Packet)
    requires IsRequest(p)
    ensures var d := Step(c, OpSend(c.version, p)).c;
      d == c.(ids := d.ids, timers := c.timers.(sendSet := d.timers.sendSet), panicked := d.panicked)
  {
  }

  /** A SUBACK or UNSUBACK in any state: expected, it ends the request; unexpected, it is a protocol error. */
  lemma AckEnds(c: Conn, p: Packet)
    requires (p.Suback? || p.Unsuback?) && c.version != Undetermined && c.opt.role != Server
    requires TotalSize(p.rem) <= c.flow.maxRecv && 1 <= p.pid <= 65535 && p.pid in c.ids.used
    ensures var r := Step(c, Arrival(p));
      var awaited := p.pid in (if p.Suback? then c.ids.suback else c.ids.unsuback);
      && r.c.ids == (if !awaited then c.ids
                     else if p.Suback? then c.ids.(used := c.ids.used - {p.pid}, suback := c.ids.suback - {p.pid})
                     else c.ids.(used := c.ids.used - {p.pid}, unsuback := c.ids.unsuback - {p.pid}))
      && L.Released(r.ev) == (if awaited then [p.pid] else [])
      && Visible(r.ev) == if awaited then Wake(c) + [NotifyPacketReceived(p)] else Objection(c, ProtocolError)
  {
    assert Step(c, Arrival(p)) == ReceivePacket(c, p) by { hide ReceivePacket; }
    AckShows(c, p);
    var awaited := p.pid in (if p.Suback? then c.ids.suback else c.ids.unsuback);
    if awaited { FinishReports(c, p); } else { FailReports(c); }
    hide Step, Visible, L.Released, Objection;
  }

  lemma FinishReports(c: Conn, p: Packet)
    requires (p.Suback? && p.pid in c.ids.suback) || (p.Unsuback? && p.pid in c.ids.unsuback)
    requires 1 <= p.pid <= 65535 && p.pid in c.ids.used
    ensures L.Released(ReceivePacket(c, p).ev) == [p.pid]
  {
    var d := if p.Suback? then c.(ids := c.ids.(suback := c.ids.suback - {p.pid}))
             else c.(ids := c.ids.(unsuback := c.ids.unsuback - {p.pid}));
    var r := Release(d, p.pid);
    var rest := Deliver(r.c, p).ev;
    assert ReceivePacket(c, p).ev == [NotifyPacketIdReleased(p.pid)] + rest by { hide Deliver; }
    L.ReleasedAppend([NotifyPacketIdReleased(p.pid)], rest);
    NoneReleased(rest);
    assert L.Released([NotifyPacketIdReleased(p.pid)]) == [p.pid] by {
      assert [NotifyPacketIdReleased(p.pid)][1..] == [];
    }
    hide ReceivePacket, Deliver;
  }

  lemma {:induction false} NoneReleased(ev: seq<Event>)
    requires forall k :: 0 <= k < |ev| ==> !ev[k].NotifyPacketIdReleased?
    ensures L.Released(ev) == []
  {
    if ev != [] { NoneReleased(ev[1..]); }
  }

  lemma FailReports(c: Conn)
    ensures L.Released(Fail(c, ProtocolError).ev) == [] && Fail(c, ProtocolError).c.ids == c.ids
  {
    NoneReleased(Fail(c, ProtocolError).ev);
  }

  // ---------------------------------------------------------------- timers that fire, and ends

  /** The PINGREQ timer makes a connected client send PINGREQ, whose answer it times; the others give the connection up,
      v5.0 by a DISCONNECT that says why. */
  lemma ExpiryShows(c: Conn, k: TimerKind)
    requires c.version != Undetermined
    ensures Visible(Step(c, OpTimer(k)).ev) ==
      if k == PingreqSend then if c.status == Connected then Outgoing(c, Pingreq) else []
      else if c.version == V3_1_1 then [RequestClose]
      else if c.status != Connected then []
      else if c.flow.maxSend < 3 then Refusal(PacketTooLarge)
      else [RequestSendPacket(Disconnect(Some(KeepAliveTimeout), 1), None), RequestClose]
  {
    hide SendPingreq, SendDisconnect, Outgoing, Visible;
    var d := Disarm(c, k);
    PingreqShows(d);
    DisarmedShows(c, k);
    DisconnectShows(d, KeepAliveTimeout);
    AllLoud([RequestClose]);
    AllLoud([]);
  }

  lemma DisarmedShows(c: Conn, k: TimerKind)
    ensures Outgoing(Disarm(c, k), Pingreq) == Outgoing(c, Pingreq)
  {
    hide Size;
  }

  predicate Disarmed(c: Conn) { !c.timers.sendSet && !c.timers.recvSet && !c.timers.respSet }

  /** No timer stays armed behind a DISCONNECT in either direction, a refusal of the client, a framing error or a
      close. */
  lemma NothingLeftArmed(c: Conn, op: Op)
    requires match op
      case OpSend(v, p) =>
        v == c.version && (p.Disconnect? || (p.Connack? && !p.accepted)) && Emitted(Step(c, op).ev, p)
      case OpReceive(f) => f.Good? && Arrives(c, f) && f.packet.Disconnect?
      case OpFrameError(_) => true
      case OpClosed(_) => true
      case _ => false
    ensures Disarmed(Step(c, op).c)
    ensures op.OpFrameError? ==> Visible(Step(c, op).ev) == [RequestClose, NotifyError(op.error)]
  {
    match op
    case OpClosed(o) => ClosedMoves(c, o); hide Closed;
    case OpFrameError(e) =>
      TimersShow(c);
      AllLoud([RequestClose, NotifyError(e)]);
      VisibleAppend(CancelTimers(c).ev, [RequestClose, NotifyError(e)]);
      hide CancelTimers;
      assert Disarmed(CancelTimers(c).c) by { CancelsAll(c); }
    case OpReceive(f) =>
      hide CancelTimers;
      CancelsAll(c);
    case OpSend(v, p) =>
      hide CancelTimers;
      CancelsAll(c.(status := Disconnected));
  }

  /** PINGRESP stops the timer that waits for it, and no other. */
  lemma PingrespStops(c: Conn, f: Frame)
    requires f.Good? && Arrives(c, f) && f.packet.Pingresp?
    ensures var r := Step(c, OpReceive(f));
      && r.ev == (if c.timers.respSet then [RequestTimerCancel(PingrespRecv)] else [])
                 + [NotifyPacketReceived(Pingresp)]
      && r.c == c.(timers := c.timers.(respSet := false))
  {
  }

  /** The host sets the PINGREQ interval: 0 stops the timer, another one starts it on a connection, and without one the
      timer runs on. */
  lemma IntervalShows(c: Conn, ms: Option<nat>)
    ensures var r := Step(c, OpInterval(ms));
      var start := ms.Some? && ms.value > 0 && c.status == Connected;
      && r.ev == (if start then [RequestTimerReset(PingreqSend, ms.value)]
                  else if ms == Some(0) && c.timers.sendSet then [RequestTimerCancel(PingreqSend)] else [])
      && r.c == c.(timers := c.timers.(userSendMs := ms,
                   sendSet := start || (c.timers.sendSet && ms != Some(0))))
  {
  }

  /** Which timers a property of a CONNACK starts and stops. */
  lemma OneStops(c: Conn, p: Prop)
    ensures var d, k := ReceivedProp(c, p, false).c.timers, Says(p, KKeepAlive, false);
      && d.userSendMs == c.timers.userSendMs && d.recvSet == c.timers.recvSet && d.respSet == c.timers.respSet
      && d.sendSet == if c.timers.userSendMs == None && k.Some? then k.value > 0 else c.timers.sendSet
    ensures var d, k := SentProp(c, p, false).c.timers, Says(p, KKeepAlive, false);
      && d.sendSet == c.timers.sendSet && d.respSet == c.timers.respSet
      && d.recvSet == if k.Some? then k.value > 0 else c.timers.recvSet
  {
  }

  lemma {:induction false} PropsStop(c: Conn, props: seq<Prop>)
    ensures var d, last := ApplyReceivedProps(c, props, false).c.timers, Last(props, KKeepAlive, false);
      && d.recvSet == c.timers.recvSet && d.respSet == c.timers.respSet
      && d.sendSet == if c.timers.userSendMs == None && last.Some? then last.value > 0 else c.timers.sendSet
    ensures var d, last := ApplySentProps(c, props, false).c.timers, Last(props, KKeepAlive, false);
      && d.sendSet == c.timers.sendSet && d.respSet == c.timers.respSet
      && d.recvSet == if last.Some? then last.value > 0 else c.timers.recvSet
    decreases |props|
  {
    hide ReceivedProp, SentProp;
    if props != [] {
      OneStops(c, props[0]);
      PropsStop(ReceivedProp(c, props[0], false).c, props[1..]);
      PropsStop(SentProp(c, props[0], false).c, props[1..]);
      LastFirst(props[0], props[1..], KKeepAlive, false);
      assert [props[0]] + props[1..] == props;
      hide Last, Says;
    }
  }

  lemma SentRings(c: Conn)
    ensures var d := PostSend(c).c.timers;
      d == c.timers.(sendSet := c.timers.sendSet || Restart(c) != [])
  {
  }

  /** The last server keep alive that an accepting v5.0 CONNACK brings starts or, being 0, stops the PINGREQ timer,
      unless the host has set its own interval. The last one that is announced does so with the timer that watches the
      client. */
  lemma ConnackStops(c: Conn, op: Op, p: Packet)
    requires IsV5(c) && p.Connack? && p.accepted
    requires
      || (op == OpSend(V5_0, p) && c.opt.role != Client && c.status == Connecting && Size(V5_0, p) <= c.flow.maxSend)
      || (op.OpReceive? && op.frame.Good? && op.frame.packet == p && Arrives(c, op.frame))
    ensures var d, last := Step(c, op).c.timers, Last(p.props, KKeepAlive, false);
      && d.respSet == c.timers.respSet
      && (op.OpReceive? ==>
            d.recvSet == c.timers.recvSet &&
            d.sendSet == if c.timers.userSendMs == None && last.Some? then last.value > 0 else c.timers.sendSet)
      && (op.OpSend? ==>
            d.recvSet == (if last.Some? then last.value > 0 else c.timers.recvSet)
            && d.sendSet == (c.timers.sendSet || Restart(c) != []))
  {
    hide ApplyReceivedProps, ApplySentProps, SendStored, Last, Restart;
    if op.OpReceive? {
      PropsStop(c.(status := Connected), p.props);
      SendStoredMoves(Informed(c, p));
    } else {
      PropsStop(c, p.props);
      SentPropsIntervals(c, p.props);
      var d := ApplySentProps(c, p.props, false).c.(status := Connected);
      SendStoredMoves(d);
      SameRestart(ApplySentProps(c, p.props, false).c, d);
      SameRestart(d, SendStored(d).c);
      SentRings(SendStored(d).c);
      hide PostSend;
    }
  }

  lemma CancelsAll(c: Conn)
    ensures Disarmed(CancelTimers(c).c)
  {
  }
}
