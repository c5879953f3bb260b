/** The connection engine as functions on a state record: one function for each operation of the
    engine, giving the new state and the events handed to the host. The class in Connection.dfy is
    proved to compute exactly these. */
module Engine {
  import opened Packets
  import opened TopicAlias
  import opened Store

  datatype Status = Disconnected | Connecting | Connected

  /** The three timer flags and every interval that feeds them. */
  datatype Timers = Timers(
    userSendMs: Option<nat>, keepAliveMs: nat, serverKeepAliveMs: Option<nat>,
    recvTimeoutMs: nat, respTimeoutMs: nat,
    sendSet: bool, recvSet: bool, respSet: bool)

  /** The role of the connection and what the host has switched on. */
  datatype Options = Options(
    role: Role, isClient: bool,
    offlinePublish: bool, autoPub: bool, autoPing: bool, autoMap: bool, autoReplace: bool)

  /** Identifiers in use, and the five sets of identifiers whose acknowledgement is awaited. */
  datatype Ids = Ids(
    used: set<nat>, suback: set<nat>, unsuback: set<nat>, puback: set<nat>, pubrec: set<nat>, pubcomp: set<nat>)

  /** What outlives a connection: the retransmission store and the QoS 2 duplicate filter. */
  datatype Session = Session(needStore: bool, store: seq<StorePacket>, handled: set<nat>)

  datatype Aliases = Aliases(send: Option<AliasSend>, recv: Option<AliasRecv>)

  datatype Flow = Flow(
    sendMax: Option<nat>, recvMax: Option<nat>, sendCount: nat, publishRecv: set<nat>, maxSend: nat, maxRecv: nat)

  datatype Conn = Conn(
    opt: Options, version: Version, status: Status, ids: Ids, session: Session,
    alias: Aliases, flow: Flow, timers: Timers, panicked: bool)

  /** New state and the events of one call. `panicked` in the state records that an assert or an
      unwrap of the implementation failed; nothing is promised about the rest of such a state. */
  datatype R = R(c: Conn, ev: seq<Event>)

  function New(role: Role, version: Version): Conn {
    Conn(Options(role, false, false, false, false, false, false), version, Disconnected,
         Ids({}, {}, {}, {}, {}, {}), Session(false, [], {}), Aliases(None, None),
         Flow(None, None, 0, {}, NO_SIZE_LIMIT, NO_SIZE_LIMIT),
         Timers(None, 0, None, 0, 0, false, false, false), false)
  }

  function Before(ev: seq<Event>, r: R): R { R(r.c, ev + r.ev) }

  function Refuse(c: Conn, e: MqttError): R { R(c, [NotifyError(e)]) }

  function Panic(c: Conn): Conn { c.(panicked := true) }

  predicate IsConnected(c: Conn) { c.status.Connected? }

  predicate IsV5(c: Conn) { c.version.V5_0? }

  predicate InRange(id: nat) { 1 <= id <= MAX_ID }

  predicate IsUsed(c: Conn, id: nat) { !InRange(id) || id in c.ids.used }

  // ---------------------------------------------------------------- packet identifiers

  /** Releases an identifier and tells the host, if it is in use. */
  function Release(c: Conn, id: nat): R {
    if !IsUsed(c, id) then R(c, [])
    else if !InRange(id) then R(Panic(c), [])
    else R(c.(ids := c.ids.(used := c.ids.used - {id})), [NotifyPacketIdReleased(id)])
  }

  /** Refuses an operation and gives its identifier back. */
  function RefuseAndRelease(c: Conn, e: MqttError, id: nat): R {
    Before([NotifyError(e)], Release(c, id))
  }

  function LeastFree(used: set<nat>, from: nat): Option<nat>
    decreases MAX_ID + 1 - from
  {
    if from > MAX_ID then None else if from !in used then Some(from) else LeastFree(used, from + 1)
  }

  function Acquire(c: Conn): (Conn, Option<nat>) {
    match LeastFree(c.ids.used, 1)
    case Some(id) => (c.(ids := c.ids.(used := c.ids.used + {id})), Some(id))
    case None => (c, None)
  }

  function Register(c: Conn, id: nat): (Conn, bool) {
    if InRange(id) && id !in c.ids.used then (c.(ids := c.ids.(used := c.ids.used + {id})), true) else (c, false)
  }

  /** Releases the identifiers of a drained set, in the order the set yields them. */
  function Drain(c: Conn, ids: seq<nat>): R
    decreases |ids|
  {
    if ids == [] then R(c, [])
    else
      var r := Release(c, ids[0]);
      Before(r.ev, Drain(r.c, ids[1..]))
  }

  ghost predicate Enumerates(s: seq<nat>, S: set<nat>) {
    && (forall i, j :: 0 <= i < j < |s| ==> s[i] != s[j])
    && (forall x :: x in s <==> x in S)
  }

  // ---------------------------------------------------------------- timers

  function PingInterval(t: Timers): nat {
    match t.userSendMs
    case Some(ms) => ms
    case None => match t.serverKeepAliveMs case Some(ms) => ms case None => t.keepAliveMs
  }

  /** After every packet sent: a client restarts its PINGREQ timer. */
  function PostSend(c: Conn): R {
    if c.opt.isClient && PingInterval(c.timers) > 0
    then R(c.(timers := c.timers.(sendSet := true)), [RequestTimerReset(PingreqSend, PingInterval(c.timers))])
    else R(c, [])
  }

  function RefreshRecv(c: Conn): R {
    if c.timers.recvTimeoutMs != 0
    then R(c.(timers := c.timers.(recvSet := true)), [RequestTimerReset(PingreqRecv, c.timers.recvTimeoutMs)])
    else R(c, [])
  }

  function CancelTimers(c: Conn): R {
    R(c.(timers := c.timers.(sendSet := false, recvSet := false, respSet := false)),
      (if c.timers.sendSet then [RequestTimerCancel(PingreqSend)] else [])
      + (if c.timers.recvSet then [RequestTimerCancel(PingreqRecv)] else [])
      + (if c.timers.respSet then [RequestTimerCancel(PingrespRecv)] else []))
  }

  function SetPingreqInterval(c: Conn, ms: Option<nat>): R {
    var c1 := c.(timers := c.timers.(userSendMs := ms));
    match ms
    case None => R(c1, [])
    case Some(n) =>
      if n == 0 then
        if c.timers.sendSet
        then R(c1.(timers := c1.timers.(sendSet := false)), [RequestTimerCancel(PingreqSend)])
        else R(c1, [])
      else if IsConnected(c)
      then R(c1.(timers := c1.timers.(sendSet := true)), [RequestTimerReset(PingreqSend, n)])
      else R(c1, [])
  }

  // ---------------------------------------------------------------- sending

  function SendNow(c: Conn, p: Packet, release: Option<nat>): R {
    Before([RequestSendPacket(p, release)], PostSend(c))
  }

  predicate TooLarge(c: Conn, p: Packet) { IsV5(c) && Size(c.version, p) > c.flow.maxSend }

  function Initialize(c: Conn, client: bool): Conn {
    c.(flow := c.flow.(sendMax := None, recvMax := None, sendCount := 0, publishRecv := {}),
        alias := c.alias.(send := None, recv := None), session := c.session.(needStore := false),
        ids := c.ids.(suback := {}, unsuback := {}), opt := c.opt.(isClient := client),
        timers := c.timers.(keepAliveMs := 0, serverKeepAliveMs := None))
  }

  function ClearSession(c: Conn): Conn {
    c.(ids := c.ids.(used := {}, puback := {}, pubrec := {}, pubcomp := {}), session := c.session.(store := []))
  }

  /** Properties of a CONNECT that is sent, or of a CONNACK that is sent: they bind the receive side. */
  function ApplySentProps(c: Conn, props: seq<Prop>, connect: bool): R
    decreases |props|
  {
    if props == [] then R(c, [])
    else
      var r := SentProp(c, props[0], connect);
      Before(r.ev, ApplySentProps(r.c, props[1..], connect))
  }

  function SentProp(c: Conn, prop: Prop, connect: bool): R {
    match prop
    case TopicAliasMaximum(v) => R(if v != 0 then c.(alias := c.alias.(recv := Some(AliasRecv(v, map[])))) else c, [])
    case ReceiveMaximum(v) => R(if v == 0 then Panic(c) else c.(flow := c.flow.(recvMax := Some(v))), [])
    case MaximumPacketSize(v) => R(if v == 0 then Panic(c) else c.(flow := c.flow.(maxRecv := v)), [])
    case SessionExpiryInterval(v) => R(if connect && v != 0 then c.(session := c.session.(needStore := true))
        else c, [])
    case ServerKeepAlive(v) => if connect then R(c, []) else ServerKeepAliveSent(c, v)
    case OtherProp => R(c, [])
  }

  function ServerKeepAliveSent(c: Conn, v: nat): R {
    if v == 0 then
      R(c.(timers := c.timers.(recvSet := false, recvTimeoutMs := 0)),
        if c.timers.recvSet then [RequestTimerCancel(PingreqRecv)] else [])
    else
      R(c.(timers := c.timers.(recvSet := true, recvTimeoutMs := v * 1000 * 3 / 2)),
        [RequestTimerReset(PingreqRecv, v * 1000 * 3 / 2)])
  }

  function SendConnect(c: Conn, p: Packet): R
    requires p.Connect?
  {
    if TooLarge(c, p) then Refuse(c, PacketTooLarge)
    else if !c.status.Disconnected? then Refuse(c, PacketNotAllowedToSend)
    else
      SendNow(Greeting(c, p), p, None)
  }

  /** The state a client is in once it has sent a CONNECT. */
  function Greeting(c: Conn, p: Packet): Conn
    requires p.Connect?
  {
    var c1 := Initialize(c, true).(status := Connecting);
    var c2 := c1.(timers := c1.timers.(keepAliveMs := p.keepAlive * 1000));
    var c3 := if p.clean then ClearSession(c2) else if IsV5(c) then c2
        else c2.(session := c2.session.(needStore := true));
    if IsV5(c) then ApplySentProps(c3, p.props, true).c else c3
  }

  /** Resends the store in order; a packet the peer cannot take is dropped and its identifier freed. */
  function SendStored(c: Conn): R {
    var r := Resend(c, c.session.store);
    R(r.c.(session := r.c.session.(store := Sendable(c, c.session.store))), r.ev)
  }

  predicate Fits(c: Conn, p: StorePacket) { Size(p.version, ToPacket(p)) <= c.flow.maxSend }

  /** Freeing without asking fails an assert out of range, and overflows for the largest identifier if it
      is free already. */
  predicate Freeable(c: Conn, id: nat) { InRange(id) && (id == MAX_ID ==> id in c.ids.used) }

  function Resend(c: Conn, s: seq<StorePacket>): R
    decreases |s|
  {
    if s == [] then R(c, [])
    else if Fits(c, s[0]) then Before([RequestSendPacket(ToPacket(s[0]), None)], Resend(c, s[1..]))
    else
      var id := IdOf(s[0]);
      if Freeable(c, id)
      then Before([NotifyPacketIdReleased(id)], Resend(c.(ids := c.ids.(used := c.ids.used - {id})), s[1..]))
      else Resend(Panic(c), s[1..])
  }

  function Sendable(c: Conn, s: seq<StorePacket>): seq<StorePacket> {
    if s == [] then []
    else if Fits(c, s[0]) then [s[0]] + Sendable(c, s[1..])
    else Sendable(c, s[1..])
  }

  function SendConnack(c: Conn, p: Packet): R
    requires p.Connack?
  {
    if TooLarge(c, p) then Refuse(c, PacketTooLarge)
    else if !c.status.Connecting? then Refuse(c, PacketNotAllowedToSend)
    else if !p.accepted then
      Before([RequestSendPacket(p, None)],
             var r := CancelTimers(c.(status := Disconnected)); R(r.c, r.ev + [RequestClose]))
    else
      var r := if IsV5(c) then ApplySentProps(c, p.props, false) else R(c, []);
      var stored := SendStored(r.c.(status := Connected));
      var post := PostSend(stored.c);
      R(post.c, r.ev + [RequestSendPacket(p, None)] + stored.ev + post.ev)
  }

  /** Stores a packet for retransmission; storing an identifier twice is a failed unwrap. */
  function Keep(c: Conn, p: StorePacket): Conn {
    if Has(c.session.store, IdOf(p)) then Panic(c) else c.(session := c.session.(store := c.session.store + [p]))
  }

  function Await(c: Conn, p: Publish): Conn {
    if p.qos.ExactlyOnce? then c.(ids := c.ids.(pubrec := c.ids.pubrec + {p.pid}))
    else c.(ids := c.ids.(puback := c.ids.puback + {p.pid}))
  }

  predicate Stores(c: Conn) { c.session.needStore && (!c.status.Disconnected? || c.opt.offlinePublish) }

  predicate MayPublish(c: Conn) { IsConnected(c) || c.session.needStore || c.opt.offlinePublish }

  function SendPublish(c: Conn, p: Publish): R {
    if IsV5(c) then SendPublishV5(c, p) else SendPublishV3(c, p)
  }

  function SendPublishV3(c: Conn, p: Publish): R {
    if p.qos.AtMostOnce? then
      if IsConnected(c) then SendNow(c, PublishPacket(p), None) else Refuse(c, PacketNotAllowedToSend)
    else if !MayPublish(c) then RefuseAndRelease(c, PacketNotAllowedToSend, p.pid)
    else if !IsUsed(c, p.pid) then Refuse(c, PacketIdentifierInvalid)
    else
      var c1 := Await(if Stores(c) then Keep(c, StoredPublish(V3_1_1, p.(dup := true))) else c, p);
      if IsConnected(c)
      then SendNow(c1, PublishPacket(p), if Stores(c) then None else Some(p.pid))
      else R(c1, [])
  }

  predicate AliasInRange(c: Conn, a: nat) { c.alias.send.Some? && 1 <= a <= c.alias.send.value.max }

  /** The topic a sent alias stands for; looking it up makes it the most recently used. */
  function ResolveAlias(c: Conn, alias: Option<nat>): (Conn, Option<Topic>) {
    if alias.None? || !AliasInRange(c, alias.value) then (c, None)
    else
      (c.(alias := c.alias.(send := Some(Touch(c.alias.send.value, alias.value)))),
          Peek(c.alias.send.value, alias.value))
  }

  function BindAlias(c: Conn, t: Topic, a: nat): Conn {
    if c.alias.send.None? then c
    else if t == [] || !(1 <= a <= c.alias.send.value.max) then Panic(c)
    else c.(alias := c.alias.(send := Some(InsertOrUpdate(c.alias.send.value, t, a))))
  }

  function ByAlias(p: Publish, a: nat): Publish { p.(topic := [], alias := Some(a)) }

  function SendPublishV5(c: Conn, p: Publish): R {
    if TooLarge(c, PublishPacket(p)) then Refuse(c, PacketTooLarge)
    else if p.qos.AtMostOnce? then
      if IsConnected(c) then SendAliased(c, p, None, false) else Refuse(c, PacketNotAllowedToSend)
    else if !MayPublish(c) then RefuseAndRelease(c, PacketNotAllowedToSend, p.pid)
    else if !IsUsed(c, p.pid) then Refuse(c, PacketIdentifierInvalid)
    else if !Stores(c) then SendAliased(Await(c, p), p, Some(p.pid), false)
    else if p.topic != [] then
      SendAliased(Await(Keep(c, StoredPublish(V5_0, p.(alias := None, dup := true))), p), p, None, false)
    else
      var (c1, t) := ResolveAlias(c, p.alias);
      if t.None? then RefuseAndRelease(c1, PacketNotAllowedToSend, p.pid)
      else
        var c2 := if HasWildcard(t.value) then Panic(c1)
                  else Keep(c1, StoredPublish(V5_0, p.(topic := t.value, alias := None, dup := true)));
        SendAliased(Await(c2, p), p, None, true)
  }

  function RefusePublish(c: Conn, e: MqttError, p: Publish): R {
    if p.qos.AtMostOnce? then Refuse(c, e) else RefuseAndRelease(c, e, p.pid)
  }

  /** Topic alias handling of a v5.0 PUBLISH. */
  function SendAliased(c: Conn, p: Publish, release: Option<nat>, validated: bool): R {
    if p.topic == [] then
      if validated then SendCounted(c, p, release)
      else
        var (c1, t) := ResolveAlias(c, p.alias);
        if t.None? then RefusePublish(c1, PacketNotAllowedToSend, p) else SendCounted(c1, p, release)
    else if p.alias.Some? then
      if AliasInRange(c, p.alias.value) then SendCounted(BindAlias(c, p.topic, p.alias.value), p, release)
      else RefusePublish(c, PacketNotAllowedToSend, p)
    else if IsConnected(c) && c.alias.send.Some? && (c.opt.autoMap || c.opt.autoReplace) then
      match FindByTopic(c.alias.send.value, p.topic)
      case Some(a) => SendCounted(c, ByAlias(p, a), release)
      case None =>
        if c.opt.autoMap then
          var a := LruAlias(c.alias.send.value);
          SendCounted(BindAlias(c, p.topic, a), ByAlias(p, a), release)
        else SendCounted(c, p, release)
    else SendCounted(c, p, release)
  }

  /** The Receive Maximum of the peer, then the packet itself. */
  function SendCounted(c: Conn, p: Publish, release: Option<nat>): R {
    if !p.qos.AtMostOnce? && c.flow.sendMax.Some? && c.flow.sendCount == c.flow.sendMax.value then
      RefuseAndRelease(c, ReceiveMaximumExceeded, p.pid)
    else
      var c1 := if !p.qos.AtMostOnce? && c.flow.sendMax.Some? then
                  if c.flow.sendCount == 0xFFFF then Panic(c)
                  else c.(flow := c.flow.(sendCount := c.flow.sendCount + 1))
                else c;
      if IsConnected(c) then SendNow(c1, PublishPacket(p), release) else R(c1, [])
  }

  /** SUBACK, UNSUBACK, PINGRESP and the publish responses share one shape. */
  function SendWhenConnected(c: Conn, p: Packet): R {
    if TooLarge(c, p) then Refuse(c, PacketTooLarge)
    else if !IsConnected(c) then Refuse(c, PacketNotAllowedToSend)
    else SendNow(AfterResponse(c, p), p, None)
  }

  predicate IsFailure(rc: Option<nat>) { rc.Some? && rc.value >= 0x80 }

  /** What sending a response changes: v5.0 frees a receive slot, a failing PUBREC ends the exchange. */
  function AfterResponse(c: Conn, p: Packet): Conn {
    if !IsV5(c) then c
    else match p {
      case Puback(id, _, _) => c.(flow := c.flow.(publishRecv := c.flow.publishRecv - {id}))
      case Pubcomp(id, _, _) => c.(flow := c.flow.(publishRecv := c.flow.publishRecv - {id}))
      case Pubrec(id, rc, _) =>
        if IsFailure(rc) then c.(flow := c.flow.(publishRecv := c.flow.publishRecv - {id}),
            session := c.session.(handled := c.session.handled - {id})) else c
      case _ => c
    }
  }

  function SendPubrel(c: Conn, p: Packet): R
    requires p.Pubrel?
  {
    if TooLarge(c, p) then Refuse(c, PacketTooLarge)
    else if !IsConnected(c) && !c.session.needStore then Refuse(c, PacketNotAllowedToSend)
    else if !IsUsed(c, p.pid) then Refuse(c, PacketIdentifierInvalid)
    else
      var c1 := if c.session.needStore then Keep(c, StoredPubrel(c.version, p.pid, p.rc, p.rem)) else c;
      if IsConnected(c) then SendNow(c1.(ids := c1.ids.(pubcomp := c1.ids.pubcomp + {p.pid})), p, None)
      else PostSend(c1)
  }

  /** SUBSCRIBE and UNSUBSCRIBE. */
  function SendRequest(c: Conn, p: Packet): R
    requires p.Subscribe? || p.Unsubscribe?
  {
    if TooLarge(c, p) then Refuse(c, PacketTooLarge)
    else if !IsConnected(c) then RefuseAndRelease(c, PacketNotAllowedToSend, p.pid)
    else if !IsUsed(c, p.pid) then Refuse(c, PacketIdentifierInvalid)
    else
      var c1 := if p.Subscribe? then c.(ids := c.ids.(suback := c.ids.suback + {p.pid}))
          else c.(ids := c.ids.(unsuback := c.ids.unsuback + {p.pid}));
      SendNow(c1, p, Some(p.pid))
  }

  function SendPingreq(c: Conn): R {
    if TooLarge(c, Pingreq) then Refuse(c, PacketTooLarge)
    else if !IsConnected(c) then Refuse(c, PacketNotAllowedToSend)
    else if c.timers.respTimeoutMs != 0 then
      Before([RequestSendPacket(Pingreq, None), RequestTimerReset(PingrespRecv, c.timers.respTimeoutMs)],
             PostSend(c.(timers := c.timers.(respSet := true))))
    else SendNow(c, Pingreq, None)
  }

  /** `v5` tells which of the two DISCONNECT operations runs; only the v5.0 one checks the size. */
  function SendDisconnect(c: Conn, p: Packet, v5: bool): R {
    if v5 && Size(V5_0, p) > c.flow.maxSend then Refuse(c, PacketTooLarge)
    else if !IsConnected(c) then Refuse(c, PacketNotAllowedToSend)
    else
      var r := CancelTimers(c.(status := Disconnected));
      R(r.c, r.ev + [RequestSendPacket(p, None), RequestClose])
  }

  function SendAuth(c: Conn, p: Packet): R {
    if Size(V5_0, p) > c.flow.maxSend then Refuse(c, PacketTooLarge)
    else if c.status.Disconnected? then Refuse(c, PacketNotAllowedToSend)
    else SendNow(c, p, None)
  }

  predicate ClientMaySend(p: Packet) { !(p.Connack? || p.Suback? || p.Unsuback? || p.Pingresp?) }

  predicate ServerMaySend(v: Version, p: Packet) {
    !(p.Connect? || p.Subscribe? || p.Unsubscribe? || p.Pingreq? || (p.Disconnect? && v.V3_1_1?))
  }

  predicate RoleMaySend(role: Role, v: Version, p: Packet) {
    match role
    case Client => ClientMaySend(p)
    case Server => ServerMaySend(v, p)
    case AnyRole => true
  }

  /** `send`: `v` is the protocol version the packet was built for; v3.1.1 has no AUTH. */
  function Send(c: Conn, v: Version, p: Packet): R {
    if v.Undetermined? || c.version != v || (p.Auth? && !v.V5_0?) then Refuse(c, VersionMismatch)
    else if !RoleMaySend(c.opt.role, v, p) then Refuse(c, PacketNotAllowedToSend)
    else Dispatch(c, p)
  }

  function Dispatch(c: Conn, p: Packet): R {
    match p
    case Connect(_, _, _, _) => SendConnect(c, p)
    case Connack(_, _, _, _) => SendConnack(c, p)
    case PublishPacket(pub) => SendPublish(c, pub)
    case Pubrel(_, _, _) => SendPubrel(c, p)
    case Subscribe(_, _) => SendRequest(c, p)
    case Unsubscribe(_, _) => SendRequest(c, p)
    case Pingreq => SendPingreq(c)
    case Disconnect(_, _) => SendDisconnect(c, p, IsV5(c))
    case Auth(_) => SendAuth(c, p)
    case _ => SendWhenConnected(c, p)
  }

  // ---------------------------------------------------------------- receiving

  /** v3.1.1 asks the host to close, v5.0 sends a DISCONNECT first. */
  function Fail(c: Conn, e: MqttError): R {
    if IsV5(c) then
      var r := SendDisconnect(c, Disconnect(Some(e), 1), true);
      R(r.c, r.ev + [NotifyError(e)])
    else R(c, [RequestClose, NotifyError(e)])
  }

  /** The usual end of a reception: restart the keep-alive timer, hand the packet over. */
  function Deliver(c: Conn, p: Packet): R {
    var r := RefreshRecv(c);
    R(r.c, r.ev + [NotifyPacketReceived(p)])
  }

  predicate RoleMayReceive(role: Role, v: Version, t: nat) {
    match role
    case Client => !(t == 1 || t == 8 || t == 10 || t == 12 || ((t == 14 || t == 15) && v.V3_1_1?))
    case Server => !(t == 2 || t == 9 || t == 11 || t == 13 || (t == 15 && v.V3_1_1?))
    case AnyRole => true
  }

  predicate CanReceive(c: Conn, t: nat) { RoleMayReceive(c.opt.role, c.version, t) }

  function FrameType(f: Frame): nat {
    match f
    case Good(p, _, _) => TypeCode(p)
    case Bad(t, _, _, _) => t
  }

  function FrameLength(v: Version, f: Frame): nat {
    match f
    case Good(p, _, excess) => Remaining(v, p) + excess
    case Bad(_, _, n, _) => n
  }

  /** A packet above the Maximum Packet Size this end announced. */
  function Oversized(c: Conn): R {
    var r := SendDisconnect(c, Disconnect(Some(PacketTooLarge), 1), true);
    R(r.c, r.ev + [NotifyError(PacketTooLarge)])
  }

  function Receive(c: Conn, f: Frame): R {
    var t := FrameType(f);
    if TotalSize(FrameLength(c.version, f)) > c.flow.maxRecv then Oversized(c)
    else if !CanReceive(c, t) then Refuse(c, ProtocolError)
    else if c.version.Undetermined? then
      if t != 1 || FrameLength(c.version, f) < 7 then Refuse(c, MalformedPacket)
      else if f.level == 4 then ReceiveFrame(c.(version := V3_1_1), f)
      else if f.level == 5 then ReceiveFrame(c.(version := V5_0), f)
      else Refuse(c, UnsupportedProtocolVersion)
    else if !(1 <= t <= 15) || (t == 15 && c.version.V3_1_1?) then Refuse(c, MalformedPacket)
    else ReceiveFrame(c, f)
  }

  /** The frame gets past the checks made before its packet is looked at. */
  predicate Arrives(c: Conn, f: Frame)
    requires f.Good?
  {
    && TotalSize(FrameLength(c.version, f)) <= c.flow.maxRecv
    && CanReceive(c, FrameType(f))
    && (c.version.Undetermined? ==>
          f.packet.Connect? && FrameLength(c.version, f) >= 7 && (f.level == 4 || f.level == 5))
    && !(f.packet.Auth? && c.version.V3_1_1?)
  }

  function ReceiveFrame(c: Conn, f: Frame): R {
    match f
    case Good(p, _, _) => ReceivePacket(c, p)
    case Bad(t, e, _, _) =>
      if t == 1 then ReceiveBadConnect(c, e)
      else if IsV5(c) && (t == 2 || t == 3) && !IsConnected(c) then Refuse(c, e)
      else Fail(c, e)
  }

  function ReceiveBadConnect(c: Conn, e: MqttError): R {
    if !c.status.Disconnected? then Fail(c, ProtocolError)
    else
      var r := SendConnack(c.(status := Connecting), Connack(false, false, [], if IsV5(c) then 3 else 2));
      R(r.c, r.ev + [NotifyError(e)])
  }

  function ReceivePacket(c: Conn, p: Packet): R {
    match p
    case Connect(_, _, _, _) => ReceiveConnect(c, p)
    case Connack(_, _, _, _) => ReceiveConnack(c, p)
    case PublishPacket(pub) => if IsV5(c) then ReceivePublishV5(c, pub) else ReceivePublishV3(c, pub)
    case Puback(_, _, _) => ReceivePuback(c, p)
    case Pubrec(_, _, _) => ReceivePubrec(c, p)
    case Pubrel(_, _, _) => ReceivePubrel(c, p)
    case Pubcomp(_, _, _) => ReceivePubcomp(c, p)
    case Suback(id, _) =>
      if id in c.ids.suback then Finish(c.(ids := c.ids.(suback := c.ids.suback - {id})), id, p, false)
      else Fail(c, ProtocolError)
    case Unsuback(id, _) =>
      if id in c.ids.unsuback then Finish(c.(ids := c.ids.(unsuback := c.ids.unsuback - {id})), id, p, false)
      else Fail(c, ProtocolError)
    case Pingreq => ReceivePingreq(c)
    case Pingresp =>
      if c.timers.respSet
      then R(c.(timers := c.timers.(respSet := false)), [RequestTimerCancel(PingrespRecv), NotifyPacketReceived(p)])
      else R(c, [NotifyPacketReceived(p)])
    case Disconnect(_, _) =>
      var r := CancelTimers(c); R(r.c, r.ev + [NotifyPacketReceived(p)])
    case _ => Deliver(c, p)
  }

  /** An exchange ends: the identifier is given back, v5.0 may free a send slot. */
  function Finish(c: Conn, id: nat, p: Packet, counted: bool): R {
    var r := Release(c, id);
    var c1 := if counted then FreeSlot(r.c) else r.c;
    Before(r.ev, Deliver(c1, p))
  }

  function FreeSlot(c: Conn): Conn {
    if IsV5(c) && c.flow.sendMax.Some? then
      if c.flow.sendCount == 0 then Panic(c) else c.(flow := c.flow.(sendCount := c.flow.sendCount - 1))
    else c
  }

  /** Properties of a received CONNECT or CONNACK: they bind the send side. */
  function ApplyReceivedProps(c: Conn, props: seq<Prop>, connect: bool): R
    decreases |props|
  {
    if props == [] then R(c, [])
    else
      var r := ReceivedProp(c, props[0], connect);
      Before(r.ev, ApplyReceivedProps(r.c, props[1..], connect))
  }

  function ReceivedProp(c: Conn, prop: Prop, connect: bool): R {
    match prop
    case TopicAliasMaximum(v) =>
      if v == 0 then R(if connect then Panic(c) else c, [])
      else R(c.(alias := c.alias.(send := Some(NewSend(v)))), [])
    case ReceiveMaximum(v) => R(if !connect && v == 0 then Panic(c) else c.(flow := c.flow.(sendMax := Some(v))), [])
    case MaximumPacketSize(v) => R(if !connect && v == 0 then Panic(c) else c.(flow := c.flow.(maxSend := v)), [])
    case SessionExpiryInterval(v) => R(if connect && v != 0 then c.(session := c.session.(needStore := true))
        else c, [])
    case ServerKeepAlive(v) => if connect then R(c, []) else ServerKeepAliveReceived(c, v * 1000)
    case OtherProp => R(c, [])
  }

  function ServerKeepAliveReceived(c: Conn, ms: nat): R {
    var c1 := c.(timers := c.timers.(serverKeepAliveMs := Some(ms)));
    if c.timers.userSendMs.Some? then R(c1, [])
    else if ms == 0 then
      R(c1.(timers := c1.timers.(sendSet := false)),
        if c.timers.sendSet then [RequestTimerCancel(PingreqSend)] else [])
    else R(c1.(timers := c1.timers.(sendSet := true)), [RequestTimerReset(PingreqSend, ms)])
  }

  function ReceiveConnect(c: Conn, p: Packet): R
    requires p.Connect?
  {
    if !c.status.Disconnected? then Fail(c, ProtocolError)
    else
      Deliver(Welcomed(c, p), p)
  }

  /** The state a server is in once it has taken a CONNECT. */
  function Welcomed(c: Conn, p: Packet): Conn
    requires p.Connect?
  {
    var c1 := Initialize(c, false).(status := Connecting);
    var c2 := if p.keepAlive > 0 then c1.(timers := c1.timers.(recvTimeoutMs := p.keepAlive * 1000 * 3 / 2)) else c1;
    var c3 := if p.clean then ClearSession(c2) else if IsV5(c) then c2
        else c2.(session := c2.session.(needStore := true));
    if IsV5(c) then ApplyReceivedProps(c3, p.props, true).c else c3
  }

  /** A client that has taken the properties of an accepting CONNACK. */
  function Informed(c: Conn, p: Packet): Conn
    requires p.Connack?
  {
    var c1 := c.(status := Connected);
    if IsV5(c) then ApplyReceivedProps(c1, p.props, false).c else c1
  }

  function ReceiveConnack(c: Conn, p: Packet): R
    requires p.Connack?
  {
    if !p.accepted then R(c, [NotifyPacketReceived(p)])
    else
      var c1 := c.(status := Connected);
      var r := if IsV5(c) then ApplyReceivedProps(c1, p.props, false) else R(c1, []);
      var s := if p.sessionPresent then SendStored(r.c) else R(ClearSession(r.c), []);
      R(s.c, r.ev + s.ev + [NotifyPacketReceived(p)])
  }

  /** Builds and sends an automatic response; a response to identifier 0 does not build. */
  function Respond(c: Conn, p: Packet): R
    requires p.Puback? || p.Pubrec? || p.Pubcomp?
  {
    if p.pid == 0 then R(Panic(c), []) else SendWhenConnected(c, p)
  }

  function ReceivePublishV3(c: Conn, p: Publish): R {
    match p.qos
    case AtMostOnce => Deliver(c, PublishPacket(p))
    case AtLeastOnce =>
      var r := if IsConnected(c) && c.opt.autoPub then Respond(c, Puback(p.pid, None, 2)) else R(c, []);
      Before(r.ev, Deliver(r.c, PublishPacket(p)))
    case ExactlyOnce =>
      var again := p.pid in c.session.handled;
      var c1 := c.(session := c.session.(handled := c.session.handled + {p.pid}));
      var r := if IsConnected(c) && (c.opt.autoPub || again) then Respond(c1, Pubrec(p.pid, None, 2)) else R(c1, []);
      Before(r.ev, if again then RefreshRecv(r.c) else Deliver(r.c, PublishPacket(p)))
  }

  predicate RecvAliasValid(c: Conn, a: nat) { c.alias.recv.Some? && 1 <= a <= c.alias.recv.value.max }

  function ReceivePublishV5(c: Conn, p: Publish): R {
    if p.qos.AtMostOnce? then ReceiveTopic(c, p, false, false)
    else if c.flow.recvMax.Some? && |c.flow.publishRecv| >= c.flow.recvMax.value then Fail(c, ReceiveMaximumExceeded)
    else
      var c1 := c.(flow := c.flow.(publishRecv := c.flow.publishRecv + {p.pid}));
      if p.qos.AtLeastOnce? then ReceiveTopic(c1, p, c.opt.autoPub && IsConnected(c), false)
      else
        var again := p.pid in c.session.handled;
        var c2 := c1.(session := c1.session.(handled := c1.session.handled + {p.pid}));
        ReceiveTopic(c2, p, IsConnected(c) && (c.opt.autoPub || again), again)
  }

  /** Topic alias handling of a received PUBLISH. */
  function ReceiveTopic(c: Conn, p: Publish, respond: bool, again: bool): R {
    match p.alias
    case None =>
      if p.topic == [] then Fail(c, TopicAliasInvalid) else AcceptPublish(c, p, respond, again)
    case Some(a) =>
      if !RecvAliasValid(c, a) then Fail(c, TopicAliasInvalid)
      else if p.topic == [] then
        match RecvGet(c.alias.recv.value, a)
        case None => Fail(c, TopicAliasInvalid)
        case Some(t) =>
          if HasWildcard(t) then Fail(c, TopicAliasInvalid)
          else AcceptPublish(c, p.(topic := t, extracted := true), respond, again)
      else
        var m := c.alias.recv.value;
        AcceptPublish(c.(alias := c.alias.(recv := Some(m.(aliases := m.aliases[a := p.topic])))), p, respond, again)
  }

  function AcceptPublish(c: Conn, p: Publish, respond: bool, again: bool): R {
    var r := if !respond then R(c, [])
             else Respond(c, if p.qos.AtLeastOnce? then Puback(p.pid, None, 2) else Pubrec(p.pid, None, 2));
    Before(r.ev, if again then RefreshRecv(r.c) else Deliver(r.c, PublishPacket(p)))
  }

  function ReceivePuback(c: Conn, p: Packet): R
    requires p.Puback?
  {
    if p.pid !in c.ids.puback then Fail(c, ProtocolError)
    else
      var c1 := c.(ids := c.ids.(puback := c.ids.puback - {p.pid}),
          session := c.session.(store := Erase(c.session.store, Response(c.version, AwaitPuback), p.pid)));
      Finish(c1, p.pid, p, true)
  }

  function ReceivePubrec(c: Conn, p: Packet): R
    requires p.Pubrec?
  {
    if p.pid !in c.ids.pubrec then Fail(c, ProtocolError)
    else
      var c1 := c.(ids := c.ids.(pubrec := c.ids.pubrec - {p.pid}),
          session := c.session.(store := Erase(c.session.store, Response(c.version, AwaitPubrec), p.pid)));
      if IsV5(c) && p.rc.Some? && p.rc.value != 0 then Finish(c1, p.pid, p, true)
      else
        var r := if c.opt.autoPub && IsConnected(c) then SendPubrel(c1, Pubrel(p.pid, None, 2)) else R(c1, []);
        Before(r.ev, Deliver(r.c, p))
  }

  function ReceivePubrel(c: Conn, p: Packet): R
    requires p.Pubrel?
  {
    var c1 := c.(session := c.session.(handled := c.session.handled - {p.pid}));
    var answer := if IsV5(c) && p.pid !in c.session.handled then Pubcomp(p.pid, Some(0x92), 3)
        else Pubcomp(p.pid, None, 2);
    var r := if c.opt.autoPub && IsConnected(c) then Respond(c1, answer) else R(c1, []);
    Before(r.ev, Deliver(r.c, p))
  }

  function ReceivePubcomp(c: Conn, p: Packet): R
    requires p.Pubcomp?
  {
    if p.pid !in c.ids.pubcomp then Fail(c, ProtocolError)
    else
      var c1 := c.(ids := c.ids.(pubcomp := c.ids.pubcomp - {p.pid}),
          session := c.session.(store := Erase(c.session.store, Response(c.version, AwaitPubcomp), p.pid)));
      Finish(c1, p.pid, p, true)
  }

  function ReceivePingreq(c: Conn): R {
    var r := if !c.opt.role.Client? && !c.opt.isClient && c.opt.autoPing && IsConnected(c)
             then SendWhenConnected(c, Pingresp) else R(c, []);
    Before(r.ev, Deliver(r.c, Pingreq))
  }

  function FrameError(c: Conn, e: MqttError): R {
    var r := CancelTimers(c);
    R(r.c, r.ev + [RequestClose, NotifyError(e)])
  }

  // ---------------------------------------------------------------- timers firing and closing

  function Disarm(c: Conn, k: TimerKind): Conn {
    match k
    case PingreqSend => c.(timers := c.timers.(sendSet := false))
    case PingreqRecv => c.(timers := c.timers.(recvSet := false))
    case PingrespRecv => c.(timers := c.timers.(respSet := false))
  }

  function TimerFired(c: Conn, k: TimerKind): R {
    var c1 := Disarm(c, k);
    if k.PingreqSend? then
      if !IsConnected(c) then R(c1, [])
      else if c.version.Undetermined? then R(Panic(c1), [])
      else SendPingreq(c1)
    else match c.version {
      case V3_1_1 => R(c1, [RequestClose])
      case V5_0 =>
        if IsConnected(c) then SendDisconnect(c1, Disconnect(Some(KeepAliveTimeout), 1), true) else R(c1, [])
      case Undetermined => R(Panic(c1), [])
    }
  }

  /** The order in which the identifier sets yield their members when they are drained. */
  datatype DrainOrder = DrainOrder(sub: seq<nat>, unsub: seq<nat>, ack: seq<nat>, rec: seq<nat>, comp: seq<nat>)

  ghost predicate DrainOk(c: Conn, o: DrainOrder) {
    && Enumerates(o.sub, c.ids.suback) && Enumerates(o.unsub, c.ids.unsuback)
    && Enumerates(o.ack, c.ids.puback) && Enumerates(o.rec, c.ids.pubrec) && Enumerates(o.comp, c.ids.pubcomp)
  }

  function Closed(c: Conn, o: DrainOrder): R {
    var c1 := c.(flow := c.flow.(maxSend := NO_SIZE_LIMIT, maxRecv := NO_SIZE_LIMIT), status := Disconnected,
        alias := c.alias.(send := None, recv := None));
    var r1 := Drain(c1.(ids := c1.ids.(suback := {})), o.sub);
    var r2 := Drain(r1.c.(ids := r1.c.ids.(unsuback := {})), o.unsub);
    var r3 := if c.session.needStore then R(r2.c, []) else DropPublishes(r2.c, o);
    var r4 := CancelTimers(r3.c);
    R(r4.c, r1.ev + r2.ev + r3.ev + r4.ev)
  }

  function DropPublishes(c: Conn, o: DrainOrder): R {
    var r1 := Drain(c.(session := c.session.(handled := {}), ids := c.ids.(puback := {})), o.ack);
    var r2 := Drain(r1.c.(ids := r1.c.ids.(pubrec := {})), o.rec);
    var r3 := Drain(r2.c.(ids := r2.c.ids.(pubcomp := {})), o.comp);
    R(r3.c, r1.ev + (r2.ev + r3.ev))
  }

  // ---------------------------------------------------------------- restoring a session

  function RestorePackets(c: Conn, ps: seq<StorePacket>): Conn
    decreases |ps|
  {
    if ps == [] then c else RestorePackets(RestoreOne(c, ps[0]), ps[1..])
  }

  function RestoreOne(c: Conn, p: StorePacket): Conn {
    if p.StoredPublish? && p.pub.qos.AtMostOnce? then c
    else
      var id := IdOf(p);
      var c1 := match p {
        case StoredPublish(_, pub) => Await(c, pub)
        case StoredPubrel(_, _, _, _) => c.(ids := c.ids.(pubcomp := c.ids.pubcomp + {id}))
      };
      var (c2, ok) := Register(c1, id);
      if ok && !Has(c2.session.store, id) then c2.(session := c2.session.(store := c2.session.store + [p])) else c2
  }

  // ---------------------------------------------------------------- every call of the host

  datatype Op =
    | OpSend(version: Version, packet: Packet)
    | OpReceive(frame: Frame)
    | OpFrameError(error: MqttError)
    | OpTimer(kind: TimerKind)
    | OpClosed(order: DrainOrder)
    | OpInterval(ms: Option<nat>)
    | OpOfflinePublish(on: bool)
    | OpAutoPub(on: bool)
    | OpAutoPing(on: bool)
    | OpAutoMap(on: bool)
    | OpAutoReplace(on: bool)
    | OpRespTimeout(timeout: nat)
    | OpAcquire
    | OpRegister(id: nat)
    | OpRelease(id: nat)
    | OpRestoreHandled(ids: set<nat>)
    | OpRestorePackets(packets: seq<StorePacket>)

  /** A packet of the peer arrives, in the form in which it is printed. */
  function Arrival(p: Packet): Op { OpReceive(Good(p, 4)) }

  function Step(c: Conn, op: Op): R {
    match op
    case OpSend(v, p) => Send(c, v, p)
    case OpReceive(f) => Receive(c, f)
    case OpFrameError(e) => FrameError(c, e)
    case OpTimer(k) => TimerFired(c, k)
    case OpClosed(o) => Closed(c, o)
    case OpInterval(ms) => SetPingreqInterval(c, ms)
    case OpOfflinePublish(on) => R(c.(opt := c.opt.(offlinePublish := on),
        session := c.session.(needStore := c.session.needStore || on)), [])
    case OpAutoPub(on) => R(c.(opt := c.opt.(autoPub := on)), [])
    case OpAutoPing(on) => R(c.(opt := c.opt.(autoPing := on)), [])
    case OpAutoMap(on) => R(c.(opt := c.opt.(autoMap := on)), [])
    case OpAutoReplace(on) => R(c.(opt := c.opt.(autoReplace := on)), [])
    case OpRespTimeout(t) => R(c.(timers := c.timers.(respTimeoutMs := t)), [])
    case OpAcquire => R(Acquire(c).0, [])
    case OpRegister(id) => R(Register(c, id).0, [])
    case OpRelease(id) => Release(c, id)
    case OpRestoreHandled(ids) => R(c.(session := c.session.(handled := ids)), [])
    case OpRestorePackets(ps) => R(RestorePackets(c, ps), [])
  }

  /** What every call may assume of its arguments: drained sets yield each member once. */
  ghost predicate Legal(c: Conn, op: Op) { op.OpClosed? ==> DrainOk(c, op.order) }
}
