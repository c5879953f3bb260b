/** The connection as an object that owns its parts: the packet identifier manager over the interval
    allocator, the packet store, the two alias maps and the packet builder. Every method changes fields and
    parts step by step and collects events as the engine does, and is proved to end in the state and with
    the events that Engine.dfy specifies. */
module Connection {
  import opened Packets
  import opened TopicAlias
  import opened Store
  import opened Engine
  import PacketIds
  import PacketStore
  import AliasMaps
  import Framing
  import Laws
  import Runs
  import Releases
  import S = Session

  class GenericConnection {
    var opt: Options
    var version: Version
    var status: Status
    const pidMan: PacketIds.PacketIdManager
    var pidSuback: set<nat>
    var pidUnsuback: set<nat>
    var pidPuback: set<nat>
    var pidPubrec: set<nat>
    var pidPubcomp: set<nat>
    var needStore: bool
    const store: PacketStore.PacketStore
    var handled: set<nat>
    var aliasSend: AliasMaps.TopicAliasSend?
    var aliasRecv: AliasMaps.TopicAliasRecv?
    var flow: Flow
    var timers: Timers
    const builder: Framing.PacketBuilder
    /** An assert or unwrap has failed. */
    var panicked: bool

    /** What the parts stand for. */
    ghost var used: set<nat>
    ghost var packets: seq<StorePacket>
    ghost var sending: Option<AliasSend>
    ghost var receiving: Option<AliasRecv>
    /** The objects of the parts, other than the packet builder. */
    ghost var parts: set<object>

    ghost predicate Valid()
      reads this, parts, builder
    {
      && this !in parts && builder !in parts && Framing.Wf(builder.View())
      && Owns(pidMan, used, store, packets, aliasSend, sending, aliasRecv, receiving, parts)
    }

    /** The connection record this object stands for. */
    ghost function View(): Conn
      reads this
    {
      Conn(opt, version, status, Ids(used, pidSuback, pidUnsuback, pidPuback, pidPubrec, pidPubcomp),
           Session(needStore, packets, handled), Aliases(sending, receiving), flow, timers, panicked)
    }

    constructor (role: Role, v: Version)
      ensures Valid() && View() == New(role, v) && builder.View() == Framing.FRESH
      ensures fresh(parts) && fresh(builder)
    {
      opt := Options(role, false, false, false, false, false, false);
      version, status := v, Disconnected;
      pidMan := new PacketIds.PacketIdManager();
      pidSuback, pidUnsuback, pidPuback, pidPubrec, pidPubcomp := {}, {}, {}, {}, {};
      needStore, handled := false, {};
      store := new PacketStore.PacketStore();
      aliasSend, aliasRecv := null, null;
      flow := Flow(None, None, 0, {}, NO_SIZE_LIMIT, NO_SIZE_LIMIT);
      timers := Timers(None, 0, None, 0, 0, false, false, false);
      builder := new Framing.PacketBuilder();
      panicked := false;
      used, packets, sending, receiving := {}, [], None, None;
      new;
      parts := {pidMan.allocator, store};
    }

    // -------------------------------------------------------------- the parts

    method AcquirePacketId() returns (id: Option<nat>)
      requires Valid()
      modifies this`used, parts
      ensures Valid() && (View(), id) == Acquire(old(View()))
      ensures id.Some? ==> InRange(id.value) && id.value !in old(used)
      ensures id.Some? ==> forall j :: 1 <= j < id.value ==> j in old(used)
    {
      hide StoreStands, SendStands, RecvStands;
      S.LeastFreeInRange(used, 1);
      id := pidMan.AcquireUniqueId();
      if id.Some? { used := used + {id.value}; }
    }

    method RegisterPacketId(id: nat) returns (ok: bool)
      requires Valid()
      modifies this`used, parts
      ensures Valid() && (View(), ok) == Register(old(View()), id)
    {
      hide StoreStands, SendStands, RecvStands;
      ok := pidMan.RegisterId(id);
      if ok { used := used + {id}; }
    }

    method IsUsedId(id: nat) returns (r: bool)
      requires Valid()
      ensures r == IsUsed(View(), id)
    {
      hide StoreStands, SendStands, RecvStands;
      r := pidMan.IsUsedId(id);
    }

    /** Frees an identifier without asking whether it is in use. */
    method FreeId(id: nat)
      requires Valid() && Freeable(View(), id)
      modifies this`used, parts
      ensures Valid() && View() == old(View()).(ids := old(View()).ids.(used := old(used) - {id}))
    {
      hide StoreStands, SendStands, RecvStands;
      pidMan.ReleaseId(id);
      used := used - {id};
    }

    method ReleasePacketId(id: nat) returns (ev: seq<Event>)
      requires Valid()
      modifies this`used, this`panicked, parts
      ensures Valid() && R(View(), ev) == Release(old(View()), id)
    {
      hide Owns;
      ev := [];
      var isUsed := IsUsedId(id);
      if isUsed {
        if !InRange(id) {
          panicked := true;
        } else {
          FreeId(id);
          ev := [NotifyPacketIdReleased(id)];
        }
      }
    }

    method ClearStoreRelated()
      requires Valid()
      modifies this`used, this`packets, this`pidPuback, this`pidPubrec, this`pidPubcomp, parts
      ensures Valid() && View() == ClearSession(old(View()))
    {
      hide Framing.Wf, SendStands, RecvStands;
      pidMan.Clear();
      used := {};
      store.Clear();
      packets := [];
      pidPuback, pidPubrec, pidPubcomp := {}, {}, {};
    }

    /** Stores a packet unless its identifier is stored already, which an unwrap does not forgive. */
    method AddStored(p: StorePacket, unwrap: bool)
      requires Valid()
      modifies this`packets, this`panicked, parts
      ensures Valid() && View() == if unwrap then Keep(old(View()), p)
        else old(View()).(session := old(View()).session.(store :=
          if Has(old(packets), IdOf(p)) then old(packets) else old(packets) + [p]))
    {
      hide IdsStand, SendStands, RecvStands;
      var ok := store.Add(p);
      packets := store.packets;
      if unwrap && !ok { panicked := true; }
    }

    method EraseStored(k: ResponseKind, id: nat)
      requires Valid()
      modifies this`packets, parts
      ensures Valid() && View() == old(View()).(session :=
        old(View()).session.(store := Erase(old(packets), Response(version, k), id)))
    {
      hide IdsStand, SendStands, RecvStands;
      var _ := store.EraseResponse(Response(version, k), id);
      packets := store.packets;
    }

    /** Drops the stored packets that are too large for the peer. */
    method DropUnsendable(limit: nat)
      requires Valid() && limit == flow.maxSend
      modifies this`packets, parts
      ensures Valid() && View() == old(View()).(session :=
        old(View()).session.(store := Sendable(old(View()), old(packets))))
    {
      hide IdsStand, SendStands, RecvStands;
      var keep := (p: StorePacket) => Size(p.version, ToPacket(p)) <= limit;
      SendableIsFilter(View(), packets, keep);
      store.ForEach(keep);
      packets := store.packets;
    }

    method StoredPackets() returns (ps: seq<StorePacket>)
      requires Valid()
      ensures ps == packets
    {
      hide IdsStand, SendStands, RecvStands;
      ps := store.GetStored();
    }

    method ForgetAliases()
      requires Valid()
      modifies this`aliasSend, this`aliasRecv, this`sending, this`receiving
      ensures Valid() && View() == old(View()).(alias := Aliases(None, None))
    {
      hide Framing.Wf, IdsStand, StoreStands;
      aliasSend, sending := null, None;
      aliasRecv, receiving := null, None;
    }

    method NewAliasSend(max: U16)
      requires Valid() && max >= 1
      modifies this`aliasSend, this`sending, this`parts
      ensures Valid() && fresh(parts - old(parts))
      ensures View() == old(View()).(alias := old(View()).alias.(send := Some(NewSend(max))))
    {
      hide IdsStand, StoreStands, RecvStands, Wf;
      var m := new AliasMaps.TopicAliasSend(max);
      assert SendStands(m, Some(NewSend(max)));
      hide SendStands;
      aliasSend, sending := m, Some(NewSend(max));
      parts := parts + {m, m.allocator};
    }

    method NewAliasRecv(max: nat)
      requires Valid()
      modifies this`aliasRecv, this`receiving, this`parts
      ensures Valid() && fresh(parts - old(parts))
      ensures View() == old(View()).(alias := old(View()).alias.(recv := Some(AliasRecv(max, map[]))))
    {
      hide IdsStand, StoreStands, SendStands;
      var m := new AliasMaps.TopicAliasRecv(max);
      assert RecvStands(m, Some(AliasRecv(max, map[])));
      hide RecvStands;
      aliasRecv, receiving := m, Some(AliasRecv(max, map[]));
      parts := parts + {m};
    }

    /** Can this alias be sent? */
    method ValidateTopicAliasRange(a: nat) returns (r: bool)
      requires Valid()
      ensures r == AliasInRange(View(), a)
    {
      hide IdsStand, StoreStands, RecvStands;
      r := aliasSend != null && 1 <= a <= aliasSend.maxAlias;
    }

    /** Looks up the topic of an alias, which makes it the most recently used. */
    method ValidateTopicAlias(a: Option<nat>) returns (t: Option<Topic>)
      requires Valid()
      modifies this`sending, parts
      ensures Valid() && (View(), t) == ResolveAlias(old(View()), a)
    {
      hide IdsStand, StoreStands, RecvStands;
      t := None;
      if a.Some? && aliasSend != null && 1 <= a.value <= aliasSend.maxAlias {
        t := aliasSend.Get(a.value);
        sending := Some(aliasSend.View());
      }
    }

    method BindTopic(t: Topic, a: nat)
      requires Valid()
      modifies this`sending, this`panicked, parts
      ensures Valid() && View() == BindAlias(old(View()), t, a)
    {
      hide IdsStand, StoreStands, RecvStands, Wf, InsertOrUpdate;
      if aliasSend != null {
        if t == [] || !(1 <= a <= aliasSend.maxAlias) {
          panicked := true;
        } else {
          aliasSend.Insert(t, a);
          sending := Some(aliasSend.View());
        }
      }
    }

    /** An alias that stands for the topic, and the one to bind next; none without a table. */
    method ChooseAlias(t: Topic) returns (found: Option<nat>, next: Option<nat>)
      requires Valid()
      ensures if sending.None? then found == None && next == None
        else found == FindByTopic(sending.value, t) && next == Some(LruAlias(sending.value))
    {
      hide IdsStand, StoreStands, RecvStands, FindByTopic, LruAlias;
      found, next := None, None;
      if aliasSend != null {
        found := aliasSend.Find(t);
        var a := aliasSend.GetLruAlias();
        next := Some(a);
      }
    }

    /** The topic a received alias stands for; `valid` tells whether the alias is allowed at all. */
    method ReadAlias(a: nat) returns (valid: bool, t: Option<Topic>)
      requires Valid()
      ensures valid == RecvAliasValid(View(), a)
      ensures t == if valid then RecvGet(receiving.value, a) else None
    {
      hide IdsStand, StoreStands, SendStands;
      valid, t := aliasRecv != null && 1 <= a <= aliasRecv.maxAlias, None;
      if valid { t := aliasRecv.Get(a); }
    }

    method LearnAlias(t: Topic, a: nat)
      requires Valid() && t != [] && RecvAliasValid(View(), a)
      modifies this`receiving, parts
      ensures Valid() && View() == old(View()).(alias := old(View()).alias.(recv :=
        Some(old(receiving).value.(aliases := old(receiving).value.aliases[a := t]))))
    {
      hide IdsStand, StoreStands, SendStands;
      aliasRecv.Insert(t, a);
      receiving := Some(aliasRecv.View());
    }

    // -------------------------------------------------------------- timers and identifiers

    method SendPostProcess() returns (ev: seq<Event>)
      requires Valid()
      modifies this`timers
      ensures Valid() && R(View(), ev) == PostSend(old(View()))
    {
      hide Owns;
      ev := [];
      if opt.isClient {
        var interval := match timers.userSendMs
          case Some(ms) => ms
          case None => match timers.serverKeepAliveMs case Some(ms) => ms case None => timers.keepAliveMs;
        if interval > 0 {
          timers := timers.(sendSet := true);
          ev := [RequestTimerReset(PingreqSend, interval)];
        }
      }
    }

    method RefreshPingreqRecv() returns (ev: seq<Event>)
      requires Valid()
      modifies this`timers
      ensures Valid() && R(View(), ev) == RefreshRecv(old(View()))
    {
      hide Owns;
      ev := [];
      if timers.recvTimeoutMs != 0 {
        timers := timers.(recvSet := true);
        ev := [RequestTimerReset(PingreqRecv, timers.recvTimeoutMs)];
      }
    }

    method CancelAllTimers() returns (ev: seq<Event>)
      requires Valid()
      modifies this`timers
      ensures Valid() && R(View(), ev) == CancelTimers(old(View()))
    {
      hide Owns;
      ev := [];
      if timers.sendSet {
        timers := timers.(sendSet := false);
        ev := ev + [RequestTimerCancel(PingreqSend)];
      }
      if timers.recvSet {
        timers := timers.(recvSet := false);
        ev := ev + [RequestTimerCancel(PingreqRecv)];
      }
      if timers.respSet {
        timers := timers.(respSet := false);
        ev := ev + [RequestTimerCancel(PingrespRecv)];
      }
    }

    method SetPingreqSendInterval(ms: Option<nat>) returns (ev: seq<Event>)
      requires Valid()
      modifies this`timers
      ensures Valid() && R(View(), ev) == SetPingreqInterval(old(View()), ms)
    {
      hide Owns;
      timers := timers.(userSendMs := ms);
      ev := [];
      if ms.Some? && ms.value == 0 {
        if timers.sendSet {
          timers := timers.(sendSet := false);
          ev := [RequestTimerCancel(PingreqSend)];
        }
      } else if ms.Some? && status.Connected? {
        timers := timers.(sendSet := true);
        ev := [RequestTimerReset(PingreqSend, ms.value)];
      }
    }

    /** The drain loops of `notify_closed`. */
    method ReleaseAll(drained: seq<nat>) returns (ev: seq<Event>)
      requires Valid()
      modifies this`used, this`panicked, parts
      ensures Valid() && R(View(), ev) == Drain(old(View()), drained)
    {
      hide Owns, Release;
      ev := [];
      ghost var start := View();
      assert drained[0..] == drained;
      Joined([], [], Drain(start, drained));
      for i := 0 to |drained|
        invariant Valid()
        invariant Before(ev, Drain(View(), drained[i..])) == Drain(start, drained)
      {
        assert drained[i..][1..] == drained[i + 1..];
        var out := ReleasePacketId(drained[i]);
        Joined(ev, out, Drain(View(), drained[i + 1..]));
        ev := ev + out;
      }
    }

    // -------------------------------------------------------------- session state

    method InitializeFor(client: bool)
      requires Valid()
      modifies this`flow, this`aliasSend, this`aliasRecv, this`sending, this`receiving
      modifies this`needStore, this`pidSuback, this`pidUnsuback, this`opt, this`timers
      ensures Valid() && View() == Initialize(old(View()), client)
    {
      hide Framing.Wf, Owns;
      ForgetAliases();
      needStore, pidSuback, pidUnsuback := false, {}, {};
      flow := flow.(sendMax := None, recvMax := None, sendCount := 0, publishRecv := {});
      opt := opt.(isClient := client);
      timers := timers.(keepAliveMs := 0, serverKeepAliveMs := None);
    }

    /** A clean start drops the session; without one v3.1.1 stores from now on. */
    method OpenSession(clean: bool)
      requires Valid()
      modifies this, parts
      ensures Valid() && parts == old(parts)
      ensures View() == if clean then ClearSession(old(View()))
        else if IsV5(old(View())) then old(View()) else old(View()).(session := old(View()).session.(needStore := true))
    {
      hide Framing.Wf, Owns;
      if clean {
        ClearStoreRelated();
      } else if !version.V5_0? {
        needStore := true;
      }
    }

    method AwaitResponse(p: Publish)
      requires Valid()
      modifies this`pidPuback, this`pidPubrec
      ensures Valid() && View() == Await(old(View()), p)
    {
      hide Owns;
      if p.qos.ExactlyOnce? { pidPubrec := pidPubrec + {p.pid}; } else { pidPuback := pidPuback + {p.pid}; }
    }

    /** Walks through the store, resends what the peer can take and drops the rest. */
    method SendStoredPackets() returns (ev: seq<Event>)
      requires Valid()
      modifies this`used, this`packets, this`panicked, parts
      ensures Valid() && R(View(), ev) == SendStored(old(View()))
    {
      hide Owns;
      ev := [];
      var all := StoredPackets();
      ghost var start := View();
      assert all[0..] == all;
      for i := 0 to |all|
        invariant Valid() && packets == all && View() == start.(ids := View().ids, panicked := panicked)
        invariant Before(ev, Resend(View(), all[i..])) == Resend(start, all)
      {
        SendStep(View(), all[i..]);
        assert all[i..][1..] == all[i + 1..];
        var out := [];
        if Size(all[i].version, ToPacket(all[i])) > flow.maxSend {
          var id := IdOf(all[i]);
          var isUsed := IsUsedId(id);
          if InRange(id) && (id == MAX_ID ==> isUsed) {
            FreeId(id);
            out := [NotifyPacketIdReleased(id)];
          } else {
            panicked := true;
          }
        } else {
          out := [RequestSendPacket(ToPacket(all[i]), None)];
        }
        Joined(ev, out, Resend(View(), all[i + 1..]));
        ev := ev + out;
      }
      SameSendable(start, View(), all);
      DropUnsendable(flow.maxSend);
    }

    // -------------------------------------------------------------- properties

    /** The properties of a CONNECT or CONNACK that is sent. */
    method ApplySent(props: seq<Prop>, connect: bool) returns (ev: seq<Event>)
      requires Valid()
      modifies this, parts
      ensures Valid() && fresh(parts - old(parts))
      ensures R(View(), ev) == ApplySentProps(old(View()), props, connect)
    {
      ev := [];
      ghost var start := View();
      assert props[0..] == props;
      hide Owns, SentProp;
      for i := 0 to |props|
        invariant Valid() && fresh(parts - old(parts))
        invariant Before(ev, ApplySentProps(View(), props[i..], connect)) == ApplySentProps(start, props, connect)
      {
        assert props[i..][1..] == props[i + 1..];
        var out := ApplySentOne(props[i], connect);
        Joined(ev, out, ApplySentProps(View(), props[i + 1..], connect));
        ev := ev + out;
      }
    }

    method ApplySentOne(prop: Prop, connect: bool) returns (ev: seq<Event>)
      requires Valid()
      modifies this, parts
      ensures Valid() && fresh(parts - old(parts))
      ensures R(View(), ev) == SentProp(old(View()), prop, connect)
    {
      hide Framing.Wf, Owns;
      ev := [];
      match prop {
        case TopicAliasMaximum(v) => if v != 0 { NewAliasRecv(v); }
        case ReceiveMaximum(v) => if v == 0 { panicked := true; } else { flow := flow.(recvMax := Some(v)); }
        case MaximumPacketSize(v) => if v == 0 { panicked := true; } else { flow := flow.(maxRecv := v); }
        case SessionExpiryInterval(v) => if connect && v != 0 { needStore := true; }
        case ServerKeepAlive(v) =>
          if !connect && v == 0 {
            if timers.recvSet { ev := [RequestTimerCancel(PingreqRecv)]; }
            timers := timers.(recvSet := false, recvTimeoutMs := 0);
          } else if !connect {
            timers := timers.(recvSet := true, recvTimeoutMs := v * 1000 * 3 / 2);
            ev := [RequestTimerReset(PingreqRecv, timers.recvTimeoutMs)];
          }
        case OtherProp =>
      }
    }

    /** The properties of a CONNECT or CONNACK that is received. */
    method ApplyReceived(props: seq<Prop>, connect: bool) returns (ev: seq<Event>)
      requires Valid()
      modifies this, parts
      ensures Valid() && fresh(parts - old(parts))
      ensures R(View(), ev) == ApplyReceivedProps(old(View()), props, connect)
    {
      ev := [];
      ghost var start := View();
      assert props[0..] == props;
      hide Owns, ReceivedProp;
      for i := 0 to |props|
        invariant Valid() && fresh(parts - old(parts))
        invariant Before(ev, ApplyReceivedProps(View(), props[i..], connect))
            == ApplyReceivedProps(start, props, connect)
      {
        assert props[i..][1..] == props[i + 1..];
        var out := ApplyReceivedOne(props[i], connect);
        Joined(ev, out, ApplyReceivedProps(View(), props[i + 1..], connect));
        ev := ev + out;
      }
    }

    method ApplyReceivedOne(prop: Prop, connect: bool) returns (ev: seq<Event>)
      requires Valid()
      modifies this, parts
      ensures Valid() && fresh(parts - old(parts))
      ensures R(View(), ev) == ReceivedProp(old(View()), prop, connect)
    {
      hide Framing.Wf, Owns;
      ev := [];
      match prop {
        case TopicAliasMaximum(v) =>
          if v != 0 { NewAliasSend(v); } else if connect { panicked := true; }
        case ReceiveMaximum(v) =>
          if !connect && v == 0 { panicked := true; } else { flow := flow.(sendMax := Some(v)); }
        case MaximumPacketSize(v) =>
          if !connect && v == 0 { panicked := true; } else { flow := flow.(maxSend := v); }
        case SessionExpiryInterval(v) => if connect && v != 0 { needStore := true; }
        case ServerKeepAlive(v) =>
          if !connect {
            timers := timers.(serverKeepAliveMs := Some(v * 1000));
            if timers.userSendMs.None? && v == 0 {
              if timers.sendSet { ev := [RequestTimerCancel(PingreqSend)]; }
              timers := timers.(sendSet := false);
            } else if timers.userSendMs.None? {
              timers := timers.(sendSet := true);
              ev := [RequestTimerReset(PingreqSend, v * 1000)];
            }
          }
        case OtherProp =>
      }
    }

    // -------------------------------------------------------------- sending

    /** Asks the host to send a packet, then restarts the PINGREQ timer. */
    method RequestSend(p: Packet, release: Option<nat>) returns (ev: seq<Event>)
      requires Valid()
      modifies this`timers
      ensures Valid() && R(View(), ev) == SendNow(old(View()), p, release)
    {
      hide Owns;
      var post := SendPostProcess();
      ev := [RequestSendPacket(p, release)] + post;
    }

    method RefuseSend(e: MqttError, id: nat) returns (ev: seq<Event>)
      requires Valid()
      modifies this`used, this`panicked, parts
      ensures Valid() && R(View(), ev) == RefuseAndRelease(old(View()), e, id)
    {
      hide Owns;
      var out := ReleasePacketId(id);
      ev := [NotifyError(e)] + out;
    }

    method ProcessSendConnect(p: Packet) returns (ev: seq<Event>)
      requires Valid() && p.Connect?
      modifies this, parts
      ensures Valid() && fresh(parts - old(parts))
      ensures R(View(), ev) == SendConnect(old(View()), p)
    {
      hide Owns, Greeting;
      if version.V5_0? && Size(version, p) > flow.maxSend { return [NotifyError(PacketTooLarge)]; }
      if !status.Disconnected? { return [NotifyError(PacketNotAllowedToSend)]; }
      Greet(p);
      ev := RequestSend(p, None);
    }

    method Greet(p: Packet)
      requires Valid() && p.Connect?
      modifies this, parts
      ensures Valid() && fresh(parts - old(parts)) && View() == Greeting(old(View()), p)
    {
      hide Framing.Wf, Owns, ApplySentProps;
      InitializeFor(true);
      status := Connecting;
      timers := timers.(keepAliveMs := p.keepAlive * 1000);
      OpenSession(p.clean);
      if version.V5_0? { var _ := ApplySent(p.props, true); }
    }

    method ProcessSendConnack(p: Packet) returns (ev: seq<Event>)
      requires p.Connack?
      requires Valid()
      modifies this, parts
      ensures Valid() && fresh(parts - old(parts))
      ensures R(View(), ev) == SendConnack(old(View()), p)
    {
      hide Owns, ApplySentProps, SendStored, CancelTimers, PostSend;
      if version.V5_0? && Size(version, p) > flow.maxSend { return [NotifyError(PacketTooLarge)]; }
      if !status.Connecting? { return [NotifyError(PacketNotAllowedToSend)]; }
      ev := [];
      if p.accepted {
        if version.V5_0? { ev := ApplySent(p.props, false); }
        status := Connected;
        ev := ev + [RequestSendPacket(p, None)];
        var stored := SendStoredPackets();
        ev := ev + stored;
        var post := SendPostProcess();
        ev := ev + post;
      } else {
        status := Disconnected;
        var out := CancelAllTimers();
        ev := [RequestSendPacket(p, None)] + (out + [RequestClose]);
      }
    }

    method ProcessSendPublishV3(p: Publish) returns (ev: seq<Event>)
      requires Valid()
      modifies this, parts
      ensures Valid() && fresh(parts - old(parts))
      ensures R(View(), ev) == SendPublishV3(old(View()), p)
    {
      hide Owns, Has;
      var release := None;
      if !p.qos.AtMostOnce? {
        if !status.Connected? && !needStore && !opt.offlinePublish {
          ev := RefuseSend(PacketNotAllowedToSend, p.pid);
          return;
        }
        var isUsed := IsUsedId(p.pid);
        if !isUsed { return [NotifyError(PacketIdentifierInvalid)]; }
        if needStore && (!status.Disconnected? || opt.offlinePublish) {
          AddStored(StoredPublish(V3_1_1, p.(dup := true)), true);
        } else {
          release := Some(p.pid);
        }
        AwaitResponse(p);
      } else if !status.Connected? {
        return [NotifyError(PacketNotAllowedToSend)];
      }
      ev := [];
      if status.Connected? { ev := RequestSend(PublishPacket(p), release); }
    }

    method ProcessSendPublishV5(p: Publish) returns (ev: seq<Event>)
      requires Valid()
      modifies this, parts
      ensures Valid() && fresh(parts - old(parts))
      ensures R(View(), ev) == SendPublishV5(old(View()), p)
    {
      hide Owns, SendAliased, HasWildcard, RefuseAndRelease, ResolveAlias, Keep;
      if version.V5_0? && Size(version, PublishPacket(p)) > flow.maxSend { return [NotifyError(PacketTooLarge)]; }
      if p.qos.AtMostOnce? {
        if !status.Connected? { return [NotifyError(PacketNotAllowedToSend)]; }
        ev := SendByAlias(p, None, false);
      } else {
        ev := SendAnswered(p);
      }
    }

    /** A v5.0 PUBLISH of QoS 1 or 2 that is not too large. */
    method SendAnswered(p: Publish) returns (ev: seq<Event>)
      requires Valid() && !p.qos.AtMostOnce? && !TooLarge(View(), PublishPacket(p))
      modifies this, parts
      ensures Valid() && fresh(parts - old(parts))
      ensures R(View(), ev) == SendPublishV5(old(View()), p)
    {
      hide Owns, SendAliased, HasWildcard, RefuseAndRelease, ResolveAlias, Keep, TooLarge;
      if !status.Connected? && !needStore && !opt.offlinePublish {
        ev := RefuseSend(PacketNotAllowedToSend, p.pid);
        return;
      }
      var isUsed := IsUsedId(p.pid);
      if !isUsed { return [NotifyError(PacketIdentifierInvalid)]; }
      if needStore && (!status.Disconnected? || opt.offlinePublish) {
        ev := SendStoredPublish(p);
      } else {
        AwaitResponse(p);
        ev := SendByAlias(p, Some(p.pid), false);
      }
    }

    /** Stores a v5.0 PUBLISH under its full topic before it is sent. */
    method SendStoredPublish(p: Publish) returns (ev: seq<Event>)
      requires Valid()
      modifies this, parts
      ensures Valid() && fresh(parts - old(parts))
      ensures R(View(), ev) ==
        if p.topic != [] then
          SendAliased(Await(Keep(old(View()), StoredPublish(V5_0, p.(alias := None, dup := true))), p), p, None, false)
        else
          var (c1, t) := ResolveAlias(old(View()), p.alias);
          if t.None? then RefuseAndRelease(c1, PacketNotAllowedToSend, p.pid)
          else
            var c2 := if HasWildcard(t.value) then Panic(c1)
                      else Keep(c1, StoredPublish(V5_0, p.(topic := t.value, alias := None, dup := true)));
            SendAliased(Await(c2, p), p, None, true)
    {
      hide Owns, SendAliased, HasWildcard, RefuseAndRelease, ResolveAlias, Keep;
      if p.topic != [] {
        AddStored(StoredPublish(V5_0, p.(alias := None, dup := true)), true);
        AwaitResponse(p);
        ev := SendByAlias(p, None, false);
        return;
      }
      var t := ValidateTopicAlias(p.alias);
      if t.None? {
        ev := RefuseSend(PacketNotAllowedToSend, p.pid);
        return;
      }
      if HasWildcard(t.value) {
        panicked := true;
      } else {
        AddStored(StoredPublish(V5_0, p.(topic := t.value, alias := None, dup := true)), true);
      }
      AwaitResponse(p);
      ev := SendByAlias(p, None, true);
    }

    method RefusePublishNow(e: MqttError, p: Publish) returns (ev: seq<Event>)
      requires Valid()
      modifies this`used, this`panicked, parts
      ensures Valid() && R(View(), ev) == RefusePublish(old(View()), e, p)
    {
      hide Owns;
      if p.qos.AtMostOnce? { ev := [NotifyError(e)]; } else { ev := RefuseSend(e, p.pid); }
    }

    /** The alias part of sending a v5.0 PUBLISH: check, bind, replace or map. */
    method SendByAlias(p: Publish, release: Option<nat>, validated: bool) returns (ev: seq<Event>)
      requires Valid()
      modifies this, parts
      ensures Valid() && fresh(parts - old(parts))
      ensures R(View(), ev) == SendAliased(old(View()), p, release, validated)
    {
      hide Owns, SendCounted, RefusePublish, Peek, Touch, InsertOrUpdate, FindByTopic, LruAlias;
      if p.topic == [] {
        if !validated {
          var t := ValidateTopicAlias(p.alias);
          if t.None? {
            ev := RefusePublishNow(PacketNotAllowedToSend, p);
            return;
          }
        }
      } else if p.alias.Some? {
        var inRange := ValidateTopicAliasRange(p.alias.value);
        if !inRange {
          ev := RefusePublishNow(PacketNotAllowedToSend, p);
          return;
        }
        BindTopic(p.topic, p.alias.value);
      } else if status.Connected? && (opt.autoMap || opt.autoReplace) {
        ev := SendMapped(p, release);
        return;
      }
      ev := SendUnderQuota(p, release);
    }

    /** Sends a topic under an alias that stands for it, or maps it to one. */
    method SendMapped(p: Publish, release: Option<nat>) returns (ev: seq<Event>)
      requires Valid() && p.topic != [] && p.alias.None? && status.Connected? && (opt.autoMap || opt.autoReplace)
      modifies this, parts
      ensures Valid() && fresh(parts - old(parts))
      ensures R(View(), ev) == SendAliased(old(View()), p, release, false)
    {
      hide Framing.Wf, Owns, SendCounted, InsertOrUpdate, FindByTopic, LruAlias;
      var q := p;
      var found, next := ChooseAlias(p.topic);
      if found.Some? {
        q := ByAlias(p, found.value);
      } else if next.Some? && opt.autoMap {
        BindTopic(p.topic, next.value);
        q := ByAlias(p, next.value);
      }
      ev := SendUnderQuota(q, release);
    }

    /** The Receive Maximum check and the packet itself. */
    method SendUnderQuota(p: Publish, release: Option<nat>) returns (ev: seq<Event>)
      requires Valid()
      modifies this, parts
      ensures Valid() && fresh(parts - old(parts))
      ensures R(View(), ev) == SendCounted(old(View()), p, release)
    {
      hide Owns, RefuseAndRelease, SendNow;
      if !p.qos.AtMostOnce? && flow.sendMax.Some? {
        if flow.sendCount == flow.sendMax.value {
          ev := RefuseSend(ReceiveMaximumExceeded, p.pid);
          return;
        }
        if flow.sendCount == 0xFFFF {
          panicked := true;
        } else {
          flow := flow.(sendCount := flow.sendCount + 1);
        }
      }
      ev := [];
      if status.Connected? { ev := RequestSend(PublishPacket(p), release); }
    }

    method ProcessSendResponse(p: Packet) returns (ev: seq<Event>)
      requires Valid()
      modifies this, parts
      ensures Valid() && fresh(parts - old(parts))
      ensures R(View(), ev) == SendWhenConnected(old(View()), p)
    {
      hide Owns, SendNow, AfterResponse;
      if version.V5_0? && Size(version, p) > flow.maxSend { return [NotifyError(PacketTooLarge)]; }
      if !status.Connected? { return [NotifyError(PacketNotAllowedToSend)]; }
      EndReception(p);
      ev := RequestSend(p, None);
    }

    /** What sending a response changes. */
    method EndReception(p: Packet)
      requires Valid()
      modifies this`flow, this`handled
      ensures Valid() && View() == AfterResponse(old(View()), p)
    {
      hide Owns;
      if version.V5_0? {
        if p.Puback? || p.Pubcomp? {
          flow := flow.(publishRecv := flow.publishRecv - {p.pid});
        } else if p.Pubrec? && IsFailure(p.rc) {
          flow := flow.(publishRecv := flow.publishRecv - {p.pid});
          handled := handled - {p.pid};
        }
      }
    }

    method ProcessSendPubrel(p: Packet) returns (ev: seq<Event>)
      requires p.Pubrel?
      requires Valid()
      modifies this, parts
      ensures Valid() && fresh(parts - old(parts))
      ensures R(View(), ev) == SendPubrel(old(View()), p)
    {
      hide Framing.Wf, Owns, SendNow, Has, PostSend;
      if version.V5_0? && Size(version, p) > flow.maxSend { return [NotifyError(PacketTooLarge)]; }
      if !status.Connected? && !needStore { return [NotifyError(PacketNotAllowedToSend)]; }
      var isUsed := IsUsedId(p.pid);
      if !isUsed { return [NotifyError(PacketIdentifierInvalid)]; }
      if needStore { AddStored(StoredPubrel(version, p.pid, p.rc, p.rem), true); }
      if status.Connected? {
        pidPubcomp := pidPubcomp + {p.pid};
        ev := RequestSend(p, None);
      } else {
        ev := SendPostProcess();
      }
    }

    method ProcessSendRequest(p: Packet) returns (ev: seq<Event>)
      requires p.Subscribe? || p.Unsubscribe?
      requires Valid()
      modifies this, parts
      ensures Valid() && fresh(parts - old(parts))
      ensures R(View(), ev) == SendRequest(old(View()), p)
    {
      hide Owns, SendNow, RefuseAndRelease;
      if version.V5_0? && Size(version, p) > flow.maxSend { return [NotifyError(PacketTooLarge)]; }
      if !status.Connected? {
        ev := RefuseSend(PacketNotAllowedToSend, p.pid);
        return;
      }
      var isUsed := IsUsedId(p.pid);
      if !isUsed { return [NotifyError(PacketIdentifierInvalid)]; }
      if p.Subscribe? { pidSuback := pidSuback + {p.pid}; } else { pidUnsuback := pidUnsuback + {p.pid}; }
      ev := RequestSend(p, Some(p.pid));
    }

    method ProcessSendPingreq() returns (ev: seq<Event>)
      requires Valid()
      modifies this, parts
      ensures Valid() && fresh(parts - old(parts))
      ensures R(View(), ev) == SendPingreq(old(View()))
    {
      hide Owns, PostSend;
      if version.V5_0? && Size(version, Pingreq) > flow.maxSend { return [NotifyError(PacketTooLarge)]; }
      if !status.Connected? { return [NotifyError(PacketNotAllowedToSend)]; }
      ev := [RequestSendPacket(Pingreq, None)];
      if timers.respTimeoutMs != 0 {
        timers := timers.(respSet := true);
        ev := ev + [RequestTimerReset(PingrespRecv, timers.respTimeoutMs)];
      }
      var post := SendPostProcess();
      ev := ev + post;
    }

    method ProcessSendDisconnect(p: Packet, v5: bool) returns (ev: seq<Event>)
      requires Valid()
      modifies this, parts
      ensures Valid() && fresh(parts - old(parts))
      ensures R(View(), ev) == SendDisconnect(old(View()), p, v5)
    {
      hide Owns, CancelTimers, Size;
      if v5 && Size(V5_0, p) > flow.maxSend { return [NotifyError(PacketTooLarge)]; }
      if !status.Connected? { return [NotifyError(PacketNotAllowedToSend)]; }
      status := Disconnected;
      ev := CancelAllTimers();
      ev := ev + [RequestSendPacket(p, None), RequestClose];
    }

    method ProcessSendAuth(p: Packet) returns (ev: seq<Event>)
      requires Valid()
      modifies this, parts
      ensures Valid() && fresh(parts - old(parts))
      ensures R(View(), ev) == SendAuth(old(View()), p)
    {
      hide Owns;
      if Size(V5_0, p) > flow.maxSend { return [NotifyError(PacketTooLarge)]; }
      if status.Disconnected? { return [NotifyError(PacketNotAllowedToSend)]; }
      ev := RequestSend(p, None);
    }

    method SendPacket(v: Version, p: Packet) returns (ev: seq<Event>)
      requires Valid()
      modifies this, parts
      ensures Valid() && fresh(parts - old(parts))
      ensures R(View(), ev) == Send(old(View()), v, p)
    {
      hide Owns, Dispatch, RoleMaySend;
      if v.Undetermined? || version != v || (p.Auth? && !v.V5_0?) { return [NotifyError(VersionMismatch)]; }
      if !RoleMaySend(opt.role, v, p) { return [NotifyError(PacketNotAllowedToSend)]; }
      ev := ProcessSend(p);
    }

    /** The operation of the packet type. */
    method ProcessSend(p: Packet) returns (ev: seq<Event>)
      requires Valid()
      modifies this, parts
      ensures Valid() && fresh(parts - old(parts))
      ensures R(View(), ev) == Dispatch(old(View()), p)
    {
      hide Owns, SendConnect, SendConnack, SendPublishV3, SendPublishV5, SendPubrel, SendRequest, SendPingreq,
          SendDisconnect, SendAuth;
      hide SendWhenConnected;
      match p {
        case Connect(_, _, _, _) => ev := ProcessSendConnect(p);
        case Connack(_, _, _, _) => ev := ProcessSendConnack(p);
        case PublishPacket(pub) =>
          if version.V5_0? { ev := ProcessSendPublishV5(pub); } else { ev := ProcessSendPublishV3(pub); }
        case Pubrel(_, _, _) => ev := ProcessSendPubrel(p);
        case Subscribe(_, _) => ev := ProcessSendRequest(p);
        case Unsubscribe(_, _) => ev := ProcessSendRequest(p);
        case Pingreq => ev := ProcessSendPingreq();
        case Disconnect(_, _) => ev := ProcessSendDisconnect(p, version.V5_0?);
        case Auth(_) => ev := ProcessSendAuth(p);
        case _ => ev := ProcessSendResponse(p);
      }
    }

    // -------------------------------------------------------------- receiving

    method HandleError(e: MqttError) returns (ev: seq<Event>)
      requires Valid()
      modifies this, parts
      ensures Valid() && fresh(parts - old(parts))
      ensures R(View(), ev) == Fail(old(View()), e)
    {
      hide Owns, SendDisconnect;
      if version.V5_0? {
        ev := ProcessSendDisconnect(Disconnect(Some(e), 1), true);
        ev := ev + [NotifyError(e)];
      } else {
        ev := [RequestClose, NotifyError(e)];
      }
    }

    /** The usual end of a reception, behind the events collected so far. */
    method Notify(before: seq<Event>, p: Packet) returns (ev: seq<Event>)
      requires Valid()
      modifies this`timers
      ensures Valid() && R(View(), ev) == Before(before, Deliver(old(View()), p))
    {
      hide Owns;
      var out := RefreshPingreqRecv();
      ev := before + out + [NotifyPacketReceived(p)];
      assert before + (out + [NotifyPacketReceived(p)]) == ev;
    }

    method ProcessRecvConnect(p: Packet) returns (ev: seq<Event>)
      requires Valid() && p.Connect?
      modifies this, parts
      ensures Valid() && fresh(parts - old(parts))
      ensures R(View(), ev) == ReceiveConnect(old(View()), p)
    {
      hide Owns, Welcomed, Fail, Deliver;
      if !status.Disconnected? {
        ev := HandleError(ProtocolError);
        return;
      }
      Welcome(p);
      Joined([], [], Deliver(View(), p));
      ev := Notify([], p);
    }

    method Welcome(p: Packet)
      requires Valid() && p.Connect?
      modifies this, parts
      ensures Valid() && fresh(parts - old(parts)) && View() == Welcomed(old(View()), p)
    {
      hide Framing.Wf, Owns, ApplyReceivedProps;
      InitializeFor(false);
      status := Connecting;
      if p.keepAlive > 0 { timers := timers.(recvTimeoutMs := p.keepAlive * 1000 * 3 / 2); }
      OpenSession(p.clean);
      if version.V5_0? { var _ := ApplyReceived(p.props, true); }
    }

    method ProcessRecvConnack(p: Packet) returns (ev: seq<Event>)
      requires p.Connack?
      requires Valid()
      modifies this, parts
      ensures Valid() && fresh(parts - old(parts))
      ensures R(View(), ev) == ReceiveConnack(old(View()), p)
    {
      hide Framing.Wf, Owns, ApplyReceivedProps, SendStored, ClearSession;
      if !p.accepted { return [NotifyPacketReceived(p)]; }
      ev := [];
      status := Connected;
      if version.V5_0? { ev := ApplyReceived(p.props, false); }
      if p.sessionPresent {
        var stored := SendStoredPackets();
        ev := ev + stored;
      } else {
        ClearStoreRelated();
      }
      ev := ev + [NotifyPacketReceived(p)];
    }

    /** Builds and sends an automatic response. */
    method AutoRespond(p: Packet) returns (ev: seq<Event>)
      requires p.Puback? || p.Pubrec? || p.Pubcomp?
      requires Valid()
      modifies this, parts
      ensures Valid() && fresh(parts - old(parts))
      ensures R(View(), ev) == Respond(old(View()), p)
    {
      hide Owns, SendWhenConnected;
      ev := [];
      if p.pid == 0 { panicked := true; } else { ev := ProcessSendResponse(p); }
    }

    method ProcessRecvPublishV3(p: Publish) returns (ev: seq<Event>)
      requires Valid()
      modifies this, parts
      ensures Valid() && fresh(parts - old(parts))
      ensures R(View(), ev) == ReceivePublishV3(old(View()), p)
    {
      hide Owns, Respond, Deliver, RefreshRecv;
      ev := [];
      Joined([], [], Deliver(View(), PublishPacket(p)));
      match p.qos {
        case AtMostOnce =>
        case AtLeastOnce =>
          if status.Connected? && opt.autoPub { ev := AutoRespond(Puback(p.pid, None, 2)); }
        case ExactlyOnce =>
          ev := RecvQos2V3(p);
          return;
      }
      ev := Notify(ev, PublishPacket(p));
    }

    method RecvQos2V3(p: Publish) returns (ev: seq<Event>)
      requires Valid() && p.qos.ExactlyOnce?
      modifies this, parts
      ensures Valid() && fresh(parts - old(parts))
      ensures R(View(), ev) == ReceivePublishV3(old(View()), p)
    {
      hide Owns, Respond, Deliver, RefreshRecv;
      ev := [];
      var again := p.pid in handled;
      handled := handled + {p.pid};
      if status.Connected? && (opt.autoPub || again) { ev := AutoRespond(Pubrec(p.pid, None, 2)); }
      if again {
        var out := RefreshPingreqRecv();
        ev := ev + out;
      } else {
        ev := Notify(ev, PublishPacket(p));
      }
    }

    method ProcessRecvPublishV5(p: Publish) returns (ev: seq<Event>)
      requires Valid()
      modifies this, parts
      ensures Valid() && fresh(parts - old(parts))
      ensures R(View(), ev) == ReceivePublishV5(old(View()), p)
    {
      hide Owns, ReceiveTopic, Fail;
      var respond, again := false, false;
      if !p.qos.AtMostOnce? {
        if flow.recvMax.Some? && |flow.publishRecv| >= flow.recvMax.value {
          ev := HandleError(ReceiveMaximumExceeded);
          return;
        }
        again := OpenReception(p);
        respond := status.Connected? && (opt.autoPub || again);
      }
      ev := ResolveTopic(p, respond, again);
    }

    /** Notes a QoS 1 or 2 PUBLISH as open; tells whether it is a duplicate. */
    method OpenReception(p: Publish) returns (again: bool)
      requires Valid()
      modifies this`flow, this`handled
      ensures Valid() && again == (p.qos.ExactlyOnce? && p.pid in old(handled))
      ensures var c := old(View());
        var c1 := c.(flow := c.flow.(publishRecv := c.flow.publishRecv + {p.pid}));
        View() == if !p.qos.ExactlyOnce? then c1
                  else c1.(session := c1.session.(handled := c1.session.handled + {p.pid}))
    {
      hide Owns;
      again := false;
      flow := flow.(publishRecv := flow.publishRecv + {p.pid});
      if p.qos.ExactlyOnce? {
        again := p.pid in handled;
        handled := handled + {p.pid};
      }
    }

    /** The alias part of receiving a v5.0 PUBLISH. */
    method ResolveTopic(p: Publish, respond: bool, again: bool) returns (ev: seq<Event>)
      requires Valid()
      modifies this, parts
      ensures Valid() && fresh(parts - old(parts))
      ensures R(View(), ev) == ReceiveTopic(old(View()), p, respond, again)
    {
      hide Owns, AcceptPublish, Fail, RecvGet, HasWildcard;
      var q := p;
      if p.topic == [] {
        var t := None;
        if p.alias.Some? {
          var valid, topic := ReadAlias(p.alias.value);
          t := topic;
        }
        if t.None? || HasWildcard(t.value) {
          ev := HandleError(TopicAliasInvalid);
          return;
        }
        q := p.(topic := t.value, extracted := true);
      } else if p.alias.Some? {
        var valid, _ := ReadAlias(p.alias.value);
        if !valid {
          ev := HandleError(TopicAliasInvalid);
          return;
        }
        LearnAlias(p.topic, p.alias.value);
      }
      ev := TakePublish(q, respond, again);
    }

    method TakePublish(p: Publish, respond: bool, again: bool) returns (ev: seq<Event>)
      requires Valid()
      modifies this, parts
      ensures Valid() && fresh(parts - old(parts))
      ensures R(View(), ev) == AcceptPublish(old(View()), p, respond, again)
    {
      hide Owns, Respond, Deliver, RefreshRecv;
      ev := [];
      if respond { ev := AutoRespond(if p.qos.AtLeastOnce? then Puback(p.pid, None, 2) else Pubrec(p.pid, None, 2)); }
      if again {
        var out := RefreshPingreqRecv();
        ev := ev + out;
      } else {
        ev := Notify(ev, PublishPacket(p));
      }
    }

    /** The end of an exchange. */
    method EndExchange(id: nat, p: Packet, counted: bool) returns (ev: seq<Event>)
      requires Valid()
      modifies this, parts
      ensures Valid() && fresh(parts - old(parts))
      ensures R(View(), ev) == Finish(old(View()), id, p, counted)
    {
      hide Framing.Wf, Owns, Deliver, Release, FreeSlot;
      ev := ReleasePacketId(id);
      if counted { FreeSendSlot(); }
      ev := Notify(ev, p);
    }

    method FreeSendSlot()
      requires Valid()
      modifies this`flow, this`panicked
      ensures Valid() && View() == FreeSlot(old(View()))
    {
      hide Owns;
      if version.V5_0? && flow.sendMax.Some? {
        if flow.sendCount == 0 { panicked := true; } else { flow := flow.(sendCount := flow.sendCount - 1); }
      }
    }

    method ProcessRecvPuback(p: Packet) returns (ev: seq<Event>)
      requires Valid() && p.Puback?
      modifies this, parts
      ensures Valid() && fresh(parts - old(parts))
      ensures R(View(), ev) == ReceivePacket(old(View()), p)
    {
      hide Owns, Finish, Fail, Erase;
      if p.pid !in pidPuback {
        ev := HandleError(ProtocolError);
        return;
      }
      pidPuback := pidPuback - {p.pid};
      EraseStored(AwaitPuback, p.pid);
      ev := EndExchange(p.pid, p, true);
    }

    method ProcessRecvPubcomp(p: Packet) returns (ev: seq<Event>)
      requires Valid() && p.Pubcomp?
      modifies this, parts
      ensures Valid() && fresh(parts - old(parts))
      ensures R(View(), ev) == ReceivePacket(old(View()), p)
    {
      hide Owns, Finish, Fail, Erase;
      if p.pid !in pidPubcomp {
        ev := HandleError(ProtocolError);
        return;
      }
      pidPubcomp := pidPubcomp - {p.pid};
      EraseStored(AwaitPubcomp, p.pid);
      ev := EndExchange(p.pid, p, true);
    }

    method ProcessRecvSuback(p: Packet) returns (ev: seq<Event>)
      requires Valid() && p.Suback?
      modifies this, parts
      ensures Valid() && fresh(parts - old(parts))
      ensures R(View(), ev) == ReceivePacket(old(View()), p)
    {
      hide Owns, Finish, Fail, Erase;
      if p.pid !in pidSuback {
        ev := HandleError(ProtocolError);
        return;
      }
      pidSuback := pidSuback - {p.pid};
      ev := EndExchange(p.pid, p, false);
    }

    method ProcessRecvUnsuback(p: Packet) returns (ev: seq<Event>)
      requires Valid() && p.Unsuback?
      modifies this, parts
      ensures Valid() && fresh(parts - old(parts))
      ensures R(View(), ev) == ReceivePacket(old(View()), p)
    {
      hide Owns, Finish, Fail, Erase;
      if p.pid !in pidUnsuback {
        ev := HandleError(ProtocolError);
        return;
      }
      pidUnsuback := pidUnsuback - {p.pid};
      ev := EndExchange(p.pid, p, false);
    }

    method ProcessRecvPubrec(p: Packet) returns (ev: seq<Event>)
      requires p.Pubrec?
      requires Valid()
      modifies this, parts
      ensures Valid() && fresh(parts - old(parts))
      ensures R(View(), ev) == ReceivePubrec(old(View()), p)
    {
      hide Owns, Finish, Fail, Erase, SendPubrel, Deliver;
      if p.pid !in pidPubrec {
        ev := HandleError(ProtocolError);
        return;
      }
      pidPubrec := pidPubrec - {p.pid};
      EraseStored(AwaitPubrec, p.pid);
      if version.V5_0? && p.rc.Some? && p.rc.value != 0 {
        ev := EndExchange(p.pid, p, true);
        return;
      }
      ev := [];
      if opt.autoPub && status.Connected? { ev := ProcessSendPubrel(Pubrel(p.pid, None, 2)); }
      ev := Notify(ev, p);
    }

    method ProcessRecvPubrel(p: Packet) returns (ev: seq<Event>)
      requires p.Pubrel?
      requires Valid()
      modifies this, parts
      ensures Valid() && fresh(parts - old(parts))
      ensures R(View(), ev) == ReceivePubrel(old(View()), p)
    {
      hide Owns, Respond, Deliver;
      var known := p.pid in handled;
      handled := handled - {p.pid};
      ev := [];
      if opt.autoPub && status.Connected? {
        ev := AutoRespond(if version.V5_0? && !known then Pubcomp(p.pid, Some(0x92), 3) else Pubcomp(p.pid, None, 2));
      }
      ev := Notify(ev, p);
    }

    method ProcessRecvPingreq() returns (ev: seq<Event>)
      requires Valid()
      modifies this, parts
      ensures Valid() && fresh(parts - old(parts))
      ensures R(View(), ev) == ReceivePingreq(old(View()))
    {
      hide Owns, SendWhenConnected, Deliver;
      ev := [];
      if !opt.role.Client? && !opt.isClient && opt.autoPing && status.Connected? {
        ev := ProcessSendResponse(Pingresp);
      }
      ev := Notify(ev, Pingreq);
    }

    method ProcessRecvPacket(p: Packet) returns (ev: seq<Event>)
      requires Valid()
      modifies this, parts
      ensures Valid() && fresh(parts - old(parts))
      ensures R(View(), ev) == ReceivePacket(old(View()), p)
    {
      hide Owns, ReceiveConnect, ReceiveConnack, ReceivePublishV3, ReceivePublishV5, ReceivePuback, ReceivePubrec,
          ReceivePubrel,
           ReceivePubcomp, ReceivePingreq, Finish, Fail, Deliver, CancelTimers;
      ev := [];
      match p {
        case Connect(_, _, _, _) => ev := ProcessRecvConnect(p);
        case Connack(_, _, _, _) => ev := ProcessRecvConnack(p);
        case PublishPacket(pub) =>
          if version.V5_0? { ev := ProcessRecvPublishV5(pub); } else { ev := ProcessRecvPublishV3(pub); }
        case Puback(_, _, _) => ev := ProcessRecvPuback(p);
        case Pubcomp(_, _, _) => ev := ProcessRecvPubcomp(p);
        case Suback(_, _) => ev := ProcessRecvSuback(p);
        case Unsuback(_, _) => ev := ProcessRecvUnsuback(p);
        case Pubrec(_, _, _) => ev := ProcessRecvPubrec(p);
        case Pubrel(_, _, _) => ev := ProcessRecvPubrel(p);
        case Pingreq => ev := ProcessRecvPingreq();
        case Pingresp =>
          if timers.respSet {
            timers := timers.(respSet := false);
            ev := [RequestTimerCancel(PingrespRecv)];
          }
          ev := ev + [NotifyPacketReceived(p)];
        case Disconnect(_, _) =>
          ev := CancelAllTimers();
          ev := ev + [NotifyPacketReceived(p)];
        case _ =>
          Joined([], [], Deliver(View(), p));
          ev := Notify([], p);
      }
    }

    method ProcessRecvFrame(f: Frame) returns (ev: seq<Event>)
      requires Valid()
      modifies this, parts
      ensures Valid() && fresh(parts - old(parts))
      ensures R(View(), ev) == ReceiveFrame(old(View()), f)
    {
      hide Owns, ReceivePacket, SendConnack, Fail;
      match f {
        case Good(p, _, _) => ev := ProcessRecvPacket(p);
        case Bad(t, e, _, _) =>
          if t == 1 {
            if !status.Disconnected? {
              ev := HandleError(ProtocolError);
            } else {
              status := Connecting;
              ev := ProcessSendConnack(Connack(false, false, [], if version.V5_0? then 3 else 2));
              ev := ev + [NotifyError(e)];
            }
          } else if version.V5_0? && (t == 2 || t == 3) && !status.Connected? {
            ev := [NotifyError(e)];
          } else {
            ev := HandleError(e);
          }
      }
    }

    /** Takes a frame that the packet builder completed. */
    method RecvFrame(f: Frame) returns (ev: seq<Event>)
      requires Valid()
      modifies this, parts
      ensures Valid() && fresh(parts - old(parts))
      ensures R(View(), ev) == Receive(old(View()), f)
    {
      hide Owns, ReceiveFrame, RoleMayReceive, FrameLength, SendDisconnect;
      var t, n := FrameType(f), FrameLength(version, f);
      if TotalSize(n) > flow.maxRecv {
        ev := ProcessSendDisconnect(Disconnect(Some(PacketTooLarge), 1), true);
        return ev + [NotifyError(PacketTooLarge)];
      }
      if !RoleMayReceive(opt.role, version, t) { return [NotifyError(ProtocolError)]; }
      if version.Undetermined? {
        if t != 1 || n < 7 { return [NotifyError(MalformedPacket)]; }
        if f.level != 4 && f.level != 5 { return [NotifyError(UnsupportedProtocolVersion)]; }
        version := if f.level == 4 then V3_1_1 else V5_0;
      } else if !(1 <= t <= 15) || (t == 15 && version.V3_1_1?) {
        return [NotifyError(MalformedPacket)];
      }
      ev := ProcessRecvFrame(f);
    }

    /** Feeds the packet builder once. `parse` stands for the packet parsers, which see a raw packet and the
        data in the form its type calls for: the publish form exactly for packet type 3. The size limit is
        checked against the raw body. */
    method Recv(data: Framing.Cursor, parse: Framing.RawPacket -> Frame) returns (ev: seq<Event>)
      requires Valid() && data.Valid() && data !in parts
      requires forall raw :: Reads(version, raw, parse(raw))
      modifies this, parts, builder, data
      ensures Valid() && fresh(parts - old(parts)) && data.Valid()
      ensures var n := Framing.Next(old(builder.View()), data.data[old(data.pos)..]);
        && builder.View() == n.b && data.pos == old(data.pos) + n.used
        && (n.out.Complete? ==> (n.out.packet.data.PublishData? <==> Framing.PacketType(n.out.packet) == 3))
        && R(View(), ev) == match n.out {
             case Complete(raw) =>
               if TotalSize(|raw.data.bytes|) > old(flow).maxRecv then Oversized(old(View()))
               else Receive(old(View()), parse(raw))
             case InProgress => R(old(View()), [])
             case Failed => FrameError(old(View()), MalformedPacket)
           }
    {
      hide Owns, Framing.Next, Receive, FrameError, Framing.Wf;
      ghost var was := View();
      Framing.NextDataKind(builder.View(), data.data[data.pos..]);
      var r := builder.Feed(data);
      match r {
        case Complete(raw) =>
          ev := RecvFrame(parse(raw));
          assert Reads(was.version, raw, parse(raw));
          if TotalSize(|raw.data.bytes|) > was.flow.maxRecv { OversizedIs(was, parse(raw)); }
        case InProgress => ev := [];
        case Failed => ev := RecvBroken(MalformedPacket);
      }
    }

    /** What `recv` does when the packet builder reports an error. */
    method RecvBroken(e: MqttError) returns (ev: seq<Event>)
      requires Valid()
      modifies this, parts
      ensures Valid() && fresh(parts - old(parts))
      ensures R(View(), ev) == FrameError(old(View()), e)
    {
      hide Owns;
      ev := CancelAllTimers();
      ev := ev + [RequestClose, NotifyError(e)];
    }

    // -------------------------------------------------------------- timers firing, closing, restoring

    method NotifyTimerFired(k: TimerKind) returns (ev: seq<Event>)
      requires Valid()
      modifies this, parts
      ensures Valid() && fresh(parts - old(parts))
      ensures R(View(), ev) == TimerFired(old(View()), k)
    {
      hide Owns, SendPingreq, SendDisconnect;
      ev := [];
      match k {
        case PingreqSend =>
          timers := timers.(sendSet := false);
          if status.Connected? {
            if version.Undetermined? { panicked := true; } else { ev := ProcessSendPingreq(); }
          }
        case PingreqRecv =>
          timers := timers.(recvSet := false);
          ev := KeepAliveExpired();
        case PingrespRecv =>
          timers := timers.(respSet := false);
          ev := KeepAliveExpired();
      }
    }

    method KeepAliveExpired() returns (ev: seq<Event>)
      requires Valid()
      modifies this, parts
      ensures Valid() && fresh(parts - old(parts))
      ensures R(View(), ev) == match old(version) {
          case V3_1_1 => R(old(View()), [RequestClose])
          case V5_0 => if old(status).Connected?
              then SendDisconnect(old(View()), Disconnect(Some(KeepAliveTimeout), 1), true) else R(old(View()), [])
          case Undetermined => R(Panic(old(View())), [])
        }
    {
      hide Owns, SendDisconnect;
      ev := [];
      match version {
        case V3_1_1 => ev := [RequestClose];
        case V5_0 => if status.Connected? { ev := ProcessSendDisconnect(Disconnect(Some(KeepAliveTimeout), 1), true); }
        case Undetermined => panicked := true;
      }
    }

    /** The sets are drained in any order that yields each member once. */
    method NotifyClosed(o: DrainOrder) returns (ev: seq<Event>)
      requires Valid() && DrainOk(View(), o)
      modifies this, parts
      ensures Valid() && fresh(parts - old(parts))
      ensures R(View(), ev) == Closed(old(View()), o)
    {
      hide Framing.Wf, Owns, Drain, DrainOk, CancelTimers, DropPublishes;
      flow := flow.(maxSend := NO_SIZE_LIMIT, maxRecv := NO_SIZE_LIMIT);
      status := Disconnected;
      ForgetAliases();
      assert View() == old(View()).(flow := flow, status := Disconnected, alias := Aliases(None, None));
      ev := DrainRequests(o);
      if !needStore {
        var dropped := DropAll(o);
        ev := ev + dropped;
      }
      var out := CancelAllTimers();
      ev := ev + out;
    }

    method DrainRequests(o: DrainOrder) returns (ev: seq<Event>)
      requires Valid()
      modifies this`pidSuback, this`pidUnsuback, this`used, this`panicked, parts
      ensures Valid()
      ensures var r1 := Drain(old(View()).(ids := old(View()).ids.(suback := {})), o.sub);
        var r2 := Drain(r1.c.(ids := r1.c.ids.(unsuback := {})), o.unsub);
        R(View(), ev) == R(r2.c, r1.ev + r2.ev)
    {
      hide Framing.Wf, Owns, Drain;
      pidSuback := {};
      ev := ReleaseAll(o.sub);
      pidUnsuback := {};
      var out := ReleaseAll(o.unsub);
      ev := ev + out;
    }

    method DropAll(o: DrainOrder) returns (ev: seq<Event>)
      requires Valid()
      modifies this, parts
      ensures Valid() && fresh(parts - old(parts))
      ensures R(View(), ev) == DropPublishes(old(View()), o)
    {
      hide Framing.Wf, Owns, Drain;
      handled, pidPuback := {}, {};
      assert View() == old(View()).(session := old(View()).session.(handled := {}),
                                    ids := old(View()).ids.(puback := {}));
      ev := ReleaseAll(o.ack);
      var out := DrainQos2(o);
      ev := ev + out;
    }

    method DrainQos2(o: DrainOrder) returns (ev: seq<Event>)
      requires Valid()
      modifies this`pidPubrec, this`pidPubcomp, this`used, this`panicked, parts
      ensures Valid()
      ensures var r2 := Drain(old(View()).(ids := old(View()).ids.(pubrec := {})), o.rec);
        var r3 := Drain(r2.c.(ids := r2.c.ids.(pubcomp := {})), o.comp);
        R(View(), ev) == R(r3.c, r2.ev + r3.ev)
    {
      hide Framing.Wf, Owns, Drain;
      pidPubrec := {};
      ev := ReleaseAll(o.rec);
      pidPubcomp := {};
      var out := ReleaseAll(o.comp);
      ev := ev + out;
    }

    method RestoreStored(ps: seq<StorePacket>)
      requires Valid()
      modifies this, parts
      ensures Valid() && fresh(parts - old(parts))
      ensures View() == RestorePackets(old(View()), ps)
    {
      hide Owns;
      ghost var start := View();
      assert ps[0..] == ps;
      for i := 0 to |ps|
        invariant Valid() && fresh(parts - old(parts))
        invariant RestorePackets(View(), ps[i..]) == RestorePackets(start, ps)
      {
        assert ps[i..][1..] == ps[i + 1..];
        RestorePacket(ps[i]);
      }
    }

    method RestorePacket(p: StorePacket)
      requires Valid()
      modifies this, parts
      ensures Valid() && fresh(parts - old(parts))
      ensures View() == RestoreOne(old(View()), p)
    {
      hide Owns, Has;
      if p.StoredPublish? && p.pub.qos.AtMostOnce? { return; }
      match p {
        case StoredPublish(_, pub) => AwaitResponse(pub);
        case StoredPubrel(_, id, _, _) => pidPubcomp := pidPubcomp + {id};
      }
      var ok := RegisterPacketId(IdOf(p));
      if ok { AddStored(p, false); }
    }

    /** Every call of the host, through the same door. */
    method Call(op: Op) returns (ev: seq<Event>)
      requires Legal(View(), op)
      requires Valid()
      modifies this, parts
      ensures Valid() && fresh(parts - old(parts))
      ensures R(View(), ev) == Step(old(View()), op)
    {
      hide Owns, Send, Receive, FrameError, TimerFired, Closed, SetPingreqInterval, Acquire, Register, Release,
          RestorePackets, DrainOk;
      ev := [];
      match op {
        case OpSend(v, p) => ev := SendPacket(v, p);
        case OpReceive(f) => ev := RecvFrame(f);
        case OpFrameError(e) => ev := RecvBroken(e);
        case OpTimer(k) => ev := NotifyTimerFired(k);
        case OpClosed(o) => ev := NotifyClosed(o);
        case OpInterval(ms) => ev := SetPingreqSendInterval(ms);
        case OpAcquire => var _ := AcquirePacketId();
        case OpRegister(id) => var _ := RegisterPacketId(id);
        case OpRelease(id) => ev := ReleasePacketId(id);
        case OpRestorePackets(ps) => RestoreStored(ps);
        case _ => Configure(op);
      }
    }

    /** A whole run of host calls: the object ends where the engine's run ends, with its events, so what is
        proved about runs holds of it. */
    method Drive(ops: seq<Op>) returns (ev: seq<Event>)
      requires Valid() && AllLegal(View(), ops)
      modifies this, parts
      ensures Valid() && fresh(parts - old(parts))
      ensures View() == Runs.Final(old(View()), ops) && ev == Runs.Events(old(View()), ops)
      ensures Runs.TimersMirror(Laws.ArmedOf(old(View())), Runs.Trace(old(View()), ops), Laws.ArmedOf(View()))
      ensures ReleasesReported(old(View()), ops, ev)
    {
      hide Owns, Step, Legal, Runs.TimersMirror, Runs.Trace, ReleasesReported;
      ghost var start := View();
      ev := [];
      assert ops[0..] == ops;
      for i := 0 to |ops|
        invariant Valid() && fresh(parts - old(parts)) && AllLegal(View(), ops[i..])
        invariant Runs.Final(View(), ops[i..]) == Runs.Final(start, ops)
        invariant ev + Runs.Events(View(), ops[i..]) == Runs.Events(start, ops)
      {
        assert ops[i..][1..] == ops[i + 1..];
        var out := Call(ops[i]);
        assert ev + (out + Runs.Events(View(), ops[i + 1..])) == ev + out + Runs.Events(View(), ops[i + 1..]);
        ev := ev + out;
      }
      assert ops[|ops|..] == [];
      assert ev == Runs.Events(start, ops);
      RunLaws(start, ops);
    }

    /** The calls that only set an option. */
    method Configure(op: Op)
      requires Valid() && OptionSet(op)
      modifies this`opt, this`needStore, this`timers, this`handled
      ensures Valid() && R(View(), []) == Step(old(View()), op)
    {
      hide Owns, Framing.Wf, Send, Receive, FrameError, TimerFired, Closed, SetPingreqInterval, Acquire, Register,
        Release, RestorePackets;
      match op {
        case OpOfflinePublish(on) =>
          opt := opt.(offlinePublish := on);
          if on { needStore := true; }
        case OpAutoPub(on) => opt := opt.(autoPub := on);
        case OpAutoPing(on) => opt := opt.(autoPing := on);
        case OpAutoMap(on) => opt := opt.(autoMap := on);
        case OpAutoReplace(on) => opt := opt.(autoReplace := on);
        case OpRespTimeout(t) => timers := timers.(respTimeoutMs := t);
        case OpRestoreHandled(s) => handled := s;
      }
    }
  }

  ghost predicate IdsStand(pidMan: PacketIds.PacketIdManager, used: set<nat>)
    reads pidMan.allocator
  {
    pidMan.Valid() && used == pidMan.Used()
  }

  ghost predicate StoreStands(store: PacketStore.PacketStore, packets: seq<StorePacket>)
    reads store
  {
    store.Valid() && packets == store.packets
  }

  ghost predicate SendStands(m: AliasMaps.TopicAliasSend?, sending: Option<AliasSend>)
    reads if m == null then {} else {m, m.allocator}
  {
    if m == null then sending == None else m.Valid() && sending == Some(m.View())
  }

  ghost predicate RecvStands(m: AliasMaps.TopicAliasRecv?, receiving: Option<AliasRecv>)
    reads m
  {
    receiving == if m == null then None else Some(m.View())
  }

  ghost predicate AllLegal(c: Conn, ops: seq<Op>)
    decreases |ops|
  {
    ops == [] || (Legal(c, ops[0]) && AllLegal(Step(c, ops[0]).c, ops[1..]))
  }

  /** Identifiers are reported as often as they become free, and once more for each stray that is dropped. */
  ghost predicate ReleasesReported(c: Conn, ops: seq<Op>, ev: seq<Event>) {
    && (Releases.Ready(c) && Releases.AllEncode(ops) ==>
          forall i: nat :: multiset(Laws.Released(ev))[i] == Releases.Frees(c, ops, i))
    && (Distinct(c.session.store) ==> forall i: nat ::
          multiset(Laws.Released(ev))[i] == Releases.Frees(c, ops, i) + Releases.Strays(c, ops, i))
  }

  lemma RunLaws(c: Conn, ops: seq<Op>)
    ensures Runs.TimersMirror(Laws.ArmedOf(c), Runs.Trace(c, ops), Laws.ArmedOf(Runs.Final(c, ops)))
    ensures ReleasesReported(c, ops, Runs.Events(c, ops))
  {
    hide Step;
    Runs.TimersFollowEvents(c, ops);
    hide Runs.TimersMirror, Releases.Ready, Releases.AllEncode, Laws.Released, Releases.Frees, Releases.Strays,
        Distinct;
    if Releases.Ready(c) && Releases.AllEncode(ops) {
      forall i: nat ensures multiset(Laws.Released(Runs.Events(c, ops)))[i] == Releases.Frees(c, ops, i) {
        Releases.ReleasesMatch(c, ops, i);
      }
    }
    if Distinct(c.session.store) {
      forall i: nat
        ensures multiset(Laws.Released(Runs.Events(c, ops)))[i]
            == Releases.Frees(c, ops, i) + Releases.Strays(c, ops, i)
      {
        Releases.ReleasesCounted(c, ops, i);
      }
    }
  }

  lemma OversizedIs(c: Conn, f: Frame)
    requires TotalSize(FrameLength(c.version, f)) > c.flow.maxRecv
    ensures Receive(c, f) == Oversized(c)
  {
    hide ReceiveFrame;
  }

  /** The frame has the type of the raw packet, and its length is the number of body bytes. */
  predicate Reads(v: Version, raw: Framing.RawPacket, f: Frame) {
    FrameType(f) == Framing.PacketType(raw) && FrameLength(v, f) == |raw.data.bytes|
  }

  predicate OptionSet(op: Op) {
    op.OpOfflinePublish? || op.OpAutoPub? || op.OpAutoPing? || op.OpAutoMap? || op.OpAutoReplace? || op.OpRespTimeout?
    || op.OpRestoreHandled?
  }

  /** The parts are apart from each other and stand for these values. */
  ghost predicate Owns(
    pidMan: PacketIds.PacketIdManager, used: set<nat>, store: PacketStore.PacketStore, packets: seq<StorePacket>,
    aliasSend: AliasMaps.TopicAliasSend?, sending: Option<AliasSend>,
    aliasRecv: AliasMaps.TopicAliasRecv?, receiving: Option<AliasRecv>, parts: set<object>)
    reads parts
  {
    && pidMan.allocator in parts && store in parts
    && (aliasSend != null ==>
          aliasSend in parts && aliasSend.allocator in parts && aliasSend.allocator != pidMan.allocator)
    && (aliasRecv != null ==> aliasRecv in parts)
    && IdsStand(pidMan, used) && StoreStands(store, packets)
    && SendStands(aliasSend, sending) && RecvStands(aliasRecv, receiving)
  }

  lemma {:induction false} SameSendable(c: Conn, d: Conn, s: seq<StorePacket>)
    requires c.flow == d.flow
    ensures Sendable(c, s) == Sendable(d, s)
  {
    if s != [] { SameSendable(c, d, s[1..]); }
  }

  lemma {:induction false} SendableIsFilter(c: Conn, s: seq<StorePacket>, keep: StorePacket -> bool)
    requires forall p :: keep(p) <==> Fits(c, p)
    ensures Sendable(c, s) == PacketStore.Filter(s, keep)
  {
    if s != [] { SendableIsFilter(c, s[1..], keep); }
  }

  lemma SendStep(c: Conn, s: seq<StorePacket>)
    requires s != []
    ensures Resend(c, s) ==
      if Fits(c, s[0]) then Before([RequestSendPacket(ToPacket(s[0]), None)], Resend(c, s[1..]))
      else if Freeable(c, IdOf(s[0]))
      then Before([NotifyPacketIdReleased(IdOf(s[0]))],
          Resend(c.(ids := c.ids.(used := c.ids.used - {IdOf(s[0])})), s[1..]))
      else Resend(Panic(c), s[1..])
  {
  }

  lemma Joined(ev: seq<Event>, out: seq<Event>, r: R)
    ensures Before(ev, Before(out, r)) == Before(ev + out, r) && Before([], r) == r
  {
    assert ev + (out + r.ev) == ev + out + r.ev && [] + r.ev == r.ev;
  }
}
