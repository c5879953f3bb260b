/** What each operation of the engine changes: the state after it as the state before with a few fields
    replaced. The laws of whole runs rest on these. */
module Frames {
  import opened Packets
  import opened TopicAlias
  import opened Store
  import opened Engine

  // ---------------------------------------------------------------- calls that leave the session alone

  /** Identifiers, stored packets and the send quota stay; so do version and options. */
  predicate Calm(c: Conn, d: Conn) {
    d == c.(status := d.status, session := c.session.(handled := d.session.handled),
            alias := c.alias.(recv := d.alias.recv), flow := c.flow.(publishRecv := d.flow.publishRecv),
            timers := d.timers, panicked := d.panicked)
  }

  lemma FailCalm(c: Conn, e: MqttError)
    ensures Calm(c, Fail(c, e).c)
  {
  }

  lemma RespondCalm(c: Conn, p: Packet)
    requires p.Puback? || p.Pubrec? || p.Pubcomp?
    ensures Calm(c, Respond(c, p).c)
  {
  }

  /** The topic of a received PUBLISH, or the alias that stands for it, is good. */
  predicate Understood(c: Conn, p: Publish) {
    match p.alias
    case None => p.topic != []
    case Some(a) =>
      && RecvAliasValid(c, a)
      && (p.topic != [] || match RecvGet(c.alias.recv.value, a) { case None => false case Some(t) => !HasWildcard(t) })
  }

  lemma AcceptCalm(c: Conn, p: Publish, respond: bool, again: bool)
    ensures Calm(c, AcceptPublish(c, p, respond, again).c)
  {
    hide Respond;
    RespondCalm(c, if p.qos.AtLeastOnce? then Puback(p.pid, None, 2) else Pubrec(p.pid, None, 2));
  }

  lemma TopicCalm(c: Conn, p: Publish, respond: bool, again: bool)
    ensures Calm(c, ReceiveTopic(c, p, respond, again).c)
  {
    hide Fail, AcceptPublish;
    FailCalm(c, TopicAliasInvalid);
    AcceptCalm(c, p, respond, again);
    if p.alias.Some? && RecvAliasValid(c, p.alias.value) {
      var m := c.alias.recv.value;
      AcceptCalm(c.(alias := c.alias.(recv := Some(m.(aliases := m.aliases[p.alias.value := p.topic])))), p, respond,
          again);
      if RecvGet(m, p.alias.value).Some? {
        AcceptCalm(c, p.(topic := RecvGet(m, p.alias.value).value, extracted := true), respond, again);
      }
    }
  }

  lemma PublishCalm(c: Conn, p: Publish)
    ensures Calm(c, ReceivePublishV3(c, p).c) && Calm(c, ReceivePublishV5(c, p).c)
  {
    hide ReceiveTopic, Fail, Respond;
    FailCalm(c, ReceiveMaximumExceeded);
    RespondCalm(c, Puback(p.pid, None, 2));
    RespondCalm(c.(session := c.session.(handled := c.session.handled + {p.pid})), Pubrec(p.pid, None, 2));
    var c1 := c.(flow := c.flow.(publishRecv := c.flow.publishRecv + {p.pid}));
    var c2 := c1.(session := c1.session.(handled := c1.session.handled + {p.pid}));
    var again := p.pid in c.session.handled;
    TopicCalm(c, p, false, false);
    TopicCalm(c1, p, c.opt.autoPub && IsConnected(c), false);
    TopicCalm(c2, p, IsConnected(c) && (c.opt.autoPub || again), again);
  }

  /** Neither part of the handshake nor an acknowledgement of this end's packets. */
  predicate Incidental(p: Packet) {
    !(p.Connect? || p.Connack? || p.Puback? || p.Pubrec? || p.Pubcomp? || p.Suback? || p.Unsuback?)
  }

  lemma ReceiveCalm(c: Conn, p: Packet)
    requires Incidental(p)
    ensures Calm(c, ReceivePacket(c, p).c)
  {
    hide ReceivePublishV3, ReceivePublishV5, Respond;
    if p.PublishPacket? { PublishCalm(c, p.pub); }
    if p.Pubrel? {
      var c1 := c.(session := c.session.(handled := c.session.handled - {p.pid}));
      RespondCalm(c1, Pubcomp(p.pid, None, 2));
      RespondCalm(c1, Pubcomp(p.pid, Some(0x92), 3));
    }
  }

  /** A frame that does not parse or is not let through. */
  lemma UnreadCalm(c: Conn, f: Frame)
    requires !(f.Good? && Arrives(c, f))
    ensures var d := Receive(c, f).c; Calm(c.(version := d.version), d) && (!c.version.Undetermined? ==> Calm(c, d))
  {
    hide ReceivePacket, Fail, ReceiveBadConnect, Oversized;
    if f.Bad? {
      var e := c.(version := if !c.version.Undetermined? then c.version else if f.level == 4 then V3_1_1 else V5_0);
      BadCalm(e, f.error);
    }
    OversizedCalm(c);
  }

  lemma OversizedCalm(c: Conn)
    ensures Calm(c, Oversized(c).c)
  {
  }

  lemma BadCalm(c: Conn, e: MqttError)
    ensures Calm(c, ReceiveBadConnect(c, e).c) && Calm(c, Fail(c, e).c)
  {
  }

  lemma TimerCalm(c: Conn, k: TimerKind)
    ensures Calm(c, TimerFired(c, k).c)
  {
  }

  /** Packets whose sending concerns neither the handshake nor an identifier of this end. */
  predicate Passing(p: Packet) {
    !(p.Connect? || p.Connack? || p.PublishPacket? || p.Pubrel? || p.Subscribe? || p.Unsubscribe?)
  }

  lemma DispatchCalm(c: Conn, p: Packet)
    requires Passing(p)
    ensures Calm(c, Dispatch(c, p).c)
  {
  }

  // ---------------------------------------------------------------- acknowledgements

  function LessOne(c: Conn, counted: bool): nat {
    if counted && IsV5(c) && c.flow.sendMax.Some? && c.flow.sendCount > 0 then c.flow.sendCount - 1
    else c.flow.sendCount
  }

  lemma FinishMoves(c: Conn, id: nat, p: Packet, counted: bool)
    ensures var d := Finish(c, id, p, counted).c;
      && d == c.(ids := c.ids.(used := if InRange(id) then c.ids.used - {id} else c.ids.used),
                 flow := c.flow.(sendCount := LessOne(c, counted)), timers := d.timers, panicked := d.panicked)
  {
  }

  // ---------------------------------------------------------------- handshake and resending

  lemma {:induction false} SentPropsMove(c: Conn, props: seq<Prop>, connect: bool)
    ensures var d := ApplySentProps(c, props, connect).c;
      d == c.(alias := c.alias.(recv := d.alias.recv), session := c.session.(needStore := d.session.needStore),
              flow := c.flow.(recvMax := d.flow.recvMax, maxRecv := d.flow.maxRecv),
              timers := d.timers, panicked := d.panicked)
    decreases |props|
  {
    if props != [] {
      var d := SentProp(c, props[0], connect).c;
      assert d == c.(alias := c.alias.(recv := d.alias.recv), session := c.session.(needStore := d.session.needStore),
                     flow := c.flow.(recvMax := d.flow.recvMax, maxRecv := d.flow.maxRecv),
                     timers := d.timers, panicked := d.panicked);
      hide SentProp;
      SentPropsMove(d, props[1..], connect);
    }
  }

  lemma {:induction false} ReceivedPropsMove(c: Conn, props: seq<Prop>, connect: bool)
    ensures var d := ApplyReceivedProps(c, props, connect).c;
      d == c.(alias := c.alias.(send := d.alias.send), session := c.session.(needStore := d.session.needStore),
              flow := c.flow.(sendMax := d.flow.sendMax, maxSend := d.flow.maxSend),
              timers := d.timers, panicked := d.panicked)
    decreases |props|
  {
    if props != [] {
      var d := ReceivedProp(c, props[0], connect).c;
      assert d == c.(alias := c.alias.(send := d.alias.send), session := c.session.(needStore := d.session.needStore),
                     flow := c.flow.(sendMax := d.flow.sendMax, maxSend := d.flow.maxSend),
                     timers := d.timers, panicked := d.panicked);
      hide ReceivedProp;
      ReceivedPropsMove(d, props[1..], connect);
    }
  }

  /** A CONNECT was sent or taken up. */
  predicate Greeted(c: Conn, d: Conn, clean: bool) {
    && d.version == c.version && d.status.Connecting? && d.flow.sendCount == 0 && d.session.handled == c.session.handled
    && (!IsV5(c) ==> d.flow.maxSend == c.flow.maxSend)
    && d.ids == (if clean then Ids({}, {}, {}, {}, {}, {}) else c.ids.(suback := {}, unsuback := {}))
    && d.session.store == (if clean then [] else c.session.store)
  }

  lemma GreetMoves(c: Conn, p: Packet)
    requires p.Connect?
    ensures Greeted(c, Greeting(c, p), p.clean) && Greeted(c, Welcomed(c, p), p.clean)
  {
    hide ApplySentProps, ApplyReceivedProps;
    var c1 := Initialize(c, true).(status := Connecting);
    var c2 := c1.(timers := c1.timers.(keepAliveMs := p.keepAlive * 1000));
    SentPropsMove(if p.clean then ClearSession(c2) else c2, p.props, true);
    var e1 := Initialize(c, false).(status := Connecting);
    var e2 := if p.keepAlive > 0 then e1.(timers := e1.timers.(recvTimeoutMs := p.keepAlive * 1000 * 3 / 2)) else e1;
    ReceivedPropsMove(if p.clean then ClearSession(e2) else e2, p.props, true);
  }

  /** Only the send side of the connection is told something. */
  lemma InformedMoves(c: Conn, p: Packet)
    requires p.Connack?
    ensures var d := Informed(c, p);
      d == c.(status := Connected, alias := c.alias.(send := d.alias.send),
              session := c.session.(needStore := d.session.needStore),
              flow := c.flow.(sendMax := d.flow.sendMax, maxSend := d.flow.maxSend),
              timers := d.timers, panicked := d.panicked)
      && (!IsV5(c) ==> d == c.(status := Connected))
  {
    hide ApplyReceivedProps;
    ReceivedPropsMove(c.(status := Connected), p.props, false);
  }

  /** Resending takes the identifiers of what is dropped out of use and changes nothing else. */
  lemma {:induction false} ResendMoves(c: Conn, s: seq<StorePacket>, i: nat)
    ensures var d := Resend(c, s).c;
      && d == c.(ids := c.ids.(used := d.ids.used), panicked := d.panicked)
      && (i in d.ids.used <==>
            i in c.ids.used && !(InRange(i) && exists k :: 0 <= k < |s| && IdOf(s[k]) == i && !Fits(c, s[k])))
    decreases |s|
  {
    if s != [] {
      var id := IdOf(s[0]);
      var c1 := c.(ids := c.ids.(used := c.ids.used - {id}));
      ResendMoves(c, s[1..], i);
      ResendMoves(c1, s[1..], i);
      ResendMoves(Panic(c), s[1..], i);
      assert forall k :: 0 <= k < |s[1..]| ==> s[1..][k] == s[k + 1];
      if k :| 0 < k < |s| && IdOf(s[k]) == i && !Fits(c, s[k]) { assert s[1..][k - 1] == s[k]; }
      assert forall k :: 0 <= k < |s| ==> (Fits(c1, s[k]) <==> Fits(c, s[k]));
      assert forall k :: 0 <= k < |s| ==> (Fits(Panic(c), s[k]) <==> Fits(c, s[k]));
      hide Fits;
    }
  }

  lemma {:induction false} SendableMembers(c: Conn, s: seq<StorePacket>)
    ensures forall p :: p in Sendable(c, s) ==> p in s
    ensures Distinct(s) ==> Distinct(Sendable(c, s))
    ensures (forall k :: 0 <= k < |s| ==> Fits(c, s[k])) ==> Sendable(c, s) == s
  {
    if s != [] {
      SendableMembers(c, s[1..]);
      var t := Sendable(c, s[1..]);
      if Distinct(s) {
        forall j | 0 <= j < |t| ensures IdOf(t[j]) != IdOf(s[0]) { assert t[j] in s[1..]; }
      }
      assert s == [s[0]] + s[1..];
    }
  }

  lemma SendStoredMoves(c: Conn)
    ensures var d := SendStored(c).c;
      d == c.(ids := c.ids.(used := d.ids.used),
              session := c.session.(store := Sendable(c, c.session.store)), panicked := d.panicked)
  {
    hide Resend, Sendable;
    ResendMoves(c, c.session.store, 0);
  }

  // ---------------------------------------------------------------- closing

  lemma {:induction false} DrainMoves(c: Conn, ids: seq<nat>)
    ensures var d := Drain(c, ids).c;
      && d == c.(ids := c.ids.(used := d.ids.used), panicked := d.panicked)
      && (forall id :: id in d.ids.used <==> id in c.ids.used && !(InRange(id) && id in ids))
      && ((forall k :: 0 <= k < |ids| ==> InRange(ids[k])) ==> d.panicked == c.panicked)
    decreases |ids|
  {
    if ids != [] { DrainMoves(Release(c, ids[0]).c, ids[1..]); }
  }

  /** The identifiers a close gives back. */
  predicate GivenUp(c: Conn, o: DrainOrder, id: nat) {
    id in o.sub || id in o.unsub || (!c.session.needStore && (id in o.ack || id in o.rec || id in o.comp))
  }

  lemma ClosedMoves(c: Conn, o: DrainOrder)
    ensures var d := Closed(c, o).c;
      && d == c.(flow := c.flow.(maxSend := NO_SIZE_LIMIT, maxRecv := NO_SIZE_LIMIT), status := Disconnected,
                 alias := Aliases(None, None), ids := d.ids,
                 session := c.session.(handled := if c.session.needStore then c.session.handled else {}),
                 timers := c.timers.(sendSet := false, recvSet := false, respSet := false), panicked := d.panicked)
      && d.ids == (if c.session.needStore then c.ids.(used := d.ids.used, suback := {}, unsuback := {})
                   else Ids(d.ids.used, {}, {}, {}, {}, {}))
      && (forall id :: id in d.ids.used <==> id in c.ids.used && !(InRange(id) && GivenUp(c, o, id)))
      && ((forall id :: GivenUp(c, o, id) ==> InRange(id)) ==> d.panicked == c.panicked)
  {
    hide Drain;
    var c1 := c.(flow := c.flow.(maxSend := NO_SIZE_LIMIT, maxRecv := NO_SIZE_LIMIT), status := Disconnected,
                 alias := c.alias.(send := None, recv := None));
    DrainMoves(c1.(ids := c1.ids.(suback := {})), o.sub);
    var c2 := Drain(c1.(ids := c1.ids.(suback := {})), o.sub).c;
    DrainMoves(c2.(ids := c2.ids.(unsuback := {})), o.unsub);
    var c3 := Drain(c2.(ids := c2.ids.(unsuback := {})), o.unsub).c;
    if !c.session.needStore {
      var c4 := c3.(session := c3.session.(handled := {}), ids := c3.ids.(puback := {}));
      DrainMoves(c4, o.ack);
      var c5 := Drain(c4, o.ack).c;
      DrainMoves(c5.(ids := c5.ids.(pubrec := {})), o.rec);
      var c6 := Drain(c5.(ids := c5.ids.(pubrec := {})), o.rec).c;
      DrainMoves(c6.(ids := c6.ids.(pubcomp := {})), o.comp);
    }
  }

  // ---------------------------------------------------------------- publishing

  /** A v3.1.1 PUBLISH gives its identifier back, or has it stored or awaited; no other identifier is concerned. */
  lemma PublishMovesV3(c: Conn, p: Publish)
    ensures var d := SendPublishV3(c, p).c;
      var s := StoredPublish(V3_1_1, p.(dup := true));
      && d == c.(ids := d.ids, session := c.session.(store := d.session.store), timers := d.timers,
          panicked := d.panicked)
      && (d.session.store == c.session.store
          || (d.session.store == c.session.store + [s] && !Has(c.session.store, p.pid)))
      && (d.ids == c.ids || d.ids == c.ids.(used := c.ids.used - {p.pid}) || d.ids == Await(c, p).ids)
      && (p.qos.AtMostOnce? ==> d.ids == c.ids && d.session == c.session)
  {
    hide Has;
  }

  lemma PubrelMoves(c: Conn, p: Packet)
    requires p.Pubrel?
    ensures var d := SendPubrel(c, p).c;
      var s := StoredPubrel(c.version, p.pid, p.rc, p.rem);
      && d == c.(ids := d.ids, session := c.session.(store := d.session.store), timers := d.timers,
          panicked := d.panicked)
      && (d.session.store == c.session.store
          || (d.session.store == c.session.store + [s] && !Has(c.session.store, p.pid)))
      && (d.ids == c.ids || d.ids == c.ids.(pubcomp := c.ids.pubcomp + {p.pid}))
  {
    hide Has;
  }

  lemma RequestMoves(c: Conn, p: Packet)
    requires p.Subscribe? || p.Unsubscribe?
    ensures var d := SendRequest(c, p).c;
      && d == c.(ids := d.ids, timers := d.timers, panicked := d.panicked)
      && (|| d.ids == c.ids || d.ids == c.ids.(used := c.ids.used - {p.pid})
          || (IsConnected(c) && IsUsed(c, p.pid) &&
              d.ids == if p.Subscribe? then c.ids.(suback := c.ids.suback + {p.pid})
                       else c.ids.(unsuback := c.ids.unsuback + {p.pid})))
  {
  }

  predicate QuotaFull(c: Conn) { c.flow.sendMax.Some? && c.flow.sendCount == c.flow.sendMax.value }

  /** The topic alias of the packet is no good: an alias to bind that is out of range, or a bare alias that
      stands for nothing. */
  predicate BadAlias(c: Conn, p: Publish) {
    if p.topic != [] then p.alias.Some? && !AliasInRange(c, p.alias.value) else ResolveAlias(c, p.alias).1.None?
  }

  /** The count after one more slot is taken, which fails at the largest 16-bit number. */
  function OneMore(c: Conn): nat {
    if c.flow.sendMax.Some? && c.flow.sendCount != 0xFFFF then c.flow.sendCount + 1 else c.flow.sendCount
  }

  /** Nothing changes but identifiers in use, aliases, timers and the send count. */
  predicate Passes(c: Conn, d: Conn, used: set<nat>, count: nat) {
    && d == c.(ids := d.ids, alias := d.alias, flow := d.flow, timers := d.timers, panicked := d.panicked)
    && d.ids == c.ids.(used := used) && d.flow == c.flow.(sendCount := count)
  }

  function Minus(c: Conn, p: Publish): set<nat> {
    if p.qos.AtMostOnce? || !InRange(p.pid) then c.ids.used else c.ids.used - {p.pid}
  }

  /** After the identifier checks a QoS 1 or 2 PUBLISH is turned away exactly if its alias is no good or the
      quota is full; its identifier is then given back. Otherwise it takes a slot. */
  lemma AliasedPasses(c: Conn, p: Publish, release: Option<nat>, validated: bool)
    ensures var d := SendAliased(c, p, release, validated).c;
      var bad := BadAlias(c, p) && !(p.topic == [] && validated);
      if bad || (!p.qos.AtMostOnce? && QuotaFull(c)) then Passes(c, d, Minus(c, p), c.flow.sendCount)
      else Passes(c, d, c.ids.used, if p.qos.AtMostOnce? then c.flow.sendCount else OneMore(c))
  {
    hide Touch, InsertOrUpdate, FindByTopic, LruAlias, SendCounted, RefusePublish, Passes, Peek;
    var d := SendAliased(c, p, release, validated).c;
    if p.topic == [] {
      var c1 := ResolveAlias(c, p.alias).0;
      ViaPasses(c, c1, p, p, release);
      ViaPasses(c, c, p, p, release);
      RefusedVia(c, c1, p);
    } else if p.alias.Some? {
      ViaPasses(c, BindAlias(c, p.topic, p.alias.value), p, p, release);
      RefusedVia(c, c, p);
    } else {
      ViaPasses(c, c, p, p, release);
      if c.alias.send.Some? {
        var f := FindByTopic(c.alias.send.value, p.topic);
        var a := if f.Some? then f.value else LruAlias(c.alias.send.value);
        ViaPasses(c, c, p, ByAlias(p, a), release);
        ViaPasses(c, BindAlias(c, p.topic, a), p, ByAlias(p, a), release);
      }
    }
  }

  lemma ViaPasses(c: Conn, c1: Conn, p: Publish, q: Publish, release: Option<nat>)
    requires c1 == c.(alias := c1.alias, panicked := c1.panicked) && q.pid == p.pid && q.qos == p.qos
    ensures var d := SendCounted(c1, q, release).c;
      if p.qos.AtMostOnce? then Passes(c, d, c.ids.used, c.flow.sendCount)
      else if QuotaFull(c) then Passes(c, d, Minus(c, p), c.flow.sendCount)
      else Passes(c, d, c.ids.used, OneMore(c))
  {
    assert var d := SendCounted(c1, q, release).c;
      if q.qos.AtMostOnce? then Passes(c1, d, c1.ids.used, c1.flow.sendCount)
      else if QuotaFull(c1) then Passes(c1, d, Minus(c1, q), c1.flow.sendCount)
      else Passes(c1, d, c1.ids.used, OneMore(c1));
    hide SendCounted;
  }

  lemma RefusedVia(c: Conn, c1: Conn, p: Publish)
    requires c1 == c.(alias := c1.alias, panicked := c1.panicked)
    ensures Passes(c, RefusePublish(c1, PacketNotAllowedToSend, p).c, Minus(c, p), c.flow.sendCount)
  {
    assert Passes(c1, RefusePublish(c1, PacketNotAllowedToSend, p).c, Minus(c1, p), c1.flow.sendCount);
    hide RefusePublish;
  }

  // ---------------------------------------------------------------- the whole of it

  /** The checks made before anything is stored or awaited. */
  predicate Admitted(c: Conn, p: Publish) { !TooLarge(c, PublishPacket(p)) && MayPublish(c) && IsUsed(c, p.pid) }

  /** A bare alias that stands for nothing is noticed before the packet is stored. */
  predicate Unresolved(c: Conn, p: Publish) { Stores(c) && p.topic == [] && BadAlias(c, p) }

  /** Turned away after it was stored, if there is a store, and awaited. */
  predicate TurnedAway(c: Conn, p: Publish) { QuotaFull(c) || BadAlias(c, p) }

  /** The topic that is stored in place of an alias. */
  function StoredTopic(c: Conn, p: Publish): Topic {
    if p.topic != [] then p.topic
    else match ResolveAlias(c, p.alias).1 case Some(t) => t case None => []
  }

  function ForStore(c: Conn, p: Publish): StorePacket {
    StoredPublish(V5_0, p.(topic := StoredTopic(c, p), alias := None, dup := true))
  }

  /** The packet goes into the store. */
  predicate Kept(c: Conn, p: Publish) {
    Stores(c) && (p.topic != [] || (!BadAlias(c, p) && !HasWildcard(StoredTopic(c, p)))) && !Has(c.session.store, p.pid)
  }

  /** The connection with the packet stored and awaited. */
  function Taken(c: Conn, p: Publish): Conn {
    Await(if Kept(c, p) then c.(session := c.session.(store := c.session.store + [ForStore(c, p)])) else c, p)
  }

  /** A QoS 1 or 2 PUBLISH is refused at once, or stored and awaited, and then perhaps turned away. */
  ghost predicate Published(c: Conn, p: Publish, d: Conn) {
    if !Admitted(c, p) || Unresolved(c, p) then
      Passes(c, d, if TooLarge(c, PublishPacket(p)) || (MayPublish(c) && !IsUsed(c, p.pid)) then c.ids.used
                   else Minus(c, p), c.flow.sendCount)
    else if TurnedAway(c, p) then Passes(Taken(c, p), d, Minus(c, p), c.flow.sendCount)
    else Passes(Taken(c, p), d, c.ids.used, OneMore(c))
  }

  lemma PublishPasses(c: Conn, p: Publish)
    requires IsV5(c) && !p.qos.AtMostOnce?
    ensures Published(c, p, SendPublishV5(c, p).c)
  {
    hide SendAliased, Step;
    if !Admitted(c, p) {
      hide Passes;
      RefusedVia(c, c, p);
      assert Passes(c, c, c.ids.used, c.flow.sendCount);
    } else if !Stores(c) {
      hide SendAliased, Touch, Has, Passes;
      AliasedPasses(Await(c, p), p, Some(p.pid), false);
    } else if p.topic != [] {
      NamedPasses(c, p);
      hide Published, SendPublishV5;
    } else {
      BarePasses(c, p);
      hide Published, SendPublishV5;
    }
  }

  lemma NamedPasses(c: Conn, p: Publish)
    requires IsV5(c) && !p.qos.AtMostOnce? && Admitted(c, p) && Stores(c) && p.topic != []
    ensures Published(c, p, SendPublishV5(c, p).c)
  {
    hide SendAliased, Touch, Has, Passes;
    var c1 := Await(Keep(c, ForStore(c, p)), p);
    AliasedPasses(c1, p, None, false);
    PassesFromTaken(c, p, c1);
  }

  lemma BarePasses(c: Conn, p: Publish)
    requires IsV5(c) && !p.qos.AtMostOnce? && Admitted(c, p) && Stores(c) && p.topic == []
    ensures Published(c, p, SendPublishV5(c, p).c)
  {
    hide SendAliased, Touch, Has, Passes;
    var (c1, t) := ResolveAlias(c, p.alias);
    if t.None? {
      RefusedVia(c, c1, p);
    } else {
      var c2 := if HasWildcard(t.value) then Panic(c1)
                else Keep(c1, StoredPublish(V5_0, p.(topic := t.value, alias := None, dup := true)));
      AliasedPasses(Await(c2, p), p, None, true);
      PassesFromTaken(c, p, Await(c2, p));
    }
  }

  lemma PassesFromTaken(c: Conn, p: Publish, c1: Conn)
    requires c1 == Taken(c, p).(alias := c1.alias, panicked := c1.panicked)
    ensures forall d, used, count {:trigger Passes(c1, d, used, count)} ::
      Passes(c1, d, used, count) ==> Passes(Taken(c, p), d, used, count)
  {
  }

  lemma QuietlySent(c: Conn, p: Publish)
    requires p.qos.AtMostOnce?
    ensures var d := SendPublishV5(c, p).c; Passes(c, d, c.ids.used, c.flow.sendCount)
  {
    AliasedPasses(c, p, None, false);
    hide SendAliased;
  }
}
