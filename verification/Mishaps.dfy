/** Inputs, each reached by calls from a new connection, on which the engine panics or loses something. */
module Mishaps {
  import opened Packets
  import opened TopicAlias
  import opened Store
  import opened Engine
  import opened Session

  const FREE: Flow := Flow(None, None, 0, {}, NO_SIZE_LIMIT, NO_SIZE_LIMIT)

  const NO_IDS: Ids := Ids({}, {}, {}, {}, {}, {})

  /** A client with automatic responses whose session is kept. */
  function Client(v: Version, st: Status, ids: Ids, store: seq<StorePacket>, flow: Flow): Conn {
    Conn(Options(Role.Client, true, false, true, false, false, false), v, st, ids, Engine.Session(true, store, {}),
         Aliases(None, None), flow, Timers(None, 0, None, 0, 0, false, false, false), false)
  }

  /** The host sends a packet; the peer sends one. */
  function Sends(c: Conn, p: Packet): R { Step(c, OpSend(c.version, p)) }

  function Gets(c: Conn, p: Packet): R { Step(c, Arrival(p)) }

  // ---------------------------------------------------------------- packets

  const AGAIN: Packet := Connect(false, 0, [SessionExpiryInterval(60)], 20)
  const BRIEFLY: Packet := Connect(false, 0, [], 20)
  const PLAIN: Packet := Connect(true, 0, [], 20)
  const FRESH: Packet := Connack(true, false, [], 20)
  const PRESENT: Packet := Connack(true, true, [], 20)
  const LIMITED: Packet := Connack(true, false, [ReceiveMaximum(1)], 20)
  const ALIASED: Packet := Connack(true, false, [TopicAliasMaximum(1), ReceiveMaximum(1)], 20)
  const QUOTA: Packet := Connack(true, true, [ReceiveMaximum(1)], 20)
  const NARROW: Packet := Connack(true, true, [MaximumPacketSize(4)], 20)
  const BYE: Packet := Disconnect(None, 0)
  const MESSAGE: Publish := Publish([116], ExactlyOnce, false, false, 1, None, 0, false, [])
  const FIRST: Publish := Publish([97], AtLeastOnce, false, false, 1, None, 0, false, [])
  const BINDING: Publish := Publish([98], AtLeastOnce, false, false, 2, Some(1), 0, false, [])
  const BARE: Publish := Publish([], AtMostOnce, false, false, 0, Some(1), 0, false, [])
  const NAMELESS: Packet := PublishPacket(MESSAGE.(pid := 0))
  const PUBREC: Packet := Pubrec(1, None, 2)
  const PUBACK: Packet := Puback(1, None, 2)
  const PUBREL: Packet := Pubrel(1, None, 2)
  const SUBSCRIBE: Packet := Subscribe(1, 5)

  const NO_ALIAS: Packet := Connect(true, 0, [TopicAliasMaximum(0)], 20)

  // ---------------------------------------------------------------- calls and states

  const ONE: nat := 1
  const REGISTER: Op := OpRegister(1)
  const REGISTER2: Op := OpRegister(2)
  const ONE_ACK: DrainOrder := Acked([1])
  const SOLE: Ids := NO_IDS.(used := {1})
  const AWAITING: Ids := NO_IDS.(used := {1}, puback := {1})
  const QUOTED: Flow := FREE.(sendMax := Some(1))
  const NOTE: StorePacket := Stored(1)
  const TABLE: AliasSend := NewSend(1)

  // ---------------------------------------------------------------- a client and its server

  function Started(v: Version): Conn { Step(New(Role.Client, v), OpAutoPub(true)).c }

  /** A client that asked to keep its session and got this CONNACK. */
  function Joined(v: Version, ack: Packet): Conn { Gets(Sends(Started(v), AGAIN).c, ack).c }

  lemma AskedIs(v: Version)
    requires !v.Undetermined?
    ensures Sends(Started(v), AGAIN).c == Client(v, Connecting, NO_IDS, [], FREE)
  {
  }

  lemma JoinedIs(v: Version)
    requires !v.Undetermined?
    ensures Joined(v, FRESH) == Client(v, Connected, NO_IDS, [], FREE)
    ensures Joined(V5_0, LIMITED) == Client(V5_0, Connected, NO_IDS, [], QUOTED)
  {
    AskedIs(v);
    AskedIs(V5_0);
    hide Sends, Started;
    assert LIMITED.props[1..] == [];
  }

  /** Resending a single packet that fits. */
  lemma ResendsOne(c: Conn, p: StorePacket)
    requires c.session.store == [p] && Fits(c, p)
    ensures SendStored(c) == R(c, [RequestSendPacket(ToPacket(p), None)])
  {
    assert c.session.store[1..] == [];
    assert Resend(c, []) == R(c, []) && Sendable(c, []) == [];
  }

  // ---------------------------------------------------------------- v3.1.1

  /** A client that asked to keep its session and took a QoS 2 message before the CONNACK. */
  function Begun(): Conn { Sends(Step(Sends(Started(V3_1_1), AGAIN).c, REGISTER).c, PublishPacket(MESSAGE)).c }

  const BEGUN: Conn := Client(V3_1_1, Connecting, NO_IDS.(used := {1}, pubrec := {1}),
      [StoredPublish(V3_1_1, MESSAGE.(dup := true))], FREE)

  lemma BegunIs()
    ensures Begun() == BEGUN
  {
  }

  /** The CONNACK brings no session: the message is gone, and nothing but the CONNACK is reported. */
  lemma MessageLost()
    ensures var r := Gets(Begun(), FRESH);
      !InFlight(r.c.ids, MESSAGE.pid) && r.c.session.store == [] && r.ev == [NotifyPacketReceived(FRESH)]
  {
    BegunIs();
    hide Begun;
  }

  /** The connected client, its message resent. */
  lemma BegunGoesOn()
    ensures Gets(Begun(), PRESENT).c == BEGUN.(status := Connected)
  {
    BegunIs();
    hide Begun;
    ResendsOne(BEGUN.(status := Connected), StoredPublish(V3_1_1, MESSAGE.(dup := true)));
    hide SendStored;
  }

  /** The host sends DISCONNECT, and then the PUBREC comes in. */
  lemma IdentifierAbandoned()
    ensures Abandoned(Gets(Sends(Gets(Begun(), PRESENT).c, BYE).c, PUBREC).c, MESSAGE.pid)
  {
    BegunGoesOn();
    QuitBegun();
    hide Sends, Begun;
  }

  lemma QuitBegun()
    ensures Sends(BEGUN.(status := Connected), BYE).c == BEGUN.(status := Disconnected)
  {
  }

  /** The peer sends a PUBLISH with identifier 0. */
  lemma PublishPanics()
    ensures var c := Gets(Begun(), PRESENT).c; !c.panicked && Gets(c, NAMELESS).c.panicked
  {
    BegunGoesOn();
    hide Begun;
  }

  /** A second CONNACK without session: the identifier is free while its SUBACK is still awaited. */
  lemma ConnackWipes()
    ensures var c := Subscribed();
      var d := Gets(c, FRESH).c;
      SUBSCRIBE.pid in c.ids.used && SUBSCRIBE.pid in d.ids.suback && SUBSCRIBE.pid !in d.ids.used
  {
    SubscribedIs();
    hide Subscribed;
  }

  function Subscribed(): Conn { Sends(Step(Joined(V3_1_1, FRESH), REGISTER).c, SUBSCRIBE).c }

  lemma SubscribedIs()
    ensures Subscribed() == Client(V3_1_1, Connected, NO_IDS.(used := {1}, suback := {1}), [], FREE)
  {
    hide Joined, Gets;
    JoinedIs(V3_1_1);
    var c, c1 := Client(V3_1_1, Connected, NO_IDS, [], FREE), Client(V3_1_1, Connected, SOLE, [], FREE);
    assert {} + {1} == {1};
    assert Step(c, REGISTER).c == c1;
    assert Sends(c1, SUBSCRIBE).c == SendRequest(c1, SUBSCRIBE).c;
  }

  /** Offline publishing was switched on and off again: the message is awaited, but neither sent nor stored. */
  lemma PublishLost()
    ensures var c := Step(Step(New(Role.Client, V3_1_1), OpOfflinePublish(true)).c, OpOfflinePublish(false)).c;
      var r := Sends(Step(c, REGISTER).c, PublishPacket(MESSAGE));
      r.ev == [] && r.c.session.store == [] && MESSAGE.pid in r.c.ids.pubrec
  {
  }

  // ---------------------------------------------------------------- v5.0: publishing under the quota

  function Note(id: nat): Publish { Publish([116], AtLeastOnce, false, false, id, None, 0, false, []) }

  function Stored(id: nat): StorePacket { StoredPublish(V5_0, Note(id).(dup := true)) }

  /** The host registers an identifier and publishes under it. */
  function Publishes(c: Conn, id: nat): Conn { Sends(Step(c, OpRegister(id)).c, PublishPacket(Note(id))).c }

  lemma PublishesIs(ids: Ids, store: seq<StorePacket>, flow: Flow, id: nat)
    requires InRange(id) && id !in ids.used && flow.maxSend == NO_SIZE_LIMIT && flow.sendCount < 0xFFFF
    ensures var c := Client(V5_0, Connected, ids, store, flow);
      var full := flow.sendMax == Some(flow.sendCount);
      if Has(store, id) then Publishes(c, id).panicked
      else Publishes(c, id) == Client(V5_0, Connected,
          ids.(used := if full then ids.used else ids.used + {id}, puback := ids.puback + {id}), store + [Stored(id)],
          flow.(sendCount := flow.sendCount + if full || flow.sendMax.None? then 0 else 1))
  {
    hide Has;
    var c := Client(V5_0, Connected, ids, store, flow);
    var c1 := Step(c, OpRegister(id)).c;
    assert c1 == c.(ids := ids.(used := ids.used + {id}));
    assert ids.used + {id} - {id} == ids.used;
    assert Publishes(c, id) == SendPublishV5(c1, Note(id)).c;
  }

  /** A full quota: the second message is stored, refused, and its identifier given back. */
  function Orphaned(id: nat): Conn { Publishes(Publishes(Joined(V5_0, LIMITED), ONE), id) }

  function Orphan(id: nat): Conn {
    Client(V5_0, Connected, NO_IDS.(used := {1}, puback := {1, id}), [NOTE, Stored(id)],
           FREE.(sendMax := Some(1), sendCount := 1))
  }

  lemma OrphanedIs(id: nat)
    requires 2 <= id <= MAX_ID
    ensures Orphaned(id) == Orphan(id)
  {
    hide Joined, Publishes;
    JoinedIs(V5_0);
    assert !Has([], 1) && !Has([NOTE], id) && {} + {1} == {1} && {1} + {id} == {1, id};
    PublishesIs(NO_IDS, [], QUOTED, 1);
    PublishesIs(AWAITING, [NOTE], FREE.(sendMax := Some(1), sendCount := 1), id);
    assert [] + [NOTE] == [NOTE] && [NOTE] + [Stored(id)] == [NOTE, Stored(id)];
  }

  /** Using an identifier again that was given back fails an unwrap. */
  lemma ReusePanics(id: nat)
    requires 2 <= id <= MAX_ID
    ensures var c := Orphaned(id);
      !c.panicked && id !in c.ids.used && Has(c.session.store, id) && Publishes(c, id).panicked
  {
    hide Orphaned, Publishes;
    OrphanedIs(id);
    var c := Orphan(id);
    assert IdOf(c.session.store[1]) == id;
    PublishesIs(c.ids, c.session.store, c.flow, id);
  }

  // ---------------------------------------------------------------- v5.0: coming back to the session

  /** The connection is lost and the client asks for its session again. */
  function Back(c: Conn, o: DrainOrder): Conn { Sends(Step(c, OpClosed(o)).c, AGAIN).c }

  function Acked(ids: seq<nat>): DrainOrder { DrainOrder([], [], ids, [], []) }

  lemma BackIs(ids: Ids, store: seq<StorePacket>, flow: Flow, o: DrainOrder)
    requires ids.suback == {} && ids.unsuback == {} && o.sub == [] && o.unsub == []
    ensures Back(Client(V5_0, Connected, ids, store, flow), o) ==
      Client(V5_0, Connecting, ids, store, FREE.(publishRecv := {}))
  {
    DownIs(ids, store, flow, o);
    hide Closed;
  }

  /** A kept session outlives the connection. */
  lemma DownIs(ids: Ids, store: seq<StorePacket>, flow: Flow, o: DrainOrder)
    requires ids.suback == {} && ids.unsuback == {} && o.sub == [] && o.unsub == []
    ensures Step(Client(V5_0, Connected, ids, store, flow), OpClosed(o)).c ==
      Client(V5_0, Disconnected, ids, store, flow.(maxSend := NO_SIZE_LIMIT, maxRecv := NO_SIZE_LIMIT))
  {
    hide Send, Receive;
  }

  /** The server limits the quota on the resumed session, the stored message is resent, and its acknowledgement
      takes the count below zero. */
  function Resumed(): Conn { Back(Publishes(Joined(V5_0, FRESH), ONE), ONE_ACK) }

  const RESUMED: Conn := Client(V5_0, Connecting, AWAITING, [NOTE], FREE)

  lemma ResumedIs()
    ensures Resumed() == RESUMED
  {
    hide Joined, Publishes, Back;
    JoinedIs(V5_0);
    assert !Has([], 1) && {} + {1} == {1} && [] + [NOTE] == [NOTE];
    PublishesIs(NO_IDS, [], FREE, 1);
    BackIs(AWAITING, [NOTE], FREE, ONE_ACK);
  }

  lemma ResentUnderflows()
    ensures var r := Gets(Resumed(), QUOTA);
      && !r.c.panicked && r.ev == [RequestSendPacket(ToPacket(NOTE), None), NotifyPacketReceived(QUOTA)]
      && Gets(r.c, PUBACK).c.panicked
  {
    hide Resumed;
    ResumedIs();
    assert Gets(RESUMED, QUOTA) == R(RESUMED.(status := Connected, flow := QUOTED),
      [RequestSendPacket(ToPacket(NOTE), None), NotifyPacketReceived(QUOTA)]) by {
      assert QUOTA.props[1..] == [];
      var c := RESUMED.(status := Connected, flow := QUOTED);
      ResendsOne(c, NOTE);
      hide SendStored;
      assert ApplyReceivedProps(RESUMED.(status := Connected), QUOTA.props, false) == R(c, []);
    }
    hide SendStored;
  }

  /** The server limits the packet size on the resumed session: an identifier that is stored but not in use is
      given back a second time. It is reported free once more, and 65,535 overflows. */
  lemma GivenBackTwice(id: nat)
    requires 2 <= id <= MAX_ID
    ensures var c := Back(Orphaned(id), Acked([1, id]));
      var r := Gets(c, NARROW);
      !c.panicked && id !in c.ids.used && if id < MAX_ID then NotifyPacketIdReleased(id) in r.ev else r.c.panicked
  {
    hide Orphaned, Back;
    OrphanedIs(id);
    var o := Orphan(id);
    BackIs(o.ids, o.session.store, o.flow, Acked([1, id]));
    var c := Client(V5_0, Connecting, o.ids, o.session.store, FREE);
    assert NARROW.props[1..] == [];
    var d := c.(status := Connected, flow := FREE.(maxSend := 4));
    assert var r := SendStored(d); if id < MAX_ID then NotifyPacketIdReleased(id) in r.ev else r.c.panicked by {
      var c1 := d.(ids := d.ids.(used := d.ids.used - {1}));
      assert !Fits(d, NOTE) && !Fits(c1, Stored(id));
      assert d.session.store[1..] == [Stored(id)] && [Stored(id)][1..] == [];
      assert Resend(Panic(c1), []).c == Panic(c1);
      assert Resend(d, d.session.store).ev == [NotifyPacketIdReleased(1)] + Resend(c1, [Stored(id)]).ev;
    }
    assert ApplyReceivedProps(c.(status := Connected), NARROW.props, false) == R(d, []);
    hide SendStored;
    assert Gets(c, NARROW) == R(SendStored(d).c, [] + SendStored(d).ev + [NotifyPacketReceived(NARROW)]);
  }

  /** A v5.0 PUBLISH with identifier 0 that is answered automatically. */
  lemma PublishPanics5()
    ensures var c := Joined(V5_0, FRESH); !c.panicked && Gets(c, NAMELESS).c.panicked
  {
    hide Joined, Sends;
    JoinedIs(V5_0);
    var c := Client(V5_0, Connected, NO_IDS, [], FREE);
    assert Gets(c, NAMELESS) == ReceivePublishV5(c, NAMELESS.pub);
  }

  /** Publishing on a kept session, losing the connection, and coming back without keeping the session: the next
      close gives the identifier back and leaves its packet in the store. */
  lemma CloseForgets()
    ensures var c := Sends(Step(Publishes(Joined(V5_0, FRESH), ONE), OpClosed(ONE_ACK)).c, BRIEFLY).c;
      var d := Step(c, OpClosed(ONE_ACK)).c;
      d.session.store == [NOTE] && d.ids.used == {}
  {
    hide Joined, Publishes;
    JoinedIs(V5_0);
    assert !Has([], 1) && {} + {1} == {1} && [] + [NOTE] == [NOTE];
    PublishesIs(NO_IDS, [], FREE, 1);
    DownIs(AWAITING, [NOTE], FREE, ONE_ACK);
    var c := Client(V5_0, Disconnected, AWAITING, [NOTE], FREE);
    var d := c.(status := Connecting, session := c.session.(needStore := false));
    assert Sends(c, BRIEFLY).c == d;
    hide Sends;
    Drained(d);
  }

  lemma Drained(c: Conn)
    requires c.ids == AWAITING && !c.session.needStore
    ensures var d := Step(c, OpClosed(ONE_ACK)).c; d.ids.used == {} && d.session.store == c.session.store
  {
    hide Send, Receive;
    assert ONE_ACK.ack[1..] == [];
  }

  /** PUBREL for an identifier in use while the connection is down: stored, but not awaited. */
  lemma PubrelUnawaited()
    ensures var c := Sends(Step(Step(Joined(V5_0, FRESH), REGISTER).c, OpClosed(Acked([]))).c, PUBREL).c;
      Has(c.session.store, PUBREL.pid) && !InFlight(c.ids, PUBREL.pid)
  {
    hide Joined, Gets;
    JoinedIs(V5_0);
    var c := Client(V5_0, Connected, SOLE, [], FREE);
    assert {} + {1} == {1};
    assert Step(Client(V5_0, Connected, NO_IDS, [], FREE), REGISTER).c == c;
    var d := c.(status := Disconnected);
    DownIs(SOLE, [], FREE, Acked([]));
    hide Closed;
    assert Sends(d, PUBREL).c == SendPubrel(d, PUBREL).c;
    assert SendPubrel(d, PUBREL).c.session.store[0] == StoredPubrel(V5_0, 1, None, 2);
  }

  /** The first packet of a client on a new server. */
  lemma ConnectPanics()
    ensures Gets(New(Server, V5_0), NO_ALIAS).c.panicked
  {
  }

  // ---------------------------------------------------------------- v5.0: a binding the peer never hears of

  /** A client on a clean connection, with one alias and one message at a time, that took these messages. */
  function Bound(ids: Ids, m: AliasSend, count: nat): Conn {
    Client(V5_0, Connected, ids, [], FREE.(sendMax := Some(1), sendCount := count)).(
      session := Engine.Session(false, [], {}), alias := Aliases(Some(m), None))
  }

  function BoundClient(): Conn { Gets(Sends(Started(V5_0), PLAIN).c, ALIASED).c }

  lemma BoundClientIs()
    ensures BoundClient() == Bound(NO_IDS, TABLE, 0)
  {
    hide NewSend;
    var c := Sends(Started(V5_0), PLAIN).c;
    assert c == Client(V5_0, Connecting, NO_IDS, [], FREE).(session := Engine.Session(false, [], {}));
    assert ALIASED.props[1..] == [ReceiveMaximum(1)] && [ReceiveMaximum(1)][1..] == [];
  }

  /** The quota refuses the message that carries the binding. */
  function Unheard(): R {
    var c := Sends(Step(BoundClient(), REGISTER).c, PublishPacket(FIRST)).c;
    Sends(Step(c, REGISTER2).c, PublishPacket(BINDING))
  }

  lemma UnheardIs()
    ensures Unheard() == R(Bound(AWAITING.(puback := {1, 2}), InsertOrUpdate(TABLE, [98], 1), 1),
      [NotifyError(ReceiveMaximumExceeded), NotifyPacketIdReleased(2)])
  {
    hide BoundClient, Step, InsertOrUpdate, NewSend;
    BoundClientIs();
    FirstFills();
    SecondRefused();
  }

  lemma SecondRefused()
    ensures Sends(Step(Bound(AWAITING, TABLE, ONE), REGISTER2).c, PublishPacket(BINDING)) ==
      R(Bound(AWAITING.(puback := {1, 2}), InsertOrUpdate(TABLE, [98], 1), 1),
        [NotifyError(ReceiveMaximumExceeded), NotifyPacketIdReleased(2)])
  {
    hide InsertOrUpdate;
    var c := Bound(AWAITING.(used := {1, 2}), TABLE, 1);
    assert {1} + {2} - {2} == {1} && {1} + {2} == {1, 2};
    assert Step(Bound(AWAITING, TABLE, 1), REGISTER2).c == c;
    assert Sends(c, PublishPacket(BINDING)) == SendPublishV5(c, BINDING);
  }

  lemma FirstFills()
    ensures Sends(Step(Bound(NO_IDS, TABLE, 0), REGISTER).c, PublishPacket(FIRST)).c == Bound(AWAITING, TABLE, ONE)
  {
    hide FindByTopic, LruAlias, NewSend;
    var c := Bound(SOLE, TABLE, 0);
    assert {} + {1} == {1};
    assert Step(Bound(NO_IDS, TABLE, 0), REGISTER).c == c;
    assert Sends(c, PublishPacket(FIRST)) == SendPublishV5(c, FIRST);
  }

  /** The binding was recorded all the same: a message with the bare alias goes out, and any server that was not
      told what the alias stands for turns the connection down. */
  lemma BindingUnheard(s: Conn)
    requires IsV5(s) && s.alias.recv == Some(AliasRecv(1, map[])) && s.flow.maxRecv == NO_SIZE_LIMIT
    ensures var r := Sends(Unheard().c, PublishPacket(BARE));
      r.ev == [RequestSendPacket(PublishPacket(BARE), None)]
          && Gets(s, PublishPacket(BARE)) == Fail(s, TopicAliasInvalid)
  {
    hide Unheard, InsertOrUpdate, Fail;
    UnheardIs();
    InsertKeeps(TABLE, [98], 1);
    InsertTaken(TABLE, [98], 1);
    var c := Unheard().c;
    assert Peek(c.alias.send.value, 1).Some?;
    assert Sends(c, PublishPacket(BARE)) == SendPublishV5(c, BARE);
    assert Gets(s, PublishPacket(BARE)) == ReceivePublishV5(s, BARE);
    hide Touch, Wf;
  }

  // ---------------------------------------------------------------- a new session and the duplicate filter

  const GREET: Packet := Connect(false, 0, [], 12)
  const ANEW: Packet := Connect(true, 0, [], 12)

  /** A server takes a QoS 2 PUBLISH and loses the connection before the PUBREL. */
  function LeftOver(): Conn {
    var c := Gets(Sends(Gets(New(Server, V3_1_1), GREET).c, FRESH).c, PublishPacket(MESSAGE)).c;
    Step(c, OpClosed(Acked([]))).c
  }

  lemma LeftOverIs()
    ensures var c := LeftOver();
      c == Conn(c.opt, V3_1_1, Disconnected, NO_IDS, Engine.Session(true, [], {1}), c.alias, c.flow, c.timers, false)
      && c.opt.role.Server? && c.flow.maxRecv == NO_SIZE_LIMIT && c.timers.recvTimeoutMs == 0 && !c.opt.autoPub
  {
    var c := Gets(New(Server, V3_1_1), GREET).c;
    assert c == New(Server, V3_1_1).(status := Connecting, session := Engine.Session(true, [], {}));
    assert Resend(c.(status := Connected), []).c == c.(status := Connected)
        && Sendable(c.(status := Connected), []) == [];
    var d := Sends(c, FRESH).c;
    assert d == c.(status := Connected);
  }

  /** Then comes a clean CONNECT: in the new session the next message under that identifier never reaches the host. */
  lemma NewSessionSwallows()
    ensures Gets(Gets(LeftOver(), ANEW).c, PublishPacket(MESSAGE)).ev == []
  {
    hide LeftOver;
    LeftOverIs();
  }
}
