/** Where every packet identifier stands after every call, in both versions and from any state: in use or free, awaited
    in which exchange, and which packet is stored under it. */
module Holdings {
  import opened Packets
  import opened TopicAlias
  import opened Store
  import opened Engine
  import opened Frames
  import opened Receptions
  import opened Settings
  import opened Sendings

  datatype Place = Place(used: bool, ack: bool, rec: bool, comp: bool, sub: bool, unsub: bool,
                         stored: Option<StorePacket>)

  function PlaceOf(c: Conn, i: nat): Place {
    Place(i in c.ids.used, i in c.ids.puback, i in c.ids.pubrec, i in c.ids.pubcomp, i in c.ids.suback,
          i in c.ids.unsuback, Find(c.session.store, i))
  }

  /** A stored packet that waits for this kind of acknowledgement in this version. */
  predicate Due(s: StorePacket, v: Version, kind: ResponseKind) {
    match s
    case StoredPublish(w, p) => w == v && kind == if p.qos == AtLeastOnce then AwaitPuback else AwaitPubrec
    case StoredPubrel(w, _, _, _) => w == v && kind == AwaitPubcomp
  }

  function Settled(t: Place, v: Version, kind: ResponseKind): Place {
    if t.stored.Some? && Due(t.stored.value, v, kind) then t.(stored := None) else t
  }

  /** A new packet is stored unless the identifier has one. */
  function Adding(t: Place, s: StorePacket): Place { if t.stored.Some? then t else t.(stored := Some(s)) }

  /** A stored packet of more than `room` bytes is dropped when the store is resent, and its identifier freed. */
  function Resumed(t: Place, room: nat): Place {
    if t.stored.Some? && Size(t.stored.value.version, ToPacket(t.stored.value)) > room
    then t.(used := false, stored := None) else t
  }

  // ---------------------------------------------------------------- the store

  lemma {:induction false} FindErased(s: seq<StorePacket>, r: Response, id: nat)
    requires Distinct(s)
    ensures Find(Erase(s, r, id), id) ==
      if Find(s, id).Some? && Due(Find(s, id).value, r.version, r.kind) then None else Find(s, id)
  {
    if s != [] {
      if IdOf(s[0]) != id {
        FindErased(s[1..], r, id);
        assert Erase(s, r, id)[1..] == Erase(s[1..], r, id);
      } else if ResponseOf(s[0]) == r {
        FindHas(s[1..], id);
      }
    }
  }

  lemma {:induction false} FindSendable(c: Conn, s: seq<StorePacket>, i: nat)
    requires Distinct(s)
    ensures Find(Sendable(c, s), i) == if Find(s, i).Some? && !Fits(c, Find(s, i).value) then None else Find(s, i)
  {
    if s != [] {
      FindSendable(c, s[1..], i);
      if IdOf(s[0]) == i { FindHas(s[1..], i); }
      if Fits(c, s[0]) { assert Sendable(c, s)[1..] == Sendable(c, s[1..]); }
      hide Fits;
    }
  }

  lemma StoreResumed(c: Conn, i: nat)
    requires InRange(i) && Distinct(c.session.store)
    ensures PlaceOf(SendStored(c).c, i) == Resumed(PlaceOf(c, i), c.flow.maxSend)
  {
    var s := c.session.store;
    SendStoredMoves(c);
    ResendMoves(c, s, i);
    FindSendable(c, s, i);
    FindHas(s, i);
    if k :| 0 <= k < |s| && IdOf(s[k]) == i && !Fits(c, s[k]) {
      var j :| 0 <= j < |s| && s[j] == Find(s, i).value;
      assert j == k;
    }
    if Find(s, i).Some? {
      var j :| 0 <= j < |s| && s[j] == Find(s, i).value;
    }
    hide Resend, Sendable, Find, Distinct;
  }

  // ---------------------------------------------------------------- sending

  /** A QoS 1 or 2 PUBLISH that is let in: awaited and, if there is a session to keep, stored, by v5.0 with its topic
      and without alias. */
  function Held(c: Conn, p: Publish, t: Place): Place {
    var u := if p.qos == ExactlyOnce then t.(rec := true) else t.(ack := true);
    if !c.session.needStore || (c.status == Disconnected && !c.opt.offlinePublish) then u
    else if c.version != V5_0 then Adding(u, StoredPublish(V3_1_1, p.(dup := true)))
    else if p.topic == [] && HasWildcard(StoredTopic(c, p)) then u
    else Adding(u, StoredPublish(V5_0, p.(topic := StoredTopic(c, p), alias := None, dup := true)))
  }

  /** What is turned away for its alias or the quota stays held, but its identifier is given back. A bare alias that
      stands for nothing is noticed before that, if the packet is to be stored. */
  function Issued(c: Conn, p: Publish, t: Place): Place {
    if p.qos == AtMostOnce then t
    else match Barred(c, p) {
      case None => Held(c, p, t)
      case Some(PacketNotAllowedToSend) =>
        if (c.status != Connected && !c.session.needStore && !c.opt.offlinePublish) || Unresolved(c, p)
        then t.(used := false) else Held(c, p, t).(used := false)
      case Some(ReceiveMaximumExceeded) => Held(c, p, t).(used := false)
      case Some(_) => t
    }
  }

  /** A PUBREL is awaited if it goes out, and stored if there is a session to keep. */
  function Releasing(c: Conn, p: Packet, t: Place): Place
    requires p.Pubrel?
  {
    var size := Size(c.version, p);
    if (c.version == V5_0 && size > c.flow.maxSend) || (c.status != Connected && !c.session.needStore) || !t.used then t
    else
      var u := if c.session.needStore then Adding(t, StoredPubrel(c.version, p.pid, p.rc, p.rem)) else t;
      u.(comp := u.comp || c.status == Connected)
  }

  /** A request is awaited if it goes out; without connection its identifier is given back. */
  function Asked(c: Conn, p: Packet, t: Place): Place
    requires IsRequest(p)
  {
    if c.version == V5_0 && Size(c.version, p) > c.flow.maxSend then t
    else if c.status != Connected then t.(used := false)
    else if !t.used then t
    else if p.Subscribe? then t.(sub := true) else t.(unsub := true)
  }

  /** CONNECT ends the requests, and with the clean flag every exchange. */
  function Begun(p: Packet, t: Place): Place
    requires p.Connect?
  {
    if p.clean then Place(false, false, false, false, false, false, None) else t.(sub := false, unsub := false)
  }

  function AfterSend(c: Conn, p: Packet, i: nat): Place {
    var t := PlaceOf(c, i);
    match p
    case Connect(_, _, _, _) => if c.status != Disconnected || TooLarge(c, p) then t else Begun(p, t)
    case Connack(ok, _, _, _) =>
      if c.status != Connecting || TooLarge(c, p) || !ok then t else Resumed(t, c.flow.maxSend)
    case PublishPacket(pub) => if pub.pid == i then Issued(c, pub, t) else t
    case Pubrel(id, _, _) => if id == i then Releasing(c, p, t) else t
    case Subscribe(id, _) => if id == i then Asked(c, p, t) else t
    case Unsubscribe(id, _) => if id == i then Asked(c, p, t) else t
    case _ => t
  }

  lemma PublishPlace(c: Conn, p: Publish, i: nat)
    requires InRange(i)
    ensures PlaceOf(SendPublish(c, p).c, i) ==
      if p.pid == i then Issued(c, p, PlaceOf(c, i)) else PlaceOf(c, i)
  {
    if IsV5(c) { PublishPlaceV5(c, p, i); } else { PublishPlaceV3(c, p, i); }
    hide SendPublishV3, SendPublishV5;
  }

  lemma SentPlace(c: Conn, p: Packet, release: Option<nat>, i: nat)
    ensures PlaceOf(SendNow(c, p, release).c, i) == PlaceOf(c, i) && PlaceOf(PostSend(c).c, i) == PlaceOf(c, i)
  {
    hide Find;
  }

  lemma RefusedPlace(c: Conn, e: MqttError, id: nat, i: nat)
    requires InRange(i)
    ensures PlaceOf(RefuseAndRelease(c, e, id).c, i) ==
      if id == i then PlaceOf(c, i).(used := false) else PlaceOf(c, i)
  {
    hide Find;
  }

  lemma KeptPlace(c: Conn, s: StorePacket, i: nat)
    ensures PlaceOf(Keep(c, s), i) == if IdOf(s) == i then Adding(PlaceOf(c, i), s) else PlaceOf(c, i)
  {
    hide Find, Has;
    FindAppend(c.session.store, s, i);
    FindHas(c.session.store, IdOf(s));
  }

  lemma AwaitedPlace(c: Conn, p: Publish, i: nat)
    ensures var t := PlaceOf(c, i);
      PlaceOf(Await(c, p), i) ==
        if p.pid != i then t else if p.qos == ExactlyOnce then t.(rec := true) else t.(ack := true)
  {
    hide Find;
  }

  lemma PublishPlaceV3(c: Conn, p: Publish, i: nat)
    requires InRange(i) && !IsV5(c)
    ensures PlaceOf(SendPublishV3(c, p).c, i) ==
      if p.pid == i then Issued(c, p, PlaceOf(c, i)) else PlaceOf(c, i)
  {
    var c2 := Await(if Stores(c) then Keep(c, StoredPublish(V3_1_1, p.(dup := true))) else c, p);
    hide PlaceOf, Held, SendNow, RefuseAndRelease, Keep, Await;
    SameUse(c, p, i);
    SentPlace(c, PublishPacket(p), None, i);
    RefusedPlace(c, PacketNotAllowedToSend, p.pid, i);
    if !p.qos.AtMostOnce? { HeldPlace(c, p, i); }
    SentPlace(c2, PublishPacket(p), if Stores(c) then None else Some(p.pid), i);
  }

  lemma HeldPlace(c: Conn, p: Publish, i: nat)
    requires !IsV5(c) && !p.qos.AtMostOnce?
    ensures PlaceOf(Await(if Stores(c) then Keep(c, StoredPublish(V3_1_1, p.(dup := true))) else c, p), i) ==
      if p.pid == i then Held(c, p, PlaceOf(c, i)) else PlaceOf(c, i)
  {
    var s := StoredPublish(V3_1_1, p.(dup := true));
    hide PlaceOf, Keep, Await, StoredTopic;
    KeptPlace(c, s, i);
    AwaitedPlace(if Stores(c) then Keep(c, s) else c, p, i);
  }

  lemma PassesPlace(c: Conn, d: Conn, used: set<nat>, count: nat, i: nat)
    requires Passes(c, d, used, count)
    ensures PlaceOf(d, i) == PlaceOf(c, i).(used := i in used)
  {
    hide Find;
  }

  lemma TakenPlace(c: Conn, p: Publish, i: nat)
    requires IsV5(c) && !p.qos.AtMostOnce? && !Unresolved(c, p)
    ensures PlaceOf(Taken(c, p), i) == if p.pid == i then Held(c, p, PlaceOf(c, i)) else PlaceOf(c, i)
  {
    hide Find, Has, BadAlias, StoredTopic, Await, HasWildcard;
    var d := if Kept(c, p) then c.(session := c.session.(store := c.session.store + [ForStore(c, p)])) else c;
    FindAppend(c.session.store, ForStore(c, p), i);
    FindHas(c.session.store, p.pid);
    AwaitedPlace(d, p, i);
  }

  lemma PublishPlaceV5(c: Conn, p: Publish, i: nat)
    requires InRange(i) && IsV5(c)
    ensures PlaceOf(SendPublishV5(c, p).c, i) ==
      if p.pid == i then Issued(c, p, PlaceOf(c, i)) else PlaceOf(c, i)
  {
    hide SendPublishV5, Passes, PlaceOf, Held, BadAlias, Taken;
    var d := SendPublishV5(c, p).c;
    if p.qos.AtMostOnce? {
      QuietlySent(c, p);
      PassesPlace(c, d, c.ids.used, c.flow.sendCount, i);
      SameUse(c, p, i);
    } else {
      PublishPasses(c, p);
      SameUse(c, p, i);
      if !Admitted(c, p) || Unresolved(c, p) {
        var used := if TooLarge(c, PublishPacket(p)) || (MayPublish(c) && !IsUsed(c, p.pid)) then c.ids.used
                    else Minus(c, p);
        PassesPlace(c, d, used, c.flow.sendCount, i);
      } else {
        TakenPlace(c, p, i);
        if TurnedAway(c, p) {
          PassesPlace(Taken(c, p), d, Minus(c, p), c.flow.sendCount, i);
        } else {
          PassesPlace(Taken(c, p), d, c.ids.used, OneMore(c), i);
        }
      }
    }
  }

  lemma SameUse(c: Conn, p: Publish, i: nat)
    ensures PlaceOf(c, i).used <==> i in c.ids.used
    ensures Held(c, p, PlaceOf(c, i)).used <==> i in c.ids.used
  {
    hide StoredTopic;
  }

  lemma PubrelPlace(c: Conn, p: Packet, i: nat)
    requires InRange(i) && p.Pubrel?
    ensures PlaceOf(SendPubrel(c, p).c, i) == if p.pid == i then Releasing(c, p, PlaceOf(c, i)) else PlaceOf(c, i)
  {
    hide Find, Keep, SendNow, PostSend;
    var s := StoredPubrel(c.version, p.pid, p.rc, p.rem);
    var d := if c.session.needStore then Keep(c, s) else c;
    KeptPlace(c, s, i);
    SentPlace(d, p, None, i);
    SentPlace(d.(ids := d.ids.(pubcomp := d.ids.pubcomp + {p.pid})), p, None, i);
  }

  lemma RequestPlace(c: Conn, p: Packet, i: nat)
    requires InRange(i) && IsRequest(p)
    ensures PlaceOf(SendRequest(c, p).c, i) == if p.pid == i then Asked(c, p, PlaceOf(c, i)) else PlaceOf(c, i)
  {
    hide Find, SendNow, RefuseAndRelease;
    RefusedPlace(c, PacketNotAllowedToSend, p.pid, i);
    var ids := if p.Subscribe? then c.ids.(suback := c.ids.suback + {p.pid})
               else c.ids.(unsuback := c.ids.unsuback + {p.pid});
    SentPlace(c.(ids := ids), p, Some(p.pid), i);
  }

  lemma BegunPlace(c: Conn, p: Packet, i: nat)
    requires p.Connect?
    ensures PlaceOf(Greeting(c, p), i) == Begun(p, PlaceOf(c, i))
    ensures PlaceOf(Welcomed(c, p), i) == Begun(p, PlaceOf(c, i))
  {
    GreetMoves(c, p);
    hide Greeting, Welcomed;
  }

  lemma ConnackSentPlace(c: Conn, p: Packet, i: nat)
    requires InRange(i) && p.Connack? && Distinct(c.session.store)
    ensures PlaceOf(SendConnack(c, p).c, i) == AfterSend(c, p, i)
  {
    hide ApplySentProps, SendStored, Find, TooLarge, Resumed;
    var r := if IsV5(c) then ApplySentProps(c, p.props, false) else R(c, []);
    SentPropsMove(c, p.props, false);
    StoreResumed(r.c.(status := Connected), i);
  }

  lemma CalmPlace(c: Conn, d: Conn, i: nat)
    requires Calm(c, d)
    ensures PlaceOf(d, i) == PlaceOf(c, i)
  {
  }

  lemma DispatchPlace(c: Conn, p: Packet, i: nat)
    requires InRange(i) && Distinct(c.session.store)
    ensures PlaceOf(Dispatch(c, p).c, i) == AfterSend(c, p, i)
  {
    if p.Connect? {
      BegunPlace(c, p, i);
      hide Greeting, TooLarge, Begun, Find;
    } else if p.Connack? {
      ConnackSentPlace(c, p, i);
      hide SendConnack, AfterSend;
    } else if p.PublishPacket? {
      PublishPlace(c, p.pub, i);
      hide SendPublish, Issued;
    } else if p.Pubrel? {
      PubrelPlace(c, p, i);
      hide SendPubrel, Releasing;
    } else if IsRequest(p) {
      RequestPlace(c, p, i);
      hide SendRequest, Asked;
    } else {
      DispatchCalm(c, p);
      CalmPlace(c, Dispatch(c, p).c, i);
      hide Dispatch, Calm;
    }
  }

  // ---------------------------------------------------------------- receiving

  /** The most the connection may send once the CONNACK has been taken up. */
  function Room(c: Conn, p: Packet): nat
    requires p.Connack?
  {
    if c.version == V5_0 then OrElse(Last(p.props, KSize, false), c.flow.maxSend) else c.flow.maxSend
  }

  /** An acknowledgement that is expected ends its exchange; a PUBREC without error opens the second half instead, in
      which an automatic PUBREL of four bytes is sent, awaited and, if there is a session to keep, stored. */
  function AfterReceive(c: Conn, p: Packet, i: nat): Place {
    var t := PlaceOf(c, i);
    match p
    case Connect(_, _, _, _) => if c.status == Disconnected then Begun(p, t) else t
    case Connack(ok, present, _, _) =>
      if !ok then t
      else if present then Resumed(t, Room(c, p))
      else Place(false, false, false, false, t.sub, t.unsub, None)
    case Puback(id, _, _) =>
      if id != i || !t.ack then t else Settled(t.(used := false, ack := false), c.version, AwaitPuback)
    case Pubrec(id, rc, _) =>
      if id != i || !t.rec then t
      else
        var u := Settled(t.(rec := false), c.version, AwaitPubrec);
        if c.version == V5_0 && rc.Some? && rc.value != 0 then u.(used := false)
        else if !c.opt.autoPub || c.status != Connected || !t.used || (c.version == V5_0 && c.flow.maxSend < 4) then u
        else
          (if c.session.needStore then Adding(u, StoredPubrel(c.version, i, None, 2)) else u).(comp := true)
    case Pubcomp(id, _, _) =>
      if id != i || !t.comp then t else Settled(t.(used := false, comp := false), c.version, AwaitPubcomp)
    case Suback(id, _) => if id != i || !t.sub then t else t.(used := false, sub := false)
    case Unsuback(id, _) => if id != i || !t.unsub then t else t.(used := false, unsub := false)
    case _ => t
  }

  lemma FailPlace(c: Conn, e: MqttError, i: nat)
    ensures PlaceOf(Fail(c, e).c, i) == PlaceOf(c, i)
  {
    FailCalm(c, e);
    hide Fail;
  }

  lemma FinishPlace(c: Conn, id: nat, p: Packet, counted: bool, i: nat)
    requires InRange(i)
    ensures var t := PlaceOf(c, i);
      PlaceOf(Finish(c, id, p, counted).c, i) == if id == i then t.(used := false) else t
  {
    FinishMoves(c, id, p, counted);
    hide Finish, Find;
  }

  lemma SettledPlace(c: Conn, kind: ResponseKind, id: nat, i: nat)
    requires Distinct(c.session.store)
    ensures var s := c.session.store;
      PlaceOf(c.(session := c.session.(store := Erase(s, Response(c.version, kind), id))), i) ==
        if id == i then Settled(PlaceOf(c, i), c.version, kind) else PlaceOf(c, i)
  {
    if id == i { FindErased(c.session.store, Response(c.version, kind), i); }
    else { FindErase(c.session.store, Response(c.version, kind), id, i); }
    hide Erase, Find, Due;
  }

  lemma AckPlace(c: Conn, p: Packet, i: nat)
    requires InRange(i) && Distinct(c.session.store) && (p.Puback? || p.Pubcomp?)
    ensures PlaceOf(ReceivePacket(c, p).c, i) == AfterReceive(c, p, i)
  {
    hide Fail, Erase, Finish, Settled, Distinct;
    FailPlace(c, ProtocolError, i);
    var kind := if p.Puback? then AwaitPuback else AwaitPubcomp;
    var ids := if p.Puback? then c.ids.(puback := c.ids.puback - {p.pid})
               else c.ids.(pubcomp := c.ids.pubcomp - {p.pid});
    var d := c.(ids := ids);
    SettledPlace(d, kind, p.pid, i);
    FinishPlace(d.(session := d.session.(store := Erase(c.session.store, Response(c.version, kind), p.pid))), p.pid, p,
        true, i);
    SettledKeeps(PlaceOf(d, i), c.version, kind);
    SettledFree(PlaceOf(d, i), c.version, kind);
    hide Find;
  }

  lemma SettledFree(t: Place, v: Version, kind: ResponseKind)
    ensures Settled(t.(used := false), v, kind) == Settled(t, v, kind).(used := false)
  {
  }

  lemma RequestAckPlace(c: Conn, p: Packet, i: nat)
    requires InRange(i) && (p.Suback? || p.Unsuback?)
    ensures PlaceOf(ReceivePacket(c, p).c, i) == AfterReceive(c, p, i)
  {
    hide Fail, Finish, Find;
    FailPlace(c, ProtocolError, i);
    match p {
      case Suback(id, _) => FinishPlace(c.(ids := c.ids.(suback := c.ids.suback - {id})), id, p, false, i);
      case Unsuback(id, _) => FinishPlace(c.(ids := c.ids.(unsuback := c.ids.unsuback - {id})), id, p, false, i);
    }
  }

  lemma PubrecPlace(c: Conn, p: Packet, i: nat)
    requires InRange(i) && Distinct(c.session.store) && p.Pubrec?
    ensures PlaceOf(ReceivePubrec(c, p).c, i) == AfterReceive(c, p, i)
  {
    hide Fail, Erase, SendPubrel, Finish, Deliver, PlaceOf, Settled, Distinct, Releasing;
    var t := PlaceOf(c, i);
    FailPlace(c, ProtocolError, i);
    ClearedPlace(c, p.pid, i);
    var d := c.(ids := c.ids.(pubrec := c.ids.pubrec - {p.pid}));
    var c1 := d.(session := d.session.(store := Erase(c.session.store, Response(c.version, AwaitPubrec), p.pid)));
    FinishPlace(c1, p.pid, p, true, i);
    var r := if c.opt.autoPub && IsConnected(c) then SendPubrel(c1, Pubrel(p.pid, None, 2)) else R(c1, []);
    PubrelPlace(c1, Pubrel(p.pid, None, 2), i);
    if IsConnected(c) { AutoReleased(c, c1, i); }
    DeliverPlace(r.c, p, i);
    SettledKeeps(t.(rec := false), c.version, AwaitPubrec);
  }

  lemma ClearedPlace(c: Conn, id: nat, i: nat)
    requires Distinct(c.session.store)
    ensures var st := Erase(c.session.store, Response(c.version, AwaitPubrec), id);
      PlaceOf(c.(ids := c.ids.(pubrec := c.ids.pubrec - {id}), session := c.session.(store := st)), i) ==
        if id == i then Settled(PlaceOf(c, i).(rec := false), c.version, AwaitPubrec) else PlaceOf(c, i)
    ensures i in c.ids.pubrec <==> PlaceOf(c, i).rec
  {
    SettledPlace(c.(ids := c.ids.(pubrec := c.ids.pubrec - {id})), AwaitPubrec, id, i);
    hide Erase, Find, Settled;
  }

  /** The automatic PUBREL. */
  lemma AutoReleased(c: Conn, d: Conn, i: nat)
    requires d == c.(ids := d.ids, session := c.session.(store := d.session.store))
    requires IsConnected(c)
    ensures var t := PlaceOf(d, i);
      Releasing(d, Pubrel(i, None, 2), t) ==
        if !t.used || (c.version == V5_0 && c.flow.maxSend < 4) then t
        else (if c.session.needStore then Adding(t, StoredPubrel(c.version, i, None, 2)) else t).(comp := true)
  {
    hide Find;
  }

  lemma SettledKeeps(t: Place, v: Version, kind: ResponseKind)
    ensures Settled(t, v, kind).used == t.used
    ensures Settled(t, v, kind) == t.(stored := Settled(t, v, kind).stored)
  {
  }

  lemma DeliverPlace(c: Conn, p: Packet, i: nat)
    ensures PlaceOf(Deliver(c, p).c, i) == PlaceOf(c, i)
  {
    hide Find;
  }

  lemma ConnackPlace(c: Conn, p: Packet, i: nat)
    requires InRange(i) && Distinct(c.session.store) && p.Connack?
    ensures PlaceOf(ReceiveConnack(c, p).c, i) == AfterReceive(c, p, i)
  {
    hide ApplyReceivedProps, SendStored, Find, Last, Resumed;
    if p.accepted {
      InformedMoves(c, p);
      PropsHeeded(c.(status := Connected), p.props, false);
      StoreResumed(Informed(c, p), i);
      assert Find([], i) == None by { EmptyStore(i); }
    }
  }

  lemma EmptyStore(i: nat)
    ensures Find([], i) == None
  {
  }

  lemma PacketPlace(c: Conn, p: Packet, i: nat)
    requires InRange(i) && Distinct(c.session.store)
    ensures PlaceOf(ReceivePacket(c, p).c, i) == AfterReceive(c, p, i)
  {
    if p.Connect? {
      BegunPlace(c, p, i);
      FailPlace(c, ProtocolError, i);
      hide Welcomed, Begun, Fail, Find;
    } else if p.Connack? {
      ConnackPlace(c, p, i);
      hide ReceiveConnack, AfterReceive;
    } else if p.Puback? || p.Pubcomp? {
      AckPlace(c, p, i);
      hide ReceivePacket, AfterReceive;
    } else if p.Suback? || p.Unsuback? {
      RequestAckPlace(c, p, i);
      hide ReceivePacket, AfterReceive;
    } else if p.Pubrec? {
      PubrecPlace(c, p, i);
      hide ReceivePubrec, AfterReceive;
    } else {
      ReceiveCalm(c, p);
      CalmPlace(c, ReceivePacket(c, p).c, i);
      hide ReceivePacket, Calm;
    }
  }

  // ---------------------------------------------------------------- every call

  /** A close gives back the identifiers of requests, and those of exchanges if the session is not kept. */
  function Left(c: Conn, t: Place): Place {
    var keep := c.session.needStore;
    Place(t.used && !t.sub && !t.unsub && (keep || (!t.ack && !t.rec && !t.comp)),
          t.ack && keep, t.rec && keep, t.comp && keep, false, false, t.stored)
  }

  /** A packet of a saved session is awaited, and stored if its identifier was free. */
  function Readmitted(t: Place, p: StorePacket): Place {
    if p.StoredPublish? && p.pub.qos == AtMostOnce then t
    else
      var u := if p.StoredPubrel? then t.(comp := true)
               else if p.pub.qos == ExactlyOnce then t.(rec := true) else t.(ack := true);
      if t.used then u else Adding(u.(used := true), p)
  }

  function Restored(t: Place, ps: seq<StorePacket>, i: nat): Place
    decreases |ps|
  {
    if ps == [] then t else Restored(if IdOf(ps[0]) == i then Readmitted(t, ps[0]) else t, ps[1..], i)
  }

  function Destined(c: Conn, op: Op, i: nat): Place {
    var t := PlaceOf(c, i);
    match op
    case OpSend(v, p) =>
      if v == Undetermined || c.version != v || (p.Auth? && v != V5_0) || !RoleMaySend(c.opt.role, v, p) then t
      else AfterSend(c, p, i)
    case OpReceive(f) => if f.Good? && Arrives(c, f) then AfterReceive(Speaking(c, f), f.packet, i) else t
    case OpClosed(_) => Left(c, t)
    case OpAcquire => t.(used := t.used || (forall k :: 1 <= k < i ==> k in c.ids.used))
    case OpRegister(id) => t.(used := t.used || id == i)
    case OpRelease(id) => t.(used := t.used && id != i)
    case OpRestorePackets(ps) => Restored(t, ps, i)
    case _ => t
  }

  lemma {:induction false} LeastIs(used: set<nat>, from: nat, i: nat)
    requires from <= i && InRange(i) && i !in used
    ensures LeastFree(used, from) == Some(i) <==> forall k :: from <= k < i ==> k in used
    decreases MAX_ID + 1 - from
  {
    if from < i && from in used { LeastIs(used, from + 1, i); }
    if from < i && from !in used { assert !(from in used); }
  }

  lemma ClosedPlace(c: Conn, o: DrainOrder, i: nat)
    requires InRange(i) && DrainOk(c, o)
    ensures PlaceOf(Closed(c, o).c, i) == Left(c, PlaceOf(c, i))
  {
    ClosedMoves(c, o);
    hide Closed, Find;
  }

  /** Every call leaves every identifier exactly where the protocol has it. */
  lemma StepPlaces(c: Conn, op: Op, i: nat)
    requires InRange(i) && Distinct(c.session.store) && Legal(c, op)
    ensures PlaceOf(Step(c, op).c, i) == Destined(c, op, i)
  {
    hide Send, Receive, Closed, TimerFired, RestorePackets, LeastFree, PlaceOf, AfterSend, AfterReceive;
    match op
    case OpSend(v, p) => SendPlace(c, v, p, i); hide Destined;
    case OpReceive(f) => ReceivePlace(c, f, i); hide Destined;
    case OpTimer(k) => TimerCalm(c, k); CalmPlace(c, TimerFired(c, k).c, i);
    case OpClosed(o) => ClosedPlace(c, o, i);
    case OpRestorePackets(ps) => RestoredPlace(c, ps, i);
    case OpAcquire => AcquiredPlace(c, i); hide Destined;
    case _ => PlainPlace(c, op, i); hide Destined;
  }

  lemma PlainPlace(c: Conn, op: Op, i: nat)
    requires InRange(i) && !op.OpSend? && !op.OpReceive?
    requires !op.OpTimer? && !op.OpClosed? && !op.OpAcquire? && !op.OpRestorePackets?
    ensures PlaceOf(Step(c, op).c, i) == Destined(c, op, i)
  {
    hide Find, LeastFree, Send, Receive, TimerFired, Closed, RestorePackets;
  }

  lemma AcquiredPlace(c: Conn, i: nat)
    requires InRange(i)
    ensures PlaceOf(Step(c, OpAcquire).c, i) == Destined(c, OpAcquire, i)
  {
    hide Find;
    if i !in c.ids.used { LeastIs(c.ids.used, 1, i); }
    hide LeastFree;
  }

  lemma RestoredOne(c: Conn, p: StorePacket, i: nat)
    requires InRange(i)
    ensures PlaceOf(RestoreOne(c, p), i) == if IdOf(p) == i then Readmitted(PlaceOf(c, i), p) else PlaceOf(c, i)
  {
    hide PlaceOf, Has, Await, Register;
    if p.StoredPubrel? {
      var d := c.(ids := c.ids.(pubcomp := c.ids.pubcomp + {p.pid}));
      ReleasedPlace(c, p.pid, i);
      RegisteredPlace(d, p, i);
    } else {
      AwaitedPlace(c, p.pub, i);
      RegisteredPlace(Await(c, p.pub), p, i);
    }
  }

  lemma ReleasedPlace(c: Conn, id: nat, i: nat)
    ensures PlaceOf(c.(ids := c.ids.(pubcomp := c.ids.pubcomp + {id})), i) ==
      if id == i then PlaceOf(c, i).(comp := true) else PlaceOf(c, i)
  {
    hide Find;
  }

  lemma RegisteredPlace(c: Conn, p: StorePacket, i: nat)
    requires InRange(i)
    ensures var (d, ok) := Register(c, IdOf(p));
      var t := PlaceOf(c, i);
      PlaceOf(if ok && !Has(d.session.store, IdOf(p)) then d.(session := d.session.(store := d.session.store + [p]))
              else d, i) == if IdOf(p) != i || t.used then t else Adding(t.(used := true), p)
  {
    hide Find, Has;
    FindAppend(c.session.store, p, i);
    FindHas(c.session.store, IdOf(p));
  }

  lemma {:induction false} RestoredPlace(c: Conn, ps: seq<StorePacket>, i: nat)
    requires InRange(i)
    ensures PlaceOf(RestorePackets(c, ps), i) == Restored(PlaceOf(c, i), ps, i)
    decreases |ps|
  {
    hide RestoreOne, Readmitted, PlaceOf;
    if ps != [] {
      RestoredOne(c, ps[0], i);
      RestoredPlace(RestoreOne(c, ps[0]), ps[1..], i);
    }
  }

  lemma SendPlace(c: Conn, v: Version, p: Packet, i: nat)
    requires InRange(i) && Distinct(c.session.store)
    ensures PlaceOf(Send(c, v, p).c, i) == Destined(c, OpSend(v, p), i)
  {
    hide Dispatch, AfterSend, Find;
    DispatchPlace(c, p, i);
  }

  lemma ReceivePlace(c: Conn, f: Frame, i: nat)
    requires InRange(i) && Distinct(c.session.store)
    ensures PlaceOf(Receive(c, f).c, i) == Destined(c, OpReceive(f), i)
  {
    hide ReceivePacket, AfterReceive, Find;
    if f.Good? && Arrives(c, f) {
      PacketPlace(Speaking(c, f), f.packet, i);
    } else {
      UnreadCalm(c, f);
      hide Receive;
    }
  }
}
