/** The alias map of a v5.0 sender and that of its receiver: after any sequence of publishes delivered
    in order they agree, and every packet is understood as the topic the sender meant, exactly as long
    as no publish binds an alias without the topic going out. */
module AliasAgreement {
  import opened Packets
  import opened TopicAlias
  import opened Store
  import opened Engine
  import opened Traffic
  import opened Handshake
  import Frames

  /** The topic a receiver reads a packet as. */
  function Resolved(r: AliasRecv, q: Publish): Option<Topic> {
    match q.alias
    case None => if q.topic == [] then None else Some(q.topic)
    case Some(a) =>
      if !(1 <= a <= r.max) then None
      else if q.topic != [] then Some(q.topic)
      else match RecvGet(r, a) case Some(t) => if HasWildcard(t) then None else Some(t) case None => None
  }

  /** The alias map of a receiver after a packet. */
  function Learned(r: AliasRecv, q: Publish): AliasRecv {
    if q.topic != [] && q.alias.Some? && 1 <= q.alias.value <= r.max
    then r.(aliases := r.aliases[q.alias.value := q.topic]) else r
  }

  /** Reception follows the two functions above: a packet is accepted under its resolved topic, and a
      packet that does not resolve is a Topic Alias Invalid error. */
  lemma ReceptionResolves(c: Conn, q: Publish, respond: bool, again: bool)
    requires c.alias.recv.Some?
    ensures var r := c.alias.recv.value;
      ReceiveTopic(c, q, respond, again) ==
        match Resolved(r, q) {
          case None => Fail(c, TopicAliasInvalid)
          case Some(t) =>
            AcceptPublish(c.(alias := c.alias.(recv := Some(Learned(r, q)))),
                          if q.topic == [] then q.(topic := t, extracted := true) else q, respond, again)
        }
  {
  }

  /** Both ends stand for the same map. */
  ghost predicate Agree(m: AliasSend, r: AliasRecv) {
    && m.max == r.max
    && forall a :: Lookup(m.entries, a) == if a in r.aliases then Some(r.aliases[a]) else None
  }

  /** The topic a publish is meant for. */
  function Meant(m: AliasSend, p: Publish): Option<Topic> {
    if p.topic != [] then Some(p.topic) else if p.alias.Some? then Peek(m, p.alias.value) else None
  }

  /** No topic the sender knows has a wildcard in it; packets are never built with one. */
  ghost predicate Plain(m: AliasSend) {
    forall a :: Lookup(m.entries, a).Some? ==> !HasWildcard(Lookup(m.entries, a).value)
  }

  // ---------------------------------------------------------------- one publish

  /** The checks made before any alias is looked at. */
  predicate Reaches(c: Conn, p: Publish) {
    !TooLarge(c, PublishPacket(p)) && (p.qos.AtMostOnce? || IsUsed(c, p.pid))
  }

  predicate OverQuota(c: Conn, p: Publish) { !p.qos.AtMostOnce? && Frames.QuotaFull(c) }

  /** Automatic mapping picks a new alias: the packet goes out with the alias and without the topic. */
  predicate MapsNew(c: Conn, m: AliasSend, p: Publish) {
    c.opt.autoMap && p.topic != [] && p.alias.None? && FindByTopic(m, p.topic).None?
  }

  /** A new binding is recorded and then the quota refuses the packet. */
  predicate BindsUnsent(c: Conn, m: AliasSend, p: Publish) {
    p.topic != [] && p.alias.Some? && 1 <= p.alias.value <= m.max && OverQuota(c, p)
        && Peek(m, p.alias.value) != Some(p.topic)
  }

  /** The packet under which a publish goes out. */
  function Encoded(c: Conn, m: AliasSend, p: Publish): Publish {
    if p.topic != [] && p.alias.None? && (c.opt.autoMap || c.opt.autoReplace) then
      match FindByTopic(m, p.topic)
      case Some(a) => ByAlias(p, a)
      case None => if c.opt.autoMap then ByAlias(p, LruAlias(m)) else p
    else p
  }

  /** The alias map of the sender after a publish that reaches it. */
  function Bound(c: Conn, m: AliasSend, p: Publish): AliasSend {
    if p.topic == [] then (if p.alias.Some? then Touch(m, p.alias.value) else m)
    else if p.alias.Some? then
      if 1 <= p.alias.value <= m.max then InsertOrUpdate(m, p.topic, p.alias.value) else m
    else if c.opt.autoMap && FindByTopic(m, p.topic).None? then InsertOrUpdate(m, p.topic, LruAlias(m))
    else m
  }

  /** Is the packet refused because its alias means nothing? */
  predicate AliasRefused(m: AliasSend, p: Publish) {
    if p.topic == [] then p.alias.None? || Peek(m, p.alias.value).None?
    else p.alias.Some? && !(1 <= p.alias.value <= m.max)
  }

  ghost predicate Sender(c: Conn, m: AliasSend) {
    IsV5(c) && IsConnected(c) && c.alias.send == Some(m) && Wf(m) && m.max >= 1
  }

  lemma SendCountedOutcome(c: Conn, q: Publish, release: Option<nat>)
    requires IsConnected(c)
    ensures var r := SendCounted(c, q, release);
      r.c.alias == c.alias && Sends(r.ev) == if OverQuota(c, q) then [] else [PublishPacket(q)]
  {
    if OverQuota(c, q) {
      Mute(SendCounted(c, q, release).ev);
    } else {
      var c1 := if !q.qos.AtMostOnce? && c.flow.sendMax.Some? then
                  if c.flow.sendCount == 0xFFFF then Panic(c)
                      else c.(flow := c.flow.(sendCount := c.flow.sendCount + 1))
                else c;
      SendNowEmits(c1, PublishPacket(q), release);
    }
  }

  lemma RefuseOutcome(c: Conn, e: MqttError, p: Publish)
    ensures var r := RefusePublish(c, e, p); r.c.alias == c.alias && Sends(r.ev) == []
    ensures var r := RefuseAndRelease(c, e, p.pid); r.c.alias == c.alias && Sends(r.ev) == []
  {
    Mute(RefusePublish(c, e, p).ev);
    Mute(RefuseAndRelease(c, e, p.pid).ev);
  }

  /** An alias that is not bound means nothing, and looking it up moves nothing. */
  lemma TouchUnbound(m: AliasSend, a: nat)
    requires Wf(m) && (a < 1 || a > m.max || Peek(m, a).None?)
    ensures Peek(m, a).None? && Touch(m, a) == m
  {
  }

  lemma LruInRange(m: AliasSend)
    requires Wf(m) && m.max >= 1
    ensures 1 <= LruAlias(m) <= m.max
  {
    FirstVacantIs(m, 1);
  }

  lemma SendAliasedOutcome(c: Conn, m: AliasSend, p: Publish, release: Option<nat>)
    requires Sender(c, m)
    ensures var r := SendAliased(c, p, release, false);
      && r.c.alias.send == Some(Bound(c, m, p))
      && Sends(r.ev) == if AliasRefused(m, p) || OverQuota(c, p) then [] else [PublishPacket(Encoded(c, m, p))]
  {
    hide SendCounted, RefusePublish, InsertOrUpdate, Wf, Sends;
    if p.topic == [] {
      var (c1, t) := ResolveAlias(c, p.alias);
      if p.alias.Some? && t.None? { TouchUnbound(m, p.alias.value); }
      if t.None? { RefuseOutcome(c1, PacketNotAllowedToSend, p); } else { SendCountedOutcome(c1, p, release); }
    } else if p.alias.Some? {
      RefuseOutcome(c, PacketNotAllowedToSend, p);
      SendCountedOutcome(BindAlias(c, p.topic, p.alias.value), p, release);
    } else {
      SendMappedOutcome(c, m, p, release);
      hide SendAliased, Bound, Encoded;
    }
  }

  lemma SendMappedOutcome(c: Conn, m: AliasSend, p: Publish, release: Option<nat>)
    requires Sender(c, m) && p.topic != [] && p.alias.None?
    ensures var r := SendAliased(c, p, release, false);
      && r.c.alias.send == Some(Bound(c, m, p))
      && Sends(r.ev) == if OverQuota(c, p) then [] else [PublishPacket(Encoded(c, m, p))]
  {
    LruInRange(m);
    hide SendCounted, InsertOrUpdate, Wf, Sends, FindByTopic, LruAlias, Emits;
    var f := FindByTopic(m, p.topic);
    if !(c.opt.autoMap || c.opt.autoReplace) {
      SendCountedOutcome(c, p, release);
    } else if f.Some? {
      SendCountedOutcome(c, ByAlias(p, f.value), release);
    } else if c.opt.autoMap {
      SendCountedOutcome(BindAlias(c, p.topic, LruAlias(m)), ByAlias(p, LruAlias(m)), release);
    } else {
      SendCountedOutcome(c, p, release);
    }
  }

  /** What a publish does to the sender's map and to the wire. */
  lemma PublishOutcome(c: Conn, m: AliasSend, p: Publish)
    requires Sender(c, m)
    ensures var r := SendPublishV5(c, p);
      if Reaches(c, p) then
        && r.c.alias.send == Some(Bound(c, m, p))
        && Sends(r.ev) == if AliasRefused(m, p) || OverQuota(c, p) then [] else [PublishPacket(Encoded(c, m, p))]
      else r.c.alias == c.alias && Sends(r.ev) == []
  {
    hide SendAliased, SendCounted, InsertOrUpdate, Wf;
    var r := SendPublishV5(c, p);
    RefuseOutcome(c, PacketNotAllowedToSend, p);
    if !Reaches(c, p) {
      Mute(r.ev);
    } else if p.qos.AtMostOnce? {
      SendAliasedOutcome(c, m, p, None);
    } else if !Stores(c) {
      SendAliasedOutcome(Await(c, p), m, p, Some(p.pid));
    } else if p.topic != [] {
      SendAliasedOutcome(Await(Keep(c, StoredPublish(V5_0, p.(alias := None, dup := true))), p), m, p, None);
    } else {
      StoredAliasOutcome(c, m, p);
    }
  }

  lemma StoredAliasOutcome(c: Conn, m: AliasSend, p: Publish)
    requires Sender(c, m) && Reaches(c, p) && !p.qos.AtMostOnce? && Stores(c) && p.topic == []
    ensures var r := SendPublishV5(c, p);
      && r.c.alias.send == Some(Bound(c, m, p))
      && Sends(r.ev) == if AliasRefused(m, p) || OverQuota(c, p) then [] else [PublishPacket(Encoded(c, m, p))]
  {
    hide SendCounted, InsertOrUpdate, Wf, RefuseAndRelease;
    var (c1, t) := ResolveAlias(c, p.alias);
    if p.alias.Some? && t.None? { TouchUnbound(m, p.alias.value); }
    RefuseOutcome(c1, PacketNotAllowedToSend, p);
    if t.Some? {
      var c2 := if HasWildcard(t.value) then Panic(c1)
                else Keep(c1, StoredPublish(V5_0, p.(topic := t.value, alias := None, dup := true)));
      SendCountedOutcome(Await(c2, p), p, None);
    }
  }

  /** The receiver reads what was sent as it was meant, and afterwards both maps agree. */
  ghost predicate Understood(r: AliasRecv, sent: seq<Packet>, after: AliasSend, meant: Option<Topic>) {
    if sent == [] then Agree(after, r)
    else
      && |sent| == 1 && sent[0].PublishPacket?
      && Resolved(r, sent[0].pub) == meant && Agree(after, Learned(r, sent[0].pub))
  }

  /** The publishes that break the agreement. */
  predicate Breaks(c: Conn, m: AliasSend, p: Publish) {
    Reaches(c, p) && (MapsNew(c, m, p) || BindsUnsent(c, m, p))
  }

  lemma BoundLookup(c: Conn, m: AliasSend, p: Publish)
    requires Sender(c, m)
    ensures var n := Bound(c, m, p);
      && Wf(n) && n.max == m.max
      && forall b: nat :: Lookup(n.entries, b) ==
           if p.topic != [] && p.alias == Some(b) && 1 <= b <= m.max then Some(p.topic)
           else if MapsNew(c, m, p) && b == LruAlias(m) then Some(p.topic)
           else Lookup(m.entries, b)
  {
    LruInRange(m);
    if p.topic == [] {
      if p.alias.Some? { TouchKeeps(m, p.alias.value); }
    } else if p.alias.Some? {
      if 1 <= p.alias.value <= m.max { InsertKeeps(m, p.topic, p.alias.value); }
    } else if MapsNew(c, m, p) {
      InsertKeeps(m, p.topic, LruAlias(m));
    }
  }

  /** No alias stands for a topic that the reverse index does not know. */
  lemma NotBound(m: AliasSend, t: Topic, a: nat)
    requires Wf(m) && FindByTopic(m, t).None?
    ensures Lookup(m.entries, a) != Some(t)
  {
    assert Indexes(m.byTopic, t, a) <==> Lookup(m.entries, a) == Some(t);
  }

  /** One publish on a connection whose maps agree is understood if and only if it is none of those
      that break the agreement. */
  lemma UnderstoodIff(c: Conn, m: AliasSend, r: AliasRecv, p: Publish)
    requires Sender(c, m) && Plain(m) && Agree(m, r) && !HasWildcard(p.topic)
    ensures var s := SendPublishV5(c, p);
      && s.c.alias.send.Some?
      && (Understood(r, Sends(s.ev), s.c.alias.send.value, Meant(m, p)) <==> !Breaks(c, m, p))
  {
    hide SendPublishV5, Step;
    PublishOutcome(c, m, p);
    hide SendPublishV5, InsertOrUpdate, Touch, Sends, FindByTopic, LruAlias;
    if Reaches(c, p) {
      BoundLookup(c, m, p);
      LruInRange(m);
      if MapsNew(c, m, p) {
        MappedMisread(c, m, r, p);
      } else {
        NamedRead(c, m, r, p);
      }
      hide Understood, Breaks, Bound, Encoded, Agree;
    }
  }

  /** A topic that automatic mapping gives a new alias is not read as meant. */
  lemma MappedMisread(c: Conn, m: AliasSend, r: AliasRecv, p: Publish)
    requires Sender(c, m) && Agree(m, r) && MapsNew(c, m, p)
    ensures var sent := if AliasRefused(m, p) || OverQuota(c, p) then [] else [PublishPacket(Encoded(c, m, p))];
      !Understood(r, sent, Bound(c, m, p), Meant(m, p))
  {
    BoundLookup(c, m, p);
    LruInRange(m);
    NotBound(m, p.topic, LruAlias(m));
    assert Lookup(Bound(c, m, p).entries, LruAlias(m)) == Some(p.topic);
    hide Bound, FindByTopic, LruAlias;
  }

  /** Any other topic or alias is, unless a new binding does not go out. */
  lemma NamedRead(c: Conn, m: AliasSend, r: AliasRecv, p: Publish)
    requires Sender(c, m) && Plain(m) && Agree(m, r) && !HasWildcard(p.topic) && !MapsNew(c, m, p)
    ensures var sent := if AliasRefused(m, p) || OverQuota(c, p) then [] else [PublishPacket(Encoded(c, m, p))];
      Understood(r, sent, Bound(c, m, p), Meant(m, p)) <==> !BindsUnsent(c, m, p)
  {
    BoundLookup(c, m, p);
    var n := Bound(c, m, p);
    hide Bound, HasWildcard, Wf;
    if p.topic != [] && p.alias.None? {
      FindMeansPeek(m, p.topic);
    } else if p.alias.Some? {
      assert Lookup(n.entries, p.alias.value) == Lookup(m.entries, p.alias.value) || p.topic != [];
    }
  }

  lemma BoundOnce(t: Topic)
    ensures InsertOrUpdate(NewSend(1), t, 1) == AliasSend(1, [(1, t)], map[t := [1]], {1})
  {
    var m := InsertOrUpdate(NewSend(1), t, 1);
    assert m.entries == [(1, t)];
    assert m.byTopic[t] == [1] && m.byTopic == map[t := [1]];
    assert m.taken == {1};
  }

  /** A map whose only alias is taken. */
  lemma OnlyAlias(m: AliasSend, t: Topic, u: Topic)
    requires m == AliasSend(1, [(1, t)], map[t := [1]], {1}) && t != u
    ensures Agree(m, AliasRecv(1, map[1 := t])) && Lookup(m.entries, 1) == Some(t)
    ensures FindByTopic(m, u) == None && LruAlias(m) == 1
  {
    assert m.entries[1..] == [];
    assert FirstVacant(m, 2) == None;
    assert FirstVacant(m, 1) == None;
  }

  // ---------------------------------------------------------------- runs

  /** A packet under way with the topic it was meant for. */
  datatype Sent = Sent(packet: Publish, meant: Topic)

  datatype Net = Net(a: Conn, b: Conn, wire: seq<Sent>)

  datatype Move = PublishMove(p: Publish) | DeliverMove

  function LearnAll(r: AliasRecv, w: seq<Sent>): AliasRecv
    decreases |w|
  {
    if w == [] then r else LearnAll(Learned(r, w[0].packet), w[1..])
  }

  predicate AllMeant(r: AliasRecv, w: seq<Sent>)
    decreases |w|
  {
    w == [] || (Resolved(r, w[0].packet) == Some(w[0].meant) && AllMeant(Learned(r, w[0].packet), w[1..]))
  }

  lemma {:induction false} WireAppend(r: AliasRecv, w: seq<Sent>, x: Sent)
    ensures LearnAll(r, w + [x]) == Learned(LearnAll(r, w), x.packet)
    ensures AllMeant(r, w + [x]) <==> AllMeant(r, w) && Resolved(LearnAll(r, w), x.packet) == Some(x.meant)
    decreases |w|
  {
    if w == [] {
      assert w + [x] == [x];
      assert [x][1..] == [];
    } else {
      assert (w + [x])[1..] == w[1..] + [x];
      WireAppend(Learned(r, w[0].packet), w[1..], x);
    }
  }

  function Next(n: Net, m: Move): Net {
    match m
    case PublishMove(p) =>
      var r := Step(n.a, OpSend(V5_0, PublishPacket(p)));
      var ps := Sends(r.ev);
      var meant := if n.a.alias.send.Some? then Meant(n.a.alias.send.value, p) else None;
      n.(a := r.c, wire := n.wire + (if |ps| == 1 && ps[0].PublishPacket? && meant.Some?
          then [Sent(ps[0].pub, meant.value)] else []))
    case DeliverMove =>
      if n.wire == [] then n
      else n.(b := Step(n.b, Arrival(PublishPacket(n.wire[0].packet))).c, wire := n.wire[1..])
  }

  /** Publishes that keep the agreement, and deliveries within the size and quota of the receiver. */
  predicate Enabled(n: Net, m: Move) {
    match m
    case PublishMove(p) => !HasWildcard(p.topic) && n.a.alias.send.Some? && !Breaks(n.a, n.a.alias.send.value, p)
    case DeliverMove =>
      n.wire != [] && Size(V5_0, PublishPacket(n.wire[0].packet)) <= n.b.flow.maxRecv && n.b.flow.recvMax.None?
  }

  ghost predicate Inv(n: Net) {
    && n.a.alias.send.Some? && Sender(n.a, n.a.alias.send.value) && Plain(n.a.alias.send.value)
    && IsV5(n.b) && n.b.alias.recv.Some?
    && AllMeant(n.b.alias.recv.value, n.wire)
    && Agree(n.a.alias.send.value, LearnAll(n.b.alias.recv.value, n.wire))
  }

  /** Sending changes neither version, status nor options. */
  predicate SameLink(c: Conn, d: Conn) {
    d.version == c.version && d.status == c.status && d.opt == c.opt && d.flow.maxSend == c.flow.maxSend
  }

  lemma SendCountedFrame(c: Conn, p: Publish, release: Option<nat>)
    ensures SameLink(c, SendCounted(c, p, release).c) && SameLink(c, RefusePublish(c, PacketNotAllowedToSend, p).c)
  {
  }

  lemma SendAliasedFrame(c: Conn, p: Publish, release: Option<nat>, validated: bool)
    ensures SameLink(c, SendAliased(c, p, release, validated).c)
  {
    hide InsertOrUpdate, Touch, FindByTopic, LruAlias, SendCounted, RefusePublish;
    var c1 := ResolveAlias(c, p.alias).0;
    SendCountedFrame(c, p, release);
    SendCountedFrame(c1, p, release);
    if p.topic != [] && p.alias.Some? {
      SendCountedFrame(BindAlias(c, p.topic, p.alias.value), p, release);
    } else if p.topic != [] && c.alias.send.Some? {
      var m := c.alias.send.value;
      var a := if FindByTopic(m, p.topic).Some? then FindByTopic(m, p.topic).value else LruAlias(m);
      SendCountedFrame(c, ByAlias(p, a), release);
      SendCountedFrame(BindAlias(c, p.topic, a), ByAlias(p, a), release);
    }
  }

  lemma PublishFrame(c: Conn, p: Publish)
    ensures SameLink(c, SendPublishV5(c, p).c)
  {
    hide SendAliased, Touch;
    var (c1, t) := ResolveAlias(c, p.alias);
    SendAliasedFrame(c, p, None, false);
    SendAliasedFrame(Await(c, p), p, Some(p.pid), false);
    SendAliasedFrame(Await(Keep(c, StoredPublish(V5_0, p.(alias := None, dup := true))), p), p, None, false);
    if t.Some? {
      var c2 := if HasWildcard(t.value) then Panic(c1)
                else Keep(c1, StoredPublish(V5_0, p.(topic := t.value, alias := None, dup := true)));
      SendAliasedFrame(Await(c2, p), p, None, true);
    }
  }

  lemma PublishKeeps(n: Net, p: Publish)
    requires Inv(n) && Enabled(n, PublishMove(p))
    ensures Inv(Next(n, PublishMove(p)))
  {
    var m := n.a.alias.send.value;
    var r := LearnAll(n.b.alias.recv.value, n.wire);
    var s := SendPublishV5(n.a, p);
    assert Step(n.a, OpSend(V5_0, PublishPacket(p))) == s;
    UnderstoodIff(n.a, m, r, p);
    PublishOutcome(n.a, m, p);
    PublishFrame(n.a, p);
    assert Plain(Bound(n.a, m, p)) by {
      BoundLookup(n.a, m, p);
    }
    BoundLookup(n.a, m, p);
    hide Step, SendPublishV5, Wf;
    var ps := Sends(s.ev);
    if ps != [] {
      assert Meant(m, p).Some?;
      WireAppend(n.b.alias.recv.value, n.wire, Sent(ps[0].pub, Meant(m, p).value));
    } else {
      assert n.wire + [] == n.wire;
    }
  }

  lemma AcceptFrame(c: Conn, p: Publish, respond: bool, again: bool)
    ensures var d := AcceptPublish(c, p, respond, again).c; d.version == c.version && d.alias == c.alias
  {
  }

  predicate Duplicate(c: Conn, q: Publish) { q.qos.ExactlyOnce? && q.pid in c.session.handled }

  /** The state in which a packet is accepted, apart from what the packet teaches. */
  function Taking(c: Conn, q: Publish): Conn {
    var c1 := if q.qos.AtMostOnce? then c else c.(flow := c.flow.(publishRecv := c.flow.publishRecv + {q.pid}));
    if q.qos.ExactlyOnce? then c1.(session := c1.session.(handled := c1.session.handled + {q.pid})) else c1
  }

  predicate Responds(c: Conn, q: Publish) {
    match q.qos
    case AtMostOnce => false
    case AtLeastOnce => c.opt.autoPub && IsConnected(c)
    case ExactlyOnce => IsConnected(c) && (c.opt.autoPub || Duplicate(c, q))
  }

  /** A packet that resolves, and that is within size and quota. */
  predicate Takes(c: Conn, q: Publish, t: Topic) {
    && IsV5(c) && c.alias.recv.Some? && Resolved(c.alias.recv.value, q) == Some(t)
    && Size(V5_0, PublishPacket(q)) <= c.flow.maxRecv && c.flow.recvMax.None?
  }

  function WithTopic(q: Publish, t: Topic): Publish { if q.topic == [] then q.(topic := t, extracted := true) else q }

  lemma DeliveryIs(c: Conn, q: Publish, t: Topic)
    requires Takes(c, q, t)
    ensures var c2 := Taking(c, q);
      Step(c, Arrival(PublishPacket(q))) ==
        AcceptPublish(c2.(alias := c2.alias.(recv := Some(Learned(c2.alias.recv.value, q)))),
                      WithTopic(q, t), Responds(c, q), Duplicate(c, q))
  {
    ReceptionResolves(Taking(c, q), q, Responds(c, q), Duplicate(c, q));
    hide AcceptPublish, ReceiveTopic;
    assert Step(c, Arrival(PublishPacket(q)))
        == ReceiveTopic(Taking(c, q), q, Responds(c, q), Duplicate(c, q));
  }

  predicate HandsOver(e: Event) { e.NotifyPacketReceived? && e.packet.PublishPacket? }

  /** The host is handed the packet under topic `t`, unless it is a duplicate; then it is handed nothing. */
  ghost predicate HandedOver(c: Conn, q: Publish, t: Topic) {
    var ev := Step(c, Arrival(PublishPacket(q))).ev;
    && (forall k :: 0 <= k < |ev| && HandsOver(ev[k]) ==> ev[k].packet.pub == WithTopic(q, t))
    && ((exists k :: 0 <= k < |ev| && HandsOver(ev[k])) <==> !Duplicate(c, q))
  }

  lemma RespondHandsNothing(c: Conn, p: Packet)
    requires p.Puback? || p.Pubrec?
    ensures forall k :: 0 <= k < |Respond(c, p).ev| ==> !HandsOver(Respond(c, p).ev[k])
  {
  }

  lemma AcceptTells(c: Conn, p: Publish, respond: bool, again: bool)
    ensures var ev := AcceptPublish(c, p, respond, again).ev;
      && (forall k :: 0 <= k < |ev| && HandsOver(ev[k]) ==> ev[k].packet.pub == p)
      && ((exists k :: 0 <= k < |ev| && HandsOver(ev[k])) <==> !again)
  {
    var ack := if p.qos.AtLeastOnce? then Puback(p.pid, None, 2) else Pubrec(p.pid, None, 2);
    var r := if !respond then R(c, []) else Respond(c, ack);
    RespondHandsNothing(c, ack);
    hide Respond;
    var rest := if again then RefreshRecv(r.c) else Deliver(r.c, PublishPacket(p));
    var ev := AcceptPublish(c, p, respond, again).ev;
    assert ev == r.ev + rest.ev;
    if !again { assert HandsOver(ev[|ev| - 1]); }
  }

  lemma DeliveryTells(c: Conn, q: Publish, t: Topic)
    requires Takes(c, q, t)
    ensures HandedOver(c, q, t)
  {
    hide AcceptPublish, Step;
    DeliveryIs(c, q, t);
    var c2 := Taking(c, q);
    AcceptTells(c2.(alias := c2.alias.(recv := Some(Learned(c2.alias.recv.value, q)))), WithTopic(q, t),
        Responds(c, q), Duplicate(c, q));
    hide AcceptPublish, Step;
  }

  /** A connection just set up: same alias maximum on both ends and no alias bound. */
  predicate Start(n: Net) {
    && IsV5(n.a) && IsConnected(n.a) && IsV5(n.b) && n.wire == []
    && n.a.alias.send.Some? && n.b.alias.recv.Some? && n.a.alias.send.value.max >= 1
    && n.a.alias.send.value == NewSend(n.a.alias.send.value.max)
    && n.b.alias.recv.value == AliasRecv(n.a.alias.send.value.max, map[])
  }

  ghost predicate Run(ns: seq<Net>, ms: seq<Move>) {
    && |ns| == |ms| + 1 && Start(ns[0])
    && forall k :: 0 <= k < |ms| ==> Enabled(ns[k], ms[k]) && ns[k + 1] == Next(ns[k], ms[k])
  }

  lemma {:induction false} RunInv(ns: seq<Net>, ms: seq<Move>, k: nat)
    requires Run(ns, ms) && k < |ns|
    ensures Inv(ns[k])
  {
    hide Step;
    if k > 0 {
      RunInv(ns, ms, k - 1);
      assert Inv(Next((ns[k - 1]), (ms[k - 1]))) by {
        hide SendPublish, Step;
        match (ms[k - 1])
        case PublishMove(p) => PublishKeeps((ns[k - 1]), p);
        case DeliverMove =>
          hide Step;
          assert var d := Step(((ns[k - 1]).b), Arrival(PublishPacket(((ns[k - 1]).wire[0].packet)))).c;
            IsV5(d) && d.alias.recv == Some(Learned(((ns[k - 1]).b).alias.recv.value,
                ((ns[k - 1]).wire[0].packet))) by {
            hide AcceptPublish, Step;
            DeliveryIs(((ns[k - 1]).b), ((ns[k - 1]).wire[0].packet), ((ns[k - 1]).wire[0].meant));
            var c2 := Taking(((ns[k - 1]).b), ((ns[k - 1]).wire[0].packet));
            AcceptFrame(c2.(alias := c2.alias.(recv :=
                Some(Learned(c2.alias.recv.value, ((ns[k - 1]).wire[0].packet))))),
                WithTopic(((ns[k - 1]).wire[0].packet), ((ns[k - 1]).wire[0].meant)),
                Responds(((ns[k - 1]).b), ((ns[k - 1]).wire[0].packet)),
                    Duplicate(((ns[k - 1]).b), ((ns[k - 1]).wire[0].packet)));
            hide AcceptPublish, Step;
          }
      }
    }
  }

  /** In every run: delivering the next packet hands it to the host under the topic it was meant for, unless
      it is a duplicate; and once everything is delivered both ends hold the same map. */
  lemma AliasesAgree(ns: seq<Net>, ms: seq<Move>, k: nat)
    requires Run(ns, ms) && k < |ns|
    ensures var n := ns[k];
      && n.a.alias.send.Some? && n.b.alias.recv.Some?
      && (n.wire == [] ==> Agree(n.a.alias.send.value, n.b.alias.recv.value))
      && (n.wire != [] ==> Resolved(n.b.alias.recv.value, n.wire[0].packet) == Some(n.wire[0].meant))
      && (Enabled(n, DeliverMove) ==> HandedOver(n.b, n.wire[0].packet, n.wire[0].meant)
                                      && WithTopic(n.wire[0].packet, n.wire[0].meant).topic == n.wire[0].meant)
  {
    hide Step;
    RunInv(ns, ms, k);
    var n := ns[k];
    hide HandedOver, Run;
    if Enabled(n, DeliverMove) { DeliveryTells(n.b, n.wire[0].packet, n.wire[0].meant); }
  }

  // ---------------------------------------------------------------- from a handshake

  /** A handshake in which the server announces a Topic Alias Maximum leads to a start of these runs. */
  lemma AliasStart(autoMap: bool, max: U16)
    requires max >= 1
    ensures var ps := [TopicAliasMaximum(max)]; Start(Net(ClientAt(autoMap, [], ps), ServerAt([], ps), []))
  {
    hide ClientAt, ServerAt;
    ClientIs(autoMap, [], TopicAliasMaximum(max));
    ServerIs([], TopicAliasMaximum(max));
  }

  function Message(t: Topic, alias: Option<nat>): Publish {
    Publish(t, AtMostOnce, false, false, 0, alias, 0, false, [])
  }

  const A_TOPIC: Topic := [97]

  const B_TOPIC: Topic := [98]

  /** One alias is allowed. The client publishes to "a" under alias 1, then to "b" with automatic mapping on:
      the second packet goes out as the bare alias, and the server hands it to its host as a message for "a". */
  lemma AutoMapMisdelivers()
    ensures var ps := [TopicAliasMaximum(1)];
      var first := Message(A_TOPIC, Some(1));
      var c, s := ClientAt(true, [], ps), ServerAt([], ps);
      var r1 := Step(c, OpSend(V5_0, PublishPacket(first)));
      var s1 := Step(s, Arrival(PublishPacket(first))).c;
      var r2 := Step(r1.c, OpSend(V5_0, PublishPacket(Message(B_TOPIC, None))));
      var bare := Message([], Some(1));
      && Sends(r1.ev) == [PublishPacket(first)] && Sends(r2.ev) == [PublishPacket(bare)]
      && HandedOver(s1, bare, A_TOPIC)
  {
    hide ClientAt, ServerAt, Step, HandedOver, Sends;
    ClientIs(true, [], TopicAliasMaximum(1));
    ServerIs([], TopicAliasMaximum(1));
    SenderSide(ClientAt(true, [], [TopicAliasMaximum(1)]));
    assert var s1 := Step((ServerAt([], [TopicAliasMaximum(1)])), Arrival(PublishPacket(Message(A_TOPIC, Some(1))))).c;
      HandedOver(s1, Message([], Some(1)), A_TOPIC) by {
      var first, bare := Message(A_TOPIC, Some(1)), Message([], Some(1));
      DeliveryIs((ServerAt([], [TopicAliasMaximum(1)])), first, A_TOPIC);
      var s1 := Step((ServerAt([], [TopicAliasMaximum(1)])), Arrival(PublishPacket(first))).c;
      hide Step;
      assert Takes(s1, bare, A_TOPIC);
      DeliveryTells(s1, bare, A_TOPIC);
    }
  }

  lemma SenderSide(c: Conn)
    requires IsV5(c) && IsConnected(c) && c.alias.send == Some(NewSend(1)) && c.opt.autoMap && c.opt.role.Client?
    requires c.flow.maxSend == NO_SIZE_LIMIT
    ensures var r1 := Step(c, OpSend(V5_0, PublishPacket(Message(A_TOPIC, Some(1)))));
      var r2 := Step(r1.c, OpSend(V5_0, PublishPacket(Message(B_TOPIC, None))));
      Sends(r1.ev) == [PublishPacket(Message(A_TOPIC, Some(1)))]
          && Sends(r2.ev) == [PublishPacket(Message([], Some(1)))]
  {
    var first, second := Message(A_TOPIC, Some(1)), Message(B_TOPIC, None);
    var m0 := NewSend(1);
    hide SendPublishV5, Sends;
    var r1 := Step(c, OpSend(V5_0, PublishPacket(first)));
    assert r1 == SendPublishV5(c, first);
    PublishOutcome(c, m0, first);
    PublishFrame(c, first);
    BoundOnce(A_TOPIC);
    InsertKeeps(m0, A_TOPIC, 1);
    assert A_TOPIC[0] != B_TOPIC[0];
    var m1 := InsertOrUpdate(m0, A_TOPIC, 1);
    hide InsertOrUpdate;
    OnlyAlias(m1, A_TOPIC, B_TOPIC);
    hide FindByTopic, LruAlias;
    assert Step(r1.c, OpSend(V5_0, PublishPacket(second))) == SendPublishV5(r1.c, second);
    hide Step;
    PublishOutcome(r1.c, m1, second);
  }

}
