/** Three laws that tie the event stream of one call to the state it changes, for both protocol
    versions and against any peer:
    timer requests mirror the timer flags, released identifiers mirror the allocator, and a server
    sends nothing but CONNACK and AUTH before it has accepted the client. */
module Laws {
  import opened Packets
  import opened TopicAlias
  import opened Store
  import opened Engine

  datatype Armed = Armed(send: bool, recv: bool, resp: bool)

  predicate Get(a: Armed, k: TimerKind) {
    match k case PingreqSend => a.send case PingreqRecv => a.recv case PingrespRecv => a.resp
  }

  function Set(a: Armed, k: TimerKind, on: bool): Armed {
    match k
    case PingreqSend => a.(send := on)
    case PingreqRecv => a.(recv := on)
    case PingrespRecv => a.(resp := on)
  }

  function ArmedOf(c: Conn): Armed { Armed(c.timers.sendSet, c.timers.recvSet, c.timers.respSet) }

  /** Running the timer requests of `ev` from `a` leaves exactly `b` armed; only armed timers are
      cancelled and every requested duration is positive. */
  predicate TimerRun(a: Armed, ev: seq<Event>, b: Armed)
    decreases |ev|
  {
    if ev == [] then a == b
    else match ev[0] {
      case RequestTimerReset(k, ms) => ms > 0 && TimerRun(Set(a, k, true), ev[1..], b)
      case RequestTimerCancel(k) => Get(a, k) && TimerRun(Set(a, k, false), ev[1..], b)
      case _ => TimerRun(a, ev[1..], b)
    }
  }

  lemma {:induction false} TimerRunAppend(a: Armed, e1: seq<Event>, b: Armed, e2: seq<Event>, d: Armed)
    requires TimerRun(a, e1, b) && TimerRun(b, e2, d)
    ensures TimerRun(a, e1 + e2, d)
    decreases |e1|
  {
    if e1 == [] {
      assert e1 + e2 == e2;
    } else {
      assert (e1 + e2)[1..] == e1[1..] + e2;
      match e1[0] {
        case RequestTimerReset(k, ms) => TimerRunAppend(Set(a, k, true), e1[1..], b, e2, d);
        case RequestTimerCancel(k) => TimerRunAppend(Set(a, k, false), e1[1..], b, e2, d);
        case _ => TimerRunAppend(a, e1[1..], b, e2, d);
      }
    }
  }

  /** The identifiers that `ev` reports as released, in order. */
  function Released(ev: seq<Event>): seq<nat> {
    if ev == [] then []
    else (if ev[0].NotifyPacketIdReleased? then [ev[0].id] else []) + Released(ev[1..])
  }

  lemma {:induction false} ReleasedAppend(e1: seq<Event>, e2: seq<Event>)
    ensures Released(e1 + e2) == Released(e1) + Released(e2)
  {
    if e1 == [] {
      assert e1 + e2 == e2;
    } else {
      assert (e1 + e2)[1..] == e1[1..] + e2;
      ReleasedAppend(e1[1..], e2);
      var head := if e1[0].NotifyPacketIdReleased? then [e1[0].id] else [];
      assert Released(e1 + e2) == head + (Released(e1[1..]) + Released(e2));
    }
  }

  /** Every identifier is reported exactly as often as it went from used to free: once or never. */
  ghost predicate ReleaseLaw(used: set<nat>, ev: seq<Event>, after: set<nat>) {
    forall i: nat :: multiset(Released(ev))[i] == if i in used && i !in after then 1 else 0
  }

  predicate Accepts(e: Event) { e.RequestSendPacket? && e.packet.Connack? && e.packet.accepted }

  predicate NeedsAcceptance(e: Event) { e.RequestSendPacket? && !e.packet.Connack? && !e.packet.Auth? }

  /** Every packet in `ev` but CONNACK and AUTH goes out after an acceptance, which is either already
      on record (`open`) or sent earlier in `ev`. */
  ghost predicate GateOk(open: bool, ev: seq<Event>) {
    open || forall k :: 0 <= k < |ev| && NeedsAcceptance(ev[k]) ==> exists j :: 0 <= j < k && Accepts(ev[j])
  }

  ghost predicate HasAcceptance(ev: seq<Event>) { exists j :: 0 <= j < |ev| && Accepts(ev[j]) }

  /** The part of the state the laws speak about. The gate binds servers only. */
  datatype Key = Key(armed: Armed, used: set<nat>, open: bool, role: Role, version: Version)

  function KeyOf(c: Conn): Key {
    Key(ArmedOf(c), c.ids.used, IsConnected(c) || !c.opt.role.Server?, c.opt.role, c.version)
  }

  /** `exact` asks for the release law as well, which resending a store that the peer cannot take may break. */
  ghost predicate Lawful(exact: bool, k: Key, ev: seq<Event>, k': Key) {
    && k'.role == k.role && k'.version == k.version
    && TimerRun(k.armed, ev, k'.armed)
    && k'.used <= k.used
    && (exact ==> ReleaseLaw(k.used, ev, k'.used))
    && GateOk(k.open, ev)
    && (k'.open ==> k.open || HasAcceptance(ev))
  }

  lemma Then(exact: bool, k1: Key, e1: seq<Event>, k2: Key, e2: seq<Event>, k3: Key)
    requires Lawful(exact, k1, e1, k2) && Lawful(exact, k2, e2, k3)
    ensures Lawful(exact, k1, e1 + e2, k3)
  {
    TimerRunAppend(k1.armed, e1, k2.armed, e2, k3.armed);
    ReleasedAppend(e1, e2);
    var ev := e1 + e2;
    forall i: nat | exact ensures multiset(Released(ev))[i] == if i in k1.used && i !in k3.used then 1 else 0 {
      assert multiset(Released(ev)) == multiset(Released(e1)) + multiset(Released(e2));
    }
    GateAppend(k1.open, e1, k2.open, e2);
    if k3.open && !k1.open {
      if HasAcceptance(e1) {
        var j :| 0 <= j < |e1| && Accepts(e1[j]);
        assert Accepts(ev[j]);
      } else {
        var j :| 0 <= j < |e2| && Accepts(e2[j]);
        assert Accepts(ev[|e1| + j]);
      }
    }
  }

  lemma GateAppend(open: bool, e1: seq<Event>, open': bool, e2: seq<Event>)
    requires GateOk(open, e1) && GateOk(open', e2)
    requires open' ==> open || HasAcceptance(e1)
    ensures GateOk(open, e1 + e2)
  {
    var ev := e1 + e2;
    forall k | !open && 0 <= k < |ev| && NeedsAcceptance(ev[k])
      ensures exists j :: 0 <= j < k && Accepts(ev[j])
    {
      if k < |e1| {
        var j :| 0 <= j < k && Accepts(e1[j]);
        assert Accepts(ev[j]);
      } else if open' {
        var j :| 0 <= j < |e1| && Accepts(e1[j]);
        assert Accepts(ev[j]);
      } else {
        var j :| 0 <= j < k - |e1| && Accepts(e2[j]);
        assert Accepts(ev[|e1| + j]);
      }
    }
  }

  // ---------------------------------------------------------------- events without effect on the laws

  /** Events that touch no timer, release nothing and send nothing restricted. */
  predicate Plain(e: Event) {
    match e
    case NotifyPacketReceived(_) => true
    case NotifyError(_) => true
    case RequestClose => true
    case RequestSendPacket(_, _) => !NeedsAcceptance(e)
    case _ => false
  }

  lemma {:induction false} PlainLawful(exact: bool, k: Key, ev: seq<Event>)
    requires forall i :: 0 <= i < |ev| ==> Plain(ev[i])
    ensures Lawful(exact, k, ev, k)
  {
    if ev != [] {
      PlainLawful(exact, k, ev[1..]);
      assert Released(ev) == Released(ev[1..]);
    }
  }

  lemma SendLawful(exact: bool, k: Key, p: Packet, release: Option<nat>)
    requires k.open
    ensures Lawful(exact, k, [RequestSendPacket(p, release)], k)
  {
    assert [RequestSendPacket(p, release)][1..] == [];
  }

  lemma TimerLawful(exact: bool, k: Key, e: Event, k': Key)
    requires e.RequestTimerReset? || e.RequestTimerCancel?
    requires TimerRun(k.armed, [e], k'.armed)
    requires k' == k.(armed := k'.armed)
    ensures Lawful(exact, k, [e], k')
  {
    assert [e][1..] == [];
  }

  // ---------------------------------------------------------------- one lemma per operation

  lemma ReleaseLawful(exact: bool, c: Conn, id: nat)
    ensures Lawful(exact, KeyOf(c), Release(c, id).ev, KeyOf(Release(c, id).c))
  {
    var r := Release(c, id);
    if r.ev == [NotifyPacketIdReleased(id)] {
      assert r.ev[1..] == [];
      assert Released(r.ev) == [id];
    }
  }

  lemma RefuseAndReleaseLawful(exact: bool, c: Conn, e: MqttError, id: nat)
    ensures Lawful(exact, KeyOf(c), RefuseAndRelease(c, e, id).ev, KeyOf(RefuseAndRelease(c, e, id).c))
  {
    PlainLawful(exact, KeyOf(c), [NotifyError(e)]);
    ReleaseLawful(exact, c, id);
    Then(exact, KeyOf(c), [NotifyError(e)], KeyOf(c), Release(c, id).ev, KeyOf(Release(c, id).c));
  }

  lemma {:induction false} DrainLawful(exact: bool, c: Conn, ids: seq<nat>)
    ensures Lawful(exact, KeyOf(c), Drain(c, ids).ev, KeyOf(Drain(c, ids).c))
    decreases |ids|
  {
    if ids != [] {
      var r := Release(c, ids[0]);
      ReleaseLawful(exact, c, ids[0]);
      DrainLawful(exact, r.c, ids[1..]);
      Then(exact, KeyOf(c), r.ev, KeyOf(r.c), Drain(r.c, ids[1..]).ev, KeyOf(Drain(c, ids).c));
    }
  }

  lemma PostSendLawful(exact: bool, c: Conn)
    ensures Lawful(exact, KeyOf(c), PostSend(c).ev, KeyOf(PostSend(c).c))
  {
    var r := PostSend(c);
    if r.ev != [] { TimerLawful(exact, KeyOf(c), r.ev[0], KeyOf(r.c)); }
  }

  lemma RefreshLawful(exact: bool, c: Conn)
    ensures Lawful(exact, KeyOf(c), RefreshRecv(c).ev, KeyOf(RefreshRecv(c).c))
  {
    var r := RefreshRecv(c);
    if r.ev != [] { TimerLawful(exact, KeyOf(c), r.ev[0], KeyOf(r.c)); }
  }

  lemma CancelLawful(exact: bool, c: Conn)
    ensures Lawful(exact, KeyOf(c), CancelTimers(c).ev, KeyOf(CancelTimers(c).c))
  {
    var k := KeyOf(c);
    var k1 := k.(armed := k.armed.(send := false));
    var k2 := k1.(armed := k1.armed.(recv := false));
    var k3 := k2.(armed := k2.armed.(resp := false));
    var e1 := if c.timers.sendSet then [RequestTimerCancel(PingreqSend)] else [];
    var e2 := if c.timers.recvSet then [RequestTimerCancel(PingreqRecv)] else [];
    var e3 := if c.timers.respSet then [RequestTimerCancel(PingrespRecv)] else [];
    if e1 != [] { TimerLawful(exact, k, e1[0], k1); }
    if e2 != [] { TimerLawful(exact, k1, e2[0], k2); }
    if e3 != [] { TimerLawful(exact, k2, e3[0], k3); }
    Then(exact, k, e1, k1, e2, k2);
    Then(exact, k, e1 + e2, k2, e3, k3);
  }

  lemma SendNowLawful(exact: bool, c: Conn, p: Packet, release: Option<nat>)
    requires KeyOf(c).open || p.Auth?
    ensures Lawful(exact, KeyOf(c), SendNow(c, p, release).ev, KeyOf(SendNow(c, p, release).c))
  {
    if p.Auth? { PlainLawful(exact, KeyOf(c), [RequestSendPacket(p, release)]); }
        else { SendLawful(exact, KeyOf(c), p, release); }
    PostSendLawful(exact, c);
    Then(exact, KeyOf(c), [RequestSendPacket(p, release)], KeyOf(c), PostSend(c).ev, KeyOf(PostSend(c).c));
  }

  lemma DeliverLawful(exact: bool, c: Conn, p: Packet)
    ensures Lawful(exact, KeyOf(c), Deliver(c, p).ev, KeyOf(Deliver(c, p).c))
  {
    var r := RefreshRecv(c);
    RefreshLawful(exact, c);
    PlainLawful(exact, KeyOf(r.c), [NotifyPacketReceived(p)]);
    Then(exact, KeyOf(c), r.ev, KeyOf(r.c), [NotifyPacketReceived(p)], KeyOf(r.c));
  }

  /** `r` obeys the laws as a continuation of `c`. */
  ghost predicate Follows(exact: bool, c: Conn, r: R) { Lawful(exact, KeyOf(c), r.ev, KeyOf(r.c)) }

  lemma Chain(exact: bool, c: Conn, r1: R, r2: R)
    requires Follows(exact, c, r1) && Follows(exact, r1.c, r2)
    ensures Follows(exact, c, R(r2.c, r1.ev + r2.ev))
  {
    Then(exact, KeyOf(c), r1.ev, KeyOf(r1.c), r2.ev, KeyOf(r2.c));
  }

  lemma Quiet(exact: bool, c: Conn, ev: seq<Event>)
    requires forall i :: 0 <= i < |ev| ==> Plain(ev[i])
    ensures Follows(exact, c, R(c, ev))
  {
    PlainLawful(exact, KeyOf(c), ev);
  }

  lemma SendDisconnectLawful(exact: bool, c: Conn, p: Packet, v5: bool)
    ensures Follows(exact, c, SendDisconnect(c, p, v5))
  {
    var r := SendDisconnect(c, p, v5);
    if IsConnected(c) && !(v5 && Size(V5_0, p) > c.flow.maxSend) {
      var k := KeyOf(c);
      var r1 := CancelTimers(c);
      CancelLawful(exact, c);
      assert KeyOf(r1.c).open;
      SendLawful(exact, KeyOf(r1.c), p, None);
      PlainLawful(exact, KeyOf(r1.c), [RequestClose]);
      Then(exact, KeyOf(r1.c), [RequestSendPacket(p, None)], KeyOf(r1.c), [RequestClose], KeyOf(r1.c));
      assert [RequestSendPacket(p, None)] + [RequestClose] == [RequestSendPacket(p, None), RequestClose];
      Then(exact, k, r1.ev, KeyOf(r1.c), [RequestSendPacket(p, None), RequestClose], KeyOf(r1.c));
    } else {
      Quiet(exact, c, r.ev);
    }
  }

  lemma FailLawful(exact: bool, c: Conn, e: MqttError)
    ensures Follows(exact, c, Fail(c, e))
  {
    hide Lawful;
    if IsV5(c) {
      var r := SendDisconnect(c, Disconnect(Some(e), 1), true);
      SendDisconnectLawful(exact, c, Disconnect(Some(e), 1), true);
      Quiet(exact, r.c, [NotifyError(e)]);
      Chain(exact, c, r, R(r.c, [NotifyError(e)]));
    } else {
      Quiet(exact, c, Fail(c, e).ev);
    }
  }

  lemma {:induction false} ResendLawful(exact: bool, c: Conn, s: seq<StorePacket>)
    requires KeyOf(c).open
    requires exact ==> forall i :: 0 <= i < |s| ==> Fits(c, s[i])
    ensures Follows(exact, c, Resend(c, s))
    decreases |s|
  {
    if s != [] {
      var id := IdOf(s[0]);
      if Fits(c, s[0]) {
        SendLawful(exact, KeyOf(c), ToPacket(s[0]), None);
        ResendLawful(exact, c, s[1..]);
        Chain(exact, c, R(c, [RequestSendPacket(ToPacket(s[0]), None)]), Resend(c, s[1..]));
      } else if Freeable(c, id) {
        var c1 := c.(ids := c.ids.(used := c.ids.used - {id}));
        assert [NotifyPacketIdReleased(id)][1..] == [];
        ResendLawful(exact, c1, s[1..]);
        Chain(exact, c, R(c1, [NotifyPacketIdReleased(id)]), Resend(c1, s[1..]));
      } else {
        ResendLawful(exact, Panic(c), s[1..]);
      }
    }
  }

  lemma SendStoredLawful(exact: bool, c: Conn)
    requires KeyOf(c).open && (exact ==> AllFit(c))
    ensures Follows(exact, c, SendStored(c))
  {
    ResendLawful(exact, c, c.session.store);
  }

  /** Every stored packet is within the limit of the peer. */
  predicate AllFit(c: Conn) { forall i :: 0 <= i < |c.session.store| ==> Fits(c, c.session.store[i]) }

  /** A silent change that leaves the key alone, except that a connection may go down. */
  lemma Silent(exact: bool, c: Conn, c': Conn)
    requires ArmedOf(c') == ArmedOf(c) && c'.ids.used == c.ids.used && (KeyOf(c').open ==> KeyOf(c).open)
    requires c'.opt.role == c.opt.role && c'.version == c.version
    ensures Follows(exact, c, R(c', []))
  {
  }

  /** One timer request that switches exactly its own flag. */
  lemma OneTimer(exact: bool, c: Conn, e: Event, c': Conn)
    requires e.RequestTimerReset? || e.RequestTimerCancel?
    requires e.RequestTimerReset? ==> e.ms > 0
    requires e.RequestTimerCancel? ==> Get(ArmedOf(c), e.kind)
    requires ArmedOf(c') == Set(ArmedOf(c), e.kind, e.RequestTimerReset?) && c'.ids.used == c.ids.used
    requires KeyOf(c').open == KeyOf(c).open && c'.opt.role == c.opt.role && c'.version == c.version
    ensures Follows(exact, c, R(c', [e]))
  {
    assert [e][1..] == [];
  }

  /** Properties leave the session, the identifiers and the status alone. */
  predicate SameSession(c: Conn, c': Conn) {
    c'.opt == c.opt && c'.version == c.version && c'.status == c.status && c'.ids == c.ids
    && c'.session.store == c.session.store && c'.session.handled == c.session.handled
  }

  lemma SentPropFrame(c: Conn, prop: Prop, connect: bool)
    ensures var r := SentProp(c, prop, connect);
      SameSession(c, r.c) && r.c.flow.maxSend == c.flow.maxSend && (connect ==> r.ev == [])
  {
  }

  lemma ReceivedPropFrame(c: Conn, prop: Prop, connect: bool)
    ensures var r := ReceivedProp(c, prop, connect); SameSession(c, r.c) && (connect ==> r.ev == [])
  {
  }

  lemma {:induction false} SentPropsLawful(exact: bool, c: Conn, props: seq<Prop>, connect: bool)
    ensures var r := ApplySentProps(c, props, connect);
      && Follows(exact, c, r) && (connect ==> r.ev == [])
      && SameSession(c, r.c) && r.c.flow.maxSend == c.flow.maxSend
    decreases |props|
  {
    if props == [] {
      Quiet(exact, c, []);
    } else {
      hide Lawful, SentProp;
      var r := SentProp(c, props[0], connect);
      assert Follows(exact, c, SentProp(c, props[0], connect)) by {
        hide Lawful;
        var r := SentProp(c, props[0], connect);
        if r.ev == [] { Silent(exact, c, r.c); } else { OneTimer(exact, c, r.ev[0], r.c); }
      }
      SentPropFrame(c, props[0], connect);
      SentPropsLawful(exact, r.c, props[1..], connect);
      Chain(exact, c, r, ApplySentProps(r.c, props[1..], connect));
    }
  }

  lemma {:induction false} ReceivedPropsLawful(exact: bool, c: Conn, props: seq<Prop>, connect: bool)
    ensures var r := ApplyReceivedProps(c, props, connect);
      && Follows(exact, c, r) && (connect ==> r.ev == [])
      && SameSession(c, r.c)
    decreases |props|
  {
    if props == [] {
      Quiet(exact, c, []);
    } else {
      hide Lawful, ReceivedProp;
      var r := ReceivedProp(c, props[0], connect);
      assert Follows(exact, c, ReceivedProp(c, props[0], connect)) by {
        hide Lawful;
        var r := ReceivedProp(c, props[0], connect);
        if r.ev == [] { Silent(exact, c, r.c); } else { OneTimer(exact, c, r.ev[0], r.c); }
      }
      ReceivedPropFrame(c, props[0], connect);
      ReceivedPropsLawful(exact, r.c, props[1..], connect);
      Chain(exact, c, r, ApplyReceivedProps(r.c, props[1..], connect));
    }
  }

  /** The state from which the events of a call follow: identifiers that a new session wipes out are
      gone without a report. */
  function Wiped(c: Conn, wipe: bool): Conn { if wipe then ClearSession(c) else c }

  lemma AcceptLawful(exact: bool, c: Conn, p: Packet)
    requires p.Connack? && p.accepted
    ensures Follows(exact, c, R(c.(status := Connected), [RequestSendPacket(p, None)]))
  {
    var ev := [RequestSendPacket(p, None)];
    assert Accepts(ev[0]) && ev[1..] == [];
  }

  lemma SendConnackLawful(exact: bool, c: Conn, p: Packet)
    requires p.Connack?
    requires exact && p.accepted && c.status.Connecting? && !TooLarge(c, p) ==> AllFit(c)
    ensures Follows(exact, c, SendConnack(c, p))
  {
    var r := SendConnack(c, p);
    var send := [RequestSendPacket(p, None)];
    if TooLarge(c, p) || !c.status.Connecting? {
      Quiet(exact, c, r.ev);
    } else if !p.accepted {
      hide Lawful;
      var c1 := c.(status := Disconnected);
      var r1 := CancelTimers(c1);
      Quiet(exact, c, send);
      Silent(exact, c, c1);
      assert send + [] == send;
      Chain(exact, c, R(c, send), R(c1, []));
      CancelLawful(exact, c1);
      Quiet(exact, r1.c, [RequestClose]);
      Chain(exact, c1, r1, R(r1.c, [RequestClose]));
      Chain(exact, c, R(c1, send), R(r1.c, r1.ev + [RequestClose]));
    } else {
      hide Lawful;
      var r1 := if IsV5(c) then ApplySentProps(c, p.props, false) else R(c, []);
      if IsV5(c) { SentPropsLawful(exact, c, p.props, false); } else { Silent(exact, c, c); }
      var c2 := r1.c.(status := Connected);
      AcceptLawful(exact, r1.c, p);
      Chain(exact, c, r1, R(c2, send));
      SendStoredLawful(exact, c2);
      Chain(exact, c, R(c2, r1.ev + send), SendStored(c2));
      PostSendLawful(exact, SendStored(c2).c);
      Chain(exact, c, R(SendStored(c2).c, r1.ev + send + SendStored(c2).ev), PostSend(SendStored(c2).c));
    }
  }

  lemma GreetingKey(c: Conn, p: Packet)
    requires p.Connect? && c.status.Disconnected?
    ensures KeyOf(Greeting(c, p)) == KeyOf(Wiped(c, p.clean))
  {
    var c1 := Initialize(c, true).(status := Connecting);
    var c2 := c1.(timers := c1.timers.(keepAliveMs := p.keepAlive * 1000));
    var c3 := if p.clean then ClearSession(c2) else c2;
    SentPropsLawful(false, c3, p.props, true);
  }

  lemma WelcomedKey(c: Conn, p: Packet)
    requires p.Connect? && c.status.Disconnected?
    ensures KeyOf(Welcomed(c, p)) == KeyOf(Wiped(c, p.clean))
  {
    var c1 := Initialize(c, false).(status := Connecting);
    var c2 := if p.keepAlive > 0 then c1.(timers := c1.timers.(recvTimeoutMs := p.keepAlive * 1000 * 3 / 2)) else c1;
    var c3 := if p.clean then ClearSession(c2) else c2;
    ReceivedPropsLawful(false, c3, p.props, true);
  }

  lemma SendConnectLawful(exact: bool, c: Conn, p: Packet)
    requires p.Connect? && !c.opt.role.Server?
    ensures Follows(exact, Wiped(c, c.status.Disconnected? && !TooLarge(c, p) && p.clean), SendConnect(c, p))
  {
    hide Lawful, Greeting;
    if TooLarge(c, p) || !c.status.Disconnected? {
      Quiet(exact, c, SendConnect(c, p).ev);
    } else {
      GreetingKey(c, p);
      SendNowLawful(exact, Greeting(c, p), p, None);
    }
  }

  lemma SendCountedLawful(exact: bool, c: Conn, p: Publish, release: Option<nat>)
    ensures Follows(exact, c, SendCounted(c, p, release))
  {
    hide Lawful;
    if !p.qos.AtMostOnce? && c.flow.sendMax.Some? && c.flow.sendCount == c.flow.sendMax.value {
      RefuseAndReleaseLawful(exact, c, ReceiveMaximumExceeded, p.pid);
    } else {
      var c1 := if !p.qos.AtMostOnce? && c.flow.sendMax.Some? then
                  if c.flow.sendCount == 0xFFFF then Panic(c)
                      else c.(flow := c.flow.(sendCount := c.flow.sendCount + 1))
                else c;
      if IsConnected(c) { SendNowLawful(exact, c1, PublishPacket(p), release); } else { Silent(exact, c, c1); }
    }
  }

  lemma RefusePublishLawful(exact: bool, c: Conn, e: MqttError, p: Publish)
    ensures Follows(exact, c, RefusePublish(c, e, p))
  {
    hide Lawful;
    Quiet(exact, c, [NotifyError(e)]);
    RefuseAndReleaseLawful(exact, c, e, p.pid);
  }

  lemma SendAliasedLawful(exact: bool, c: Conn, p: Publish, release: Option<nat>, validated: bool)
    ensures Follows(exact, c, SendAliased(c, p, release, validated))
  {
    hide Lawful;
    var c1 := ResolveAlias(c, p.alias).0;
    RefusePublishLawful(exact, c1, PacketNotAllowedToSend, p);
    RefusePublishLawful(exact, c, PacketNotAllowedToSend, p);
    SendCountedLawful(exact, c, p, release);
    SendCountedLawful(exact, c1, p, release);
    if p.topic != [] && p.alias.Some? {
      SendCountedLawful(exact, BindAlias(c, p.topic, p.alias.value), p, release);
    } else if p.topic != [] && c.alias.send.Some? {
      var m := c.alias.send.value;
      var a := if FindByTopic(m, p.topic).Some? then FindByTopic(m, p.topic).value else LruAlias(m);
      SendCountedLawful(exact, c, ByAlias(p, a), release);
      SendCountedLawful(exact, BindAlias(c, p.topic, a), ByAlias(p, a), release);
    }
  }

  lemma SendPublishLawful(exact: bool, c: Conn, p: Publish)
    ensures Follows(exact, c, SendPublish(c, p))
  {
    hide Lawful, SendPublishV5;
    if IsV5(c) { SendPublishV5Lawful(exact, c, p); } else { SendPublishV3Lawful(exact, c, p); }
  }

  lemma SendPublishV3Lawful(exact: bool, c: Conn, p: Publish)
    ensures Follows(exact, c, SendPublishV3(c, p))
  {
    hide Lawful, SendNow, RefuseAndRelease;
    if p.qos.AtMostOnce? {
      if IsConnected(c) { SendNowLawful(exact, c, PublishPacket(p), None); }
      else { Quiet(exact, c, [NotifyError(PacketNotAllowedToSend)]); }
    } else if !MayPublish(c) {
      RefuseAndReleaseLawful(exact, c, PacketNotAllowedToSend, p.pid);
    } else if !IsUsed(c, p.pid) {
      Quiet(exact, c, [NotifyError(PacketIdentifierInvalid)]);
    } else {
      var c1 := Await(if Stores(c) then Keep(c, StoredPublish(V3_1_1, p.(dup := true))) else c, p);
      assert KeyOf(c1) == KeyOf(c);
      if IsConnected(c) { SendNowLawful(exact, c1, PublishPacket(p), if Stores(c) then None else Some(p.pid)); }
      else { Silent(exact, c, c1); }
    }
  }

  lemma SendPublishV5Lawful(exact: bool, c: Conn, p: Publish)
    ensures Follows(exact, c, SendPublishV5(c, p))
  {
    hide Lawful, SendAliased, RefuseAndRelease;
    if TooLarge(c, PublishPacket(p)) {
      Quiet(exact, c, [NotifyError(PacketTooLarge)]);
    } else if p.qos.AtMostOnce? {
      Quiet(exact, c, [NotifyError(PacketNotAllowedToSend)]);
      SendAliasedLawful(exact, c, p, None, false);
    } else if !MayPublish(c) {
      RefuseAndReleaseLawful(exact, c, PacketNotAllowedToSend, p.pid);
    } else if !IsUsed(c, p.pid) {
      Quiet(exact, c, [NotifyError(PacketIdentifierInvalid)]);
    } else if !Stores(c) {
      SendAliasedLawful(exact, Await(c, p), p, Some(p.pid), false);
    } else if p.topic != [] {
      SendAliasedLawful(exact, Await(Keep(c, StoredPublish(V5_0, p.(alias := None, dup := true))), p), p, None, false);
    } else {
      var (c1, t) := ResolveAlias(c, p.alias);
      assert KeyOf(c1) == KeyOf(c);
      if t.None? {
        RefuseAndReleaseLawful(exact, c1, PacketNotAllowedToSend, p.pid);
      } else {
        var c2 := if HasWildcard(t.value) then Panic(c1)
                  else Keep(c1, StoredPublish(V5_0, p.(topic := t.value, alias := None, dup := true)));
        SendAliasedLawful(exact, Await(c2, p), p, None, true);
      }
    }
  }

  lemma SendWhenConnectedLawful(exact: bool, c: Conn, p: Packet)
    ensures Follows(exact, c, SendWhenConnected(c, p))
  {
    hide Lawful;
    if TooLarge(c, p) || !IsConnected(c) { Quiet(exact, c, SendWhenConnected(c, p).ev); }
    else { SendNowLawful(exact, AfterResponse(c, p), p, None); }
  }

  lemma SendPubrelLawful(exact: bool, c: Conn, p: Packet)
    requires p.Pubrel?
    ensures Follows(exact, c, SendPubrel(c, p))
  {
    hide Lawful;
    if TooLarge(c, p) || (!IsConnected(c) && !c.session.needStore) || !IsUsed(c, p.pid) {
      Quiet(exact, c, SendPubrel(c, p).ev);
    } else {
      var c1 := if c.session.needStore then Keep(c, StoredPubrel(c.version, p.pid, p.rc, p.rem)) else c;
      PostSendLawful(exact, c1);
      if IsConnected(c) { SendNowLawful(exact, c1.(ids := c1.ids.(pubcomp := c1.ids.pubcomp + {p.pid})), p, None); }
    }
  }

  lemma SendRequestLawful(exact: bool, c: Conn, p: Packet)
    requires p.Subscribe? || p.Unsubscribe?
    ensures Follows(exact, c, SendRequest(c, p))
  {
    hide Lawful;
    RefuseAndReleaseLawful(exact, c, PacketNotAllowedToSend, p.pid);
    if TooLarge(c, p) || (IsConnected(c) && !IsUsed(c, p.pid)) { Quiet(exact, c, SendRequest(c, p).ev); }
    else if IsConnected(c) {
      var c1 := if p.Subscribe? then c.(ids := c.ids.(suback := c.ids.suback + {p.pid}))
          else c.(ids := c.ids.(unsuback := c.ids.unsuback + {p.pid}));
      SendNowLawful(exact, c1, p, Some(p.pid));
    }
  }

  lemma SendPingreqLawful(exact: bool, c: Conn)
    ensures Follows(exact, c, SendPingreq(c))
  {
    var r := SendPingreq(c);
    if TooLarge(c, Pingreq) || !IsConnected(c) {
      Quiet(exact, c, r.ev);
    } else if c.timers.respTimeoutMs == 0 {
      SendNowLawful(exact, c, Pingreq, None);
    } else {
      var c1 := c.(timers := c.timers.(respSet := true));
      var e1, e2 := RequestSendPacket(Pingreq, None), RequestTimerReset(PingrespRecv, c.timers.respTimeoutMs);
      SendLawful(exact, KeyOf(c), Pingreq, None);
      TimerLawful(exact, KeyOf(c), e2, KeyOf(c1));
      Chain(exact, c, R(c, [e1]), R(c1, [e2]));
      assert [e1] + [e2] == [e1, e2];
      PostSendLawful(exact, c1);
      Chain(exact, c, R(c1, [e1, e2]), PostSend(c1));
    }
  }

  /** Does this CONNECT, sent or received, or this CONNACK start a session afresh? */
  predicate Wipes(c: Conn, op: Op) {
    match op
    case OpSend(v, p) =>
      && c.version == v && !v.Undetermined? && RoleMaySend(c.opt.role, v, p)
      && p.Connect? && p.clean && c.status.Disconnected? && !TooLarge(c, p)
    case OpReceive(f) => f.Good? && Arrives(c, f) &&
      ((f.packet.Connect? && f.packet.clean && c.status.Disconnected?)
       || (f.packet.Connack? && f.packet.accepted && !f.packet.sessionPresent))
    case _ => false
  }

  /** The state from which a call resends the store, if it does. */
  function Resending(c: Conn, op: Op): Option<Conn> {
    match op
    case OpSend(v, p) =>
      if c.version == v && !v.Undetermined? && RoleMaySend(c.opt.role, v, p)
         && p.Connack? && p.accepted && c.status.Connecting? && !TooLarge(c, p)
      then Some(c) else None
    case OpReceive(f) =>
      if f.Good? && Arrives(c, f) && f.packet.Connack? && f.packet.accepted && f.packet.sessionPresent
      then Some(Informed(c, f.packet)) else None
    case _ => None
  }

  /** The call resends nothing, or everything that is stored. */
  predicate Undropped(c: Conn, op: Op) {
    var from := Resending(c, op);
    from.Some? ==> forall k :: 0 <= k < |c.session.store| ==> Fits(from.value, c.session.store[k])
  }

  /** A connection of undetermined version takes the version of the CONNECT it receives. */
  function Settled(c: Conn, f: Frame): Conn {
    if c.version.Undetermined? && TotalSize(FrameLength(c.version, f)) <= c.flow.maxRecv && CanReceive(c, FrameType(f))
       && FrameType(f) == 1 && FrameLength(c.version, f) >= 7 && (f.level == 4 || f.level == 5)
    then c.(version := if f.level == 4 then V3_1_1 else V5_0) else c
  }

  lemma SendLawfulAll(exact: bool, c: Conn, v: Version, p: Packet)
    requires exact ==> Undropped(c, OpSend(v, p))
    ensures Follows(exact, Wiped(c, Wipes(c, OpSend(v, p))), Send(c, v, p))
  {
    hide Lawful, Follows, RoleMaySend, Dispatch, Undropped;
    if v.Undetermined? || c.version != v || (p.Auth? && !v.V5_0?) || !RoleMaySend(c.opt.role, v, p) {
      Quiet(exact, c, Send(c, v, p).ev);
    } else {
      DispatchLawful(exact, c, v, p);
    }
  }

  lemma DispatchLawful(exact: bool, c: Conn, v: Version, p: Packet)
    requires (exact ==> Undropped(c, OpSend(v, p))) && c.version == v && !v.Undetermined? && (p.Auth? ==> v.V5_0?)
        && RoleMaySend(c.opt.role, v, p)
    ensures Follows(exact, Wiped(c, Wipes(c, OpSend(v, p))), Dispatch(c, p))
  {
    hide Lawful, SendConnect, SendConnack, SendPublish, SendPubrel, SendRequest, SendPingreq, SendDisconnect,
        SendWhenConnected;
    match p
    case Connect(_, _, _, _) => SendConnectLawful(exact, c, p);
    case Connack(_, _, _, _) => SendConnackLawful(exact, c, p);
    case PublishPacket(pub) => SendPublishLawful(exact, c, pub);
    case Pubrel(_, _, _) => SendPubrelLawful(exact, c, p);
    case Subscribe(_, _) => SendRequestLawful(exact, c, p);
    case Unsubscribe(_, _) => SendRequestLawful(exact, c, p);
    case Pingreq => SendPingreqLawful(exact, c);
    case Disconnect(_, _) => SendDisconnectLawful(exact, c, p, IsV5(c));
    case Auth(_) =>
      Quiet(exact, c, [NotifyError(PacketTooLarge)]);
      Quiet(exact, c, [NotifyError(PacketNotAllowedToSend)]);
      SendNowLawful(exact, c, p, None);
    case _ => SendWhenConnectedLawful(exact, c, p);
  }

  // ---------------------------------------------------------------- receiving

  lemma FinishLawful(exact: bool, c: Conn, id: nat, p: Packet, counted: bool)
    ensures Follows(exact, c, Finish(c, id, p, counted))
  {
    hide Lawful, Release, Deliver;
    var r := Release(c, id);
    var c1 := if counted then FreeSlot(r.c) else r.c;
    assert KeyOf(c1) == KeyOf(r.c);
    ReleaseLawful(exact, c, id);
    DeliverLawful(exact, c1, p);
    Chain(exact, c, r, Deliver(c1, p));
  }

  lemma RespondLawful(exact: bool, c: Conn, p: Packet)
    requires p.Puback? || p.Pubrec? || p.Pubcomp?
    ensures Follows(exact, c, Respond(c, p))
  {
    hide Lawful;
    Silent(exact, c, Panic(c));
    SendWhenConnectedLawful(exact, c, p);
  }

  /** A response, if one is due, followed by the delivery or by a mere timer refresh. */
  lemma RespondThenLawful(exact: bool, c: Conn, c1: Conn, r: R, p: Packet, again: bool)
    requires KeyOf(c1) == KeyOf(c) && Follows(exact, c1, r)
    ensures Follows(exact, c, Before(r.ev, if again then RefreshRecv(r.c) else Deliver(r.c, p)))
  {
    hide Lawful;
    RefreshLawful(exact, r.c);
    DeliverLawful(exact, r.c, p);
    Chain(exact, c, r, if again then RefreshRecv(r.c) else Deliver(r.c, p));
  }

  lemma ReceivePublishV3Lawful(exact: bool, c: Conn, p: Publish)
    ensures Follows(exact, c, ReceivePublishV3(c, p))
  {
    hide Lawful, Respond, RefreshRecv, Deliver;
    match p.qos
    case AtMostOnce => DeliverLawful(exact, c, PublishPacket(p));
    case AtLeastOnce =>
      var answer := Puback(p.pid, None, 2);
      RespondLawful(exact, c, answer);
      Silent(exact, c, c);
      RespondThenLawful(exact, c, c, if IsConnected(c) && c.opt.autoPub then Respond(c, answer) else R(c, []),
                        PublishPacket(p), false);
    case ExactlyOnce =>
      var again := p.pid in c.session.handled;
      var c1 := c.(session := c.session.(handled := c.session.handled + {p.pid}));
      var answer := Pubrec(p.pid, None, 2);
      RespondLawful(exact, c1, answer);
      Silent(exact, c1, c1);
      RespondThenLawful(exact, c, c1,
                        if IsConnected(c) && (c.opt.autoPub || again) then Respond(c1, answer) else R(c1, []),
                        PublishPacket(p), again);
  }

  lemma AcceptPublishLawful(exact: bool, c: Conn, p: Publish, respond: bool, again: bool)
    ensures Follows(exact, c, AcceptPublish(c, p, respond, again))
  {
    hide Lawful, Respond, RefreshRecv, Deliver;
    var answer := if p.qos.AtLeastOnce? then Puback(p.pid, None, 2) else Pubrec(p.pid, None, 2);
    RespondLawful(exact, c, answer);
    Silent(exact, c, c);
    RespondThenLawful(exact, c, c, if respond then Respond(c, answer) else R(c, []), PublishPacket(p), again);
  }

  lemma ReceiveTopicLawful(exact: bool, c: Conn, p: Publish, respond: bool, again: bool)
    ensures Follows(exact, c, ReceiveTopic(c, p, respond, again))
  {
    hide Lawful, AcceptPublish, Fail;
    FailLawful(exact, c, TopicAliasInvalid);
    AcceptPublishLawful(exact, c, p, respond, again);
    if p.alias.Some? && RecvAliasValid(c, p.alias.value) {
      var m := c.alias.recv.value;
      if p.topic != [] {
        var c1 := c.(alias := c.alias.(recv := Some(m.(aliases := m.aliases[p.alias.value := p.topic]))));
        AcceptPublishLawful(exact, c1, p, respond, again);
      } else if RecvGet(m, p.alias.value).Some? {
        AcceptPublishLawful(exact, c, p.(topic := RecvGet(m, p.alias.value).value, extracted := true), respond, again);
      }
    }
  }

  lemma ReceivePublishV5Lawful(exact: bool, c: Conn, p: Publish)
    ensures Follows(exact, c, ReceivePublishV5(c, p))
  {
    hide Lawful, ReceiveTopic, Fail;
    FailLawful(exact, c, ReceiveMaximumExceeded);
    var c1 := c.(flow := c.flow.(publishRecv := c.flow.publishRecv + {p.pid}));
    var again := p.pid in c.session.handled;
    ReceiveTopicLawful(exact, c, p, false, false);
    ReceiveTopicLawful(exact, c1, p, c.opt.autoPub && IsConnected(c), false);
    ReceiveTopicLawful(exact, c1.(session := c1.session.(handled := c1.session.handled + {p.pid})), p,
                       IsConnected(c) && (c.opt.autoPub || again), again);
  }

  lemma ReceiveAckLawful(exact: bool, c: Conn, p: Packet)
    requires p.Puback? || p.Pubcomp? || p.Suback? || p.Unsuback?
    ensures Follows(exact, c, ReceivePacket(c, p))
  {
    hide Lawful, Finish, Fail, Erase;
    FailLawful(exact, c, ProtocolError);
    var id := p.pid;
    var c1 := match p {
      case Puback(_, _, _) =>
        c.(ids := c.ids.(puback := c.ids.puback - {id}),
           session := c.session.(store := Erase(c.session.store, Response(c.version, AwaitPuback), id)))
      case Pubcomp(_, _, _) =>
        c.(ids := c.ids.(pubcomp := c.ids.pubcomp - {id}),
           session := c.session.(store := Erase(c.session.store, Response(c.version, AwaitPubcomp), id)))
      case Suback(_, _) => c.(ids := c.ids.(suback := c.ids.suback - {id}))
      case _ => c.(ids := c.ids.(unsuback := c.ids.unsuback - {id}))
    };
    assert KeyOf(c1) == KeyOf(c);
    FinishLawful(exact, c1, id, p, p.Puback? || p.Pubcomp?);
  }

  lemma ReceivePubrecLawful(exact: bool, c: Conn, p: Packet)
    requires p.Pubrec?
    ensures Follows(exact, c, ReceivePubrec(c, p))
  {
    hide Lawful, Finish, Fail, Erase, SendPubrel, Deliver;
    FailLawful(exact, c, ProtocolError);
    var c1 := c.(ids := c.ids.(pubrec := c.ids.pubrec - {p.pid}),
                 session := c.session.(store := Erase(c.session.store, Response(c.version, AwaitPubrec), p.pid)));
    assert KeyOf(c1) == KeyOf(c);
    FinishLawful(exact, c1, p.pid, p, true);
    SendPubrelLawful(exact, c1, Pubrel(p.pid, None, 2));
    Silent(exact, c1, c1);
    RespondThenLawful(exact, c, c1,
                      if c.opt.autoPub && IsConnected(c) then SendPubrel(c1, Pubrel(p.pid, None, 2))
                          else R(c1, []), p, false);
  }

  lemma ReceiveConnackLawful(exact: bool, c: Conn, p: Packet)
    requires p.Connack? && !c.opt.role.Server?
    requires exact && p.accepted && p.sessionPresent ==> AllFit(Informed(c, p))
    ensures Follows(exact, Wiped(c, p.accepted && !p.sessionPresent), ReceiveConnack(c, p))
  {
    hide Lawful, SendStored, AllFit;
    if !p.accepted {
      Quiet(exact, c, [NotifyPacketReceived(p)]);
    } else {
      var c0 := Wiped(c, !p.sessionPresent);
      var c1 := c.(status := Connected);
      var r := if IsV5(c) then ApplyReceivedProps(c1, p.props, false) else R(c1, []);
      ReceivedPropsLawful(exact, c1, p.props, false);
      Silent(exact, c1, c1);
      var s := if p.sessionPresent then SendStored(r.c) else R(ClearSession(r.c), []);
      var w := R(Wiped(r.c, !p.sessionPresent), r.ev);
      WipeLawful(exact, c1, r);
      assert KeyOf(c0) == KeyOf(Wiped(c1, !p.sessionPresent));
      if p.sessionPresent { SendStoredLawful(exact, r.c); } else { Silent(exact, w.c, w.c); }
      Chain(exact, c0, w, s);
      Quiet(exact, s.c, [NotifyPacketReceived(p)]);
      Chain(exact, c0, R(s.c, r.ev + s.ev), R(s.c, [NotifyPacketReceived(p)]));
    }
  }

  /** Events that release nothing mean the same from a wiped state. */
  lemma WipeLawful(exact: bool, c: Conn, r: R)
    requires Follows(exact, c, r) && r.c.ids == c.ids
    ensures Follows(exact, Wiped(c, true), R(Wiped(r.c, true), r.ev))
  {
  }

  lemma ReceiveBadConnectLawful(exact: bool, c: Conn, e: MqttError)
    ensures Follows(exact, c, ReceiveBadConnect(c, e))
  {
    hide Lawful, SendConnack, Fail;
    if !c.status.Disconnected? {
      FailLawful(exact, c, ProtocolError);
    } else {
      var c1 := c.(status := Connecting);
      var r := SendConnack(c1, Connack(false, false, [], if IsV5(c) then 3 else 2));
      SendConnackLawful(exact, c1, Connack(false, false, [], if IsV5(c) then 3 else 2));
      Quiet(exact, r.c, [NotifyError(e)]);
      Chain(exact, c, r, R(r.c, [NotifyError(e)]));
    }
  }

  lemma ReceivePingLawful(exact: bool, c: Conn, p: Packet)
    requires p.Pingreq? || p.Pingresp? || p.Disconnect?
    ensures Follows(exact, c, ReceivePacket(c, p))
  {
    hide Lawful, SendWhenConnected, Deliver, CancelTimers;
    var n := [NotifyPacketReceived(p)];
    match p
    case Pingreq =>
      Silent(exact, c, c);
      SendWhenConnectedLawful(exact, c, Pingresp);
      RespondThenLawful(exact, c, c,
        if !c.opt.role.Client? && !c.opt.isClient && c.opt.autoPing && IsConnected(c)
        then SendWhenConnected(c, Pingresp) else R(c, []), Pingreq, false);
    case Pingresp =>
      Quiet(exact, c, n);
      if c.timers.respSet {
        var c1 := c.(timers := c.timers.(respSet := false));
        OneTimer(exact, c, RequestTimerCancel(PingrespRecv), c1);
        Quiet(exact, c1, n);
        Chain(exact, c, R(c1, [RequestTimerCancel(PingrespRecv)]), R(c1, n));
        assert [RequestTimerCancel(PingrespRecv)] + n == [RequestTimerCancel(PingrespRecv), NotifyPacketReceived(p)];
      }
    case _ =>
      CancelLawful(exact, c);
      Quiet(exact, CancelTimers(c).c, n);
      Chain(exact, c, CancelTimers(c), R(CancelTimers(c).c, n));
  }

  lemma ReceivePacketLawful(exact: bool, c: Conn, p: Packet)
    requires p.Connack? ==> !c.opt.role.Server?
    requires exact && p.Connack? && p.accepted && p.sessionPresent ==> AllFit(Informed(c, p))
    ensures Follows(exact, Wiped(c, (p.Connect? && p.clean && c.status.Disconnected?)
                                    || (p.Connack? && p.accepted && !p.sessionPresent)), ReceivePacket(c, p))
  {
    hide Lawful, Deliver, AllFit;
    match p
    case Connect(_, _, _, _) =>
      assert Follows(exact, Wiped(c, p.clean && c.status.Disconnected?), ReceiveConnect(c, p)) by {
        hide Lawful, Fail, Deliver, Welcomed;
        if !c.status.Disconnected? {
          FailLawful(exact, c, ProtocolError);
        } else {
          WelcomedKey(c, p);
          DeliverLawful(exact, Welcomed(c, p), p);
        }
      }
    case Connack(_, _, _, _) => ReceiveConnackLawful(exact, c, p);
    case PublishPacket(pub) => ReceivePublishV5Lawful(exact, c, pub); ReceivePublishV3Lawful(exact, c, pub);
    case Pubrec(_, _, _) => ReceivePubrecLawful(exact, c, p);
    case Pubrel(_, _, _) =>
      assert Follows(exact, c, ReceivePubrel(c, p)) by {
        hide Lawful, Respond, Deliver;
        var c1 := c.(session := c.session.(handled := c.session.handled - {p.pid}));
        var answer := if IsV5(c) && p.pid !in c.session.handled then Pubcomp(p.pid, Some(0x92), 3)
            else Pubcomp(p.pid, None, 2);
        RespondLawful(exact, c1, answer);
        Silent(exact, c1, c1);
        RespondThenLawful(exact, c, c1, if c.opt.autoPub && IsConnected(c) then Respond(c1, answer)
            else R(c1, []), p, false);
      }
    case Puback(_, _, _) => ReceiveAckLawful(exact, c, p);
    case Pubcomp(_, _, _) => ReceiveAckLawful(exact, c, p);
    case Suback(_, _) => ReceiveAckLawful(exact, c, p);
    case Unsuback(_, _) => ReceiveAckLawful(exact, c, p);
    case Pingreq => ReceivePingLawful(exact, c, p);
    case Pingresp => ReceivePingLawful(exact, c, p);
    case Disconnect(_, _) => ReceivePingLawful(exact, c, p);
    case _ => DeliverLawful(exact, c, p);
  }

  lemma ReceiveFrameLawful(exact: bool, c: Conn, f: Frame)
    requires f.Good? && f.packet.Connack? ==> !c.opt.role.Server?
    requires exact && f.Good? && f.packet.Connack? && f.packet.accepted && f.packet.sessionPresent ==>
      AllFit(Informed(c, f.packet))
    ensures Follows(exact, Wiped(c, f.Good? && ((f.packet.Connect? && f.packet.clean && c.status.Disconnected?)
              || (f.packet.Connack? && f.packet.accepted && !f.packet.sessionPresent))), ReceiveFrame(c, f))
  {
    hide Lawful, ReceivePacket, Fail, ReceiveBadConnect, AllFit;
    match f
    case Good(p, _, _) => ReceivePacketLawful(exact, c, p);
    case Bad(t, e, _, _) =>
      ReceiveBadConnectLawful(exact, c, e);
      Quiet(exact, c, [NotifyError(e)]);
      FailLawful(exact, c, e);
  }

  lemma ReceiveLawful(exact: bool, c: Conn, f: Frame)
    requires exact ==> Undropped(c, OpReceive(f))
    ensures Follows(exact, Wiped(Settled(c, f), Wipes(c, OpReceive(f))), Receive(c, f))
  {
    hide Lawful, ReceiveFrame, SendDisconnect;
    var r := Receive(c, f);
    if TotalSize(FrameLength(c.version, f)) > c.flow.maxRecv {
      var d := Disconnect(Some(PacketTooLarge), 1);
      SendDisconnectLawful(exact, c, d, true);
      Quiet(exact, SendDisconnect(c, d, true).c, [NotifyError(PacketTooLarge)]);
      Chain(exact, c, SendDisconnect(c, d, true), R(SendDisconnect(c, d, true).c, [NotifyError(PacketTooLarge)]));
    } else if CanReceive(c, FrameType(f)) && c.version.Undetermined? && FrameType(f) == 1
        && FrameLength(c.version, f) >= 7
              && (f.level == 4 || f.level == 5) {
      ReceiveFrameLawful(exact, c.(version := if f.level == 4 then V3_1_1 else V5_0), f);
    } else if CanReceive(c, FrameType(f)) && !c.version.Undetermined? && 1 <= FrameType(f) <= 15
              && !(FrameType(f) == 15 && c.version.V3_1_1?) {
      if f.Good? && f.packet.Connack? {
        assert SameSession(c.(status := Connected), Informed(c, f.packet)) by {
          ReceivedPropsLawful(false, c.(status := Connected), f.packet.props, false);
        }
        hide Informed; }
      ReceiveFrameLawful(exact, c, f);
    } else {
      Quiet(exact, c, r.ev);
    }
  }

  // ---------------------------------------------------------------- every call

  lemma TimerFiredLawful(exact: bool, c: Conn, k: TimerKind)
    ensures Follows(exact, Disarm(c, k), TimerFired(c, k))
  {
    hide Lawful, SendPingreq, SendDisconnect;
    var c1 := Disarm(c, k);
    Silent(exact, c1, c1);
    Silent(exact, c1, Panic(c1));
    Quiet(exact, c1, [RequestClose]);
    SendPingreqLawful(exact, c1);
    SendDisconnectLawful(exact, c1, Disconnect(Some(KeepAliveTimeout), 1), true);
  }

  lemma DropPublishesLawful(exact: bool, c: Conn, o: DrainOrder)
    ensures Follows(exact, c, DropPublishes(c, o))
  {
    hide Lawful, Drain;
    var r1 := Drain(c.(session := c.session.(handled := {}), ids := c.ids.(puback := {})), o.ack);
    DrainLawful(exact, c.(session := c.session.(handled := {}), ids := c.ids.(puback := {})), o.ack);
    var r2 := Drain(r1.c.(ids := r1.c.ids.(pubrec := {})), o.rec);
    DrainLawful(exact, r1.c.(ids := r1.c.ids.(pubrec := {})), o.rec);
    Chain(exact, c, r1, r2);
    var r3 := Drain(r2.c.(ids := r2.c.ids.(pubcomp := {})), o.comp);
    DrainLawful(exact, r2.c.(ids := r2.c.ids.(pubcomp := {})), o.comp);
    Chain(exact, c, R(r2.c, r1.ev + r2.ev), r3);
    assert r1.ev + r2.ev + r3.ev == r1.ev + (r2.ev + r3.ev);
  }

  lemma ClosedLawful(exact: bool, c: Conn, o: DrainOrder)
    ensures Follows(exact, c, Closed(c, o))
  {
    hide Lawful, Drain, DropPublishes, CancelTimers;
    var c1 := c.(flow := c.flow.(maxSend := NO_SIZE_LIMIT, maxRecv := NO_SIZE_LIMIT), status := Disconnected,
                 alias := c.alias.(send := None, recv := None));
    Silent(exact, c, c1);
    var c2 := c1.(ids := c1.ids.(suback := {}));
    var r1 := Drain(c2, o.sub);
    DrainLawful(exact, c2, o.sub);
    assert KeyOf(c2) == KeyOf(c1) && [] + r1.ev == r1.ev;
    Chain(exact, c, R(c2, []), r1);
    var c3 := r1.c.(ids := r1.c.ids.(unsuback := {}));
    var r2 := Drain(c3, o.unsub);
    DrainLawful(exact, c3, o.unsub);
    assert KeyOf(c3) == KeyOf(r1.c);
    Chain(exact, c, r1, r2);
    hide KeyOf;
    var r3 := if c.session.needStore then R(r2.c, []) else DropPublishes(r2.c, o);
    Silent(exact, r2.c, r2.c);
    DropPublishesLawful(exact, r2.c, o);
    Chain(exact, c, R(r2.c, r1.ev + r2.ev), r3);
    CancelLawful(exact, r3.c);
    Chain(exact, c, R(r3.c, r1.ev + r2.ev + r3.ev), CancelTimers(r3.c));
  }

  lemma OtherLawful(exact: bool, c: Conn, op: Op)
    requires op.OpFrameError? || op.OpInterval? || op.OpOfflinePublish? || op.OpAutoPub? || op.OpAutoPing?
          || op.OpAutoMap? || op.OpAutoReplace? || op.OpRespTimeout? || op.OpRelease? || op.OpRestoreHandled?
    ensures Follows(exact, c, Step(c, op))
  {
    hide CancelTimers, Lawful, Receive, Release, Send, TimerFired;
    var r := Step(c, op);
    match op
    case OpFrameError(e) =>
      CancelLawful(exact, c);
      Quiet(exact, CancelTimers(c).c, [RequestClose, NotifyError(e)]);
      Chain(exact, c, CancelTimers(c), R(CancelTimers(c).c, [RequestClose, NotifyError(e)]));
    case OpInterval(ms) =>
      if r.ev == [] { Silent(exact, c, r.c); } else { OneTimer(exact, c, r.ev[0], r.c); }
    case OpRelease(id) => ReleaseLawful(exact, c, id);
    case _ => Silent(exact, c, r.c);
  }

  /** The state the events of a call follow from: a timer that fired is no longer armed, and a new
      session starts without identifiers. */
  function Entry(c: Conn, op: Op): Conn {
    match op
    case OpTimer(k) => Disarm(c, k)
    case OpReceive(f) => Wiped(Settled(c, f), Wipes(c, op))
    case _ => Wiped(c, Wipes(c, op))
  }

  /** Calls that only take identifiers out of the pool; they produce no event. */
  predicate TakesIds(op: Op) { op.OpAcquire? || op.OpRegister? || op.OpRestorePackets? }

  /** Every call of either version obeys the timer law and the gate law, and the release law too unless it
      resends a store that the peer cannot take. */
  lemma StepLawful(exact: bool, c: Conn, op: Op)
    requires !TakesIds(op)
    requires exact ==> Undropped(c, op)
    ensures Follows(exact, Entry(c, op), Step(c, op))
  {
    hide Lawful, Send, Receive, TimerFired, Closed, Undropped;
    match op
    case OpSend(v, p) => SendLawfulAll(exact, c, v, p);
    case OpReceive(f) => ReceiveLawful(exact, c, f);
    case OpTimer(k) => TimerFiredLawful(exact, c, k);
    case OpClosed(o) => ClosedLawful(exact, c, o);
    case _ => OtherLawful(exact, c, op);
  }
}
