/** The laws of single calls, carried over to whole runs: for every sequence of calls of the host. */
module Runs {
  import opened Packets
  import opened Store
  import opened Engine
  import opened Frames
  import opened Laws
  import opened Session
  import Framing

  /** What an observer sees: timers that fire, CONNECTs that a server takes up, and events. */
  datatype Obs = Fired(kind: TimerKind) | Greeted | Ev(event: Event)

  /** The call makes the connection take up a CONNECT. */
  predicate TakesConnect(c: Conn, op: Op) {
    && op.OpReceive? && op.frame.Good? && op.frame.packet.Connect?
    && Arrives(c, op.frame) && c.status.Disconnected?
  }

  function Marks(c: Conn, op: Op): seq<Obs> {
    if op.OpTimer? then [Fired(op.kind)] else if TakesConnect(c, op) then [Greeted] else []
  }

  function Wrap(ev: seq<Event>): seq<Obs> {
    if ev == [] then [] else [Ev(ev[0])] + Wrap(ev[1..])
  }

  function Observe(c: Conn, op: Op): seq<Obs> { Marks(c, op) + Wrap(Step(c, op).ev) }

  function Trace(c: Conn, ops: seq<Op>): seq<Obs>
    decreases |ops|
  {
    if ops == [] then [] else Observe(c, ops[0]) + Trace(Step(c, ops[0]).c, ops[1..])
  }

  function Final(c: Conn, ops: seq<Op>): Conn
    decreases |ops|
  {
    if ops == [] then c else Final(Step(c, ops[0]).c, ops[1..])
  }

  lemma {:induction false} WrapAt(ev: seq<Event>)
    ensures |Wrap(ev)| == |ev| && forall k :: 0 <= k < |ev| ==> Wrap(ev)[k] == Ev(ev[k])
  {
    if ev != [] { WrapAt(ev[1..]); }
  }

  // ---------------------------------------------------------------- timers

  /** Was the timer left armed by the last thing that happened to it? `a` is where it started. */
  predicate LeftArmed(a: bool, t: seq<Obs>, k: TimerKind) {
    if t == [] then a
    else match t[|t| - 1] {
      case Ev(RequestTimerReset(j, _)) => if j == k then true else LeftArmed(a, t[..|t| - 1], k)
      case Ev(RequestTimerCancel(j)) => if j == k then false else LeftArmed(a, t[..|t| - 1], k)
      case Fired(j) => if j == k then false else LeftArmed(a, t[..|t| - 1], k)
      case _ => LeftArmed(a, t[..|t| - 1], k)
    }
  }

  /** Every cancellation is for a timer that is armed at that point, every duration is positive. */
  ghost predicate TimersSound(a: Armed, t: seq<Obs>) {
    forall n :: 0 <= n < |t| ==>
      match t[n]
      case Ev(RequestTimerCancel(k)) => LeftArmed(Get(a, k), t[..n], k)
      case Ev(RequestTimerReset(k, ms)) => ms > 0
      case _ => true
  }

  ghost predicate TimersMirror(a: Armed, t: seq<Obs>, b: Armed) {
    TimersSound(a, t) && forall k :: Get(b, k) == LeftArmed(Get(a, k), t, k)
  }

  lemma {:induction false} LeftArmedAppend(a: bool, t: seq<Obs>, u: seq<Obs>, k: TimerKind)
    ensures LeftArmed(a, t + u, k) == LeftArmed(LeftArmed(a, t, k), u, k)
    decreases |u|
  {
    if u == [] {
      assert t + u == t;
    } else {
      assert (t + u)[..|t + u| - 1] == t + u[..|u| - 1];
      LeftArmedAppend(a, t, u[..|u| - 1], k);
    }
  }

  lemma MirrorAppend(a: Armed, t: seq<Obs>, b: Armed, u: seq<Obs>, d: Armed)
    requires TimersMirror(a, t, b) && TimersMirror(b, u, d)
    ensures TimersMirror(a, t + u, d)
  {
    forall k ensures Get(d, k) == LeftArmed(Get(a, k), t + u, k) { LeftArmedAppend(Get(a, k), t, u, k); }
    forall n | 0 <= n < |t + u|
      ensures match (t + u)[n]
        case Ev(RequestTimerCancel(k)) => LeftArmed(Get(a, k), (t + u)[..n], k)
        case Ev(RequestTimerReset(k, ms)) => ms > 0
        case _ => true
    {
      if n < |t| {
        assert (t + u)[n] == t[n] && (t + u)[..n] == t[..n];
      } else {
        assert (t + u)[n] == u[n - |t|] && (t + u)[..n] == t + u[..n - |t|];
        if (t + u)[n].Ev? && (t + u)[n].event.RequestTimerCancel? {
          LeftArmedAppend(Get(a, (t + u)[n].event.kind), t, u[..n - |t|], (t + u)[n].event.kind);
        }
      }
    }
  }

  lemma {:induction false} RunMirrors(a: Armed, ev: seq<Event>, b: Armed)
    requires TimerRun(a, ev, b)
    ensures TimersMirror(a, Wrap(ev), b)
    decreases |ev|
  {
    if ev != [] {
      var mid := match ev[0] {
        case RequestTimerReset(k, _) => Set(a, k, true)
        case RequestTimerCancel(k) => Set(a, k, false)
        case _ => a
      };
      RunMirrors(mid, ev[1..], b);
      assert [ev[0]][1..] == [];
      assert TimersMirror(a, [Ev(ev[0])], mid) by {
        assert [ev[0]][1..] == [] && [Ev(ev[0])][..0] == [];
        forall k ensures Get(mid, k) == LeftArmed(Get(a, k), [Ev(ev[0])], k) {}
      }
      MirrorAppend(a, [Ev(ev[0])], mid, Wrap(ev[1..]), b);
    }
  }

  lemma {:induction false} RestoreFrame(c: Conn, ps: seq<StorePacket>)
    ensures var d := RestorePackets(c, ps);
      d.timers == c.timers && d.opt == c.opt && d.version == c.version && d.status == c.status
      && d.session.handled == c.session.handled && d.flow == c.flow && d.panicked == c.panicked
      && c.ids.used <= d.ids.used
    decreases |ps|
  {
    if ps != [] { RestoreFrame(RestoreOne(c, ps[0]), ps[1..]); }
  }

  lemma StepMirrors(c: Conn, op: Op)
    ensures TimersMirror(ArmedOf(c), Observe(c, op), ArmedOf(Step(c, op).c))
  {
    hide Dispatch, ReceiveFrame;
    assert TimersMirror(ArmedOf(c), Marks(c, op), ArmedOf(Entry(c, op))) by {
      var t := Marks(c, op);
      if t != [] { assert t[..0] == []; }
      forall k ensures Get(ArmedOf(Entry(c, op)), k) == LeftArmed(Get(ArmedOf(c), k), t, k) {}
    }
    if TakesIds(op) {
      if op.OpRestorePackets? { RestoreFrame(c, op.packets); }
      assert Step(c, op).ev == [] && Wrap([]) == [];
      assert ArmedOf(Step(c, op).c) == ArmedOf(c);
      assert Observe(c, op) == [];
    } else {
      hide Step, Entry;
      StepLawful(false, c, op);
      RunMirrors(ArmedOf(Entry(c, op)), Step(c, op).ev, ArmedOf(Step(c, op).c));
      MirrorAppend(ArmedOf(c), Marks(c, op), ArmedOf(Entry(c, op)), Wrap(Step(c, op).ev), ArmedOf(Step(c, op).c));
    }
  }

  /** In every run of either version, each timer flag is set exactly when the last timer request or
      firing of that kind left the timer armed; only armed timers are cancelled and no timer is set to
      a duration of zero. */
  lemma {:induction false} TimersFollowEvents(c: Conn, ops: seq<Op>)
    ensures TimersMirror(ArmedOf(c), Trace(c, ops), ArmedOf(Final(c, ops)))
    decreases |ops|
  {
    hide Step, Observe, TimersMirror;
    if ops == [] {
      EmptyMirror(ArmedOf(c));
    } else {
      var d := Step(c, ops[0]).c;
      StepMirrors(c, ops[0]);
      TimersFollowEvents(d, ops[1..]);
      MirrorAppend(ArmedOf(c), Observe(c, ops[0]), ArmedOf(d), Trace(d, ops[1..]), ArmedOf(Final(c, ops)));
    }
  }

  lemma EmptyMirror(a: Armed)
    ensures TimersMirror(a, [], a)
  {
  }

  // ---------------------------------------------------------------- a server waits for acceptance

  /** Some acceptance is on record and no CONNECT was taken up after it. */
  ghost predicate Accepted(t: seq<Obs>) {
    exists j :: 0 <= j < |t| && t[j].Ev? && Accepts(t[j].event) && forall i :: j < i < |t| ==> !t[i].Greeted?
  }

  ghost predicate Waits(t: seq<Obs>, from: nat) {
    forall n :: from <= n < |t| && t[n].Ev? && NeedsAcceptance(t[n].event) ==> Accepted(t[..n])
  }

  /** Acceptance stays on record until a CONNECT is taken up. */
  lemma AcceptedAppend(t: seq<Obs>, u: seq<Obs>)
    requires forall i :: 0 <= i < |u| ==> !u[i].Greeted?
    ensures Accepted(t) ==> Accepted(t + u)
    ensures (exists j :: 0 <= j < |u| && u[j].Ev? && Accepts(u[j].event)) ==> Accepted(t + u)
  {
    if Accepted(t) {
      var j :| 0 <= j < |t| && t[j].Ev? && Accepts(t[j].event) && forall i :: j < i < |t| ==> !t[i].Greeted?;
      assert (t + u)[j] == t[j];
    }
    if exists j :: 0 <= j < |u| && u[j].Ev? && Accepts(u[j].event) {
      var j :| 0 <= j < |u| && u[j].Ev? && Accepts(u[j].event);
      assert (t + u)[|t| + j] == u[j];
    }
  }

  /** The events of one call of a server, after the trace `t`. */
  lemma EventsWait(t: seq<Obs>, ev: seq<Event>, open: bool)
    requires GateOk(open, ev) && (open ==> Accepted(t))
    ensures Waits(t + Wrap(ev), |t|)
    ensures open || HasAcceptance(ev) ==> Accepted(t + Wrap(ev))
  {
    WrapAt(ev);
    var u := Wrap(ev);
    forall n | |t| <= n < |t + u| && (t + u)[n].Ev?
        && NeedsAcceptance((t + u)[n].event) ensures Accepted((t + u)[..n]) {
      var k := n - |t|;
      assert (t + u)[..n] == t + u[..k] && (t + u)[n] == u[k];
      AcceptedAppend(t, u[..k]);
      if !open {
        assert NeedsAcceptance(ev[k]);
        var j :| 0 <= j < k && Accepts(ev[j]);
        assert u[..k][j].Ev?;
      }
    }
    AcceptedAppend(t, u);
    if HasAcceptance(ev) {
      var j :| 0 <= j < |ev| && Accepts(ev[j]);
      assert u[j].Ev?;
    }
  }

  lemma ServerStep(t: seq<Obs>, c: Conn, op: Op)
    requires c.opt.role.Server? && (IsConnected(c) ==> Accepted(t))
    ensures Waits(t + Observe(c, op), |t|)
    ensures var d := Step(c, op).c; d.opt.role.Server? && (IsConnected(d) ==> Accepted(t + Observe(c, op)))
  {
    hide Step;
    var marks := Marks(c, op);
    var t1 := t + marks;
    if TakesIds(op) {
      IdsOnly(c, op);
      assert marks == [] && Observe(c, op) == [] && t + [] == t;
    } else {
      assert var r := Step(c, op);
        r.c.opt.role.Server? && GateOk(IsConnected(c), r.ev)
        && (IsConnected(r.c) ==> IsConnected(c) || HasAcceptance(r.ev)) by {
        hide Step;
        StepLawful(false, c, op);
        assert Entry(c, op).status == c.status && Entry(c, op).opt == c.opt;
        hide Step, Entry, TimerRun, GateOk, HasAcceptance;
      }
      assert (IsConnected(c) && Accepted(t) ==> Accepted(t + Marks(c, op)))
          && (forall k :: 0 <= k < |Marks(c, op)| ==> !Marks(c, op)[k].Ev?) by {
        if !TakesConnect(c, op) { AcceptedAppend(t, Marks(c, op)); }
      }
      var ev := Step(c, op).ev;
      assert t + Observe(c, op) == t1 + Wrap(ev);
      hide Marks, GateOk, Accepted, Waits, Observe, TakesConnect;
      EventsWait(t1, ev, IsConnected(c));
      assert Waits(t + marks + Wrap(ev), |t|) by {
        var full := t + marks + Wrap(ev);
        forall n | |t| <= n < |t + marks| ensures !full[n].Ev? {
          assert full[n] == marks[n - |t|];
        }
      }
    }
  }

  lemma IdsOnly(c: Conn, op: Op)
    requires TakesIds(op)
    ensures var r := Step(c, op);
      r.ev == [] && r.c.opt == c.opt && r.c.status == c.status
  {
    hide Receive, Send, TimerFired;
    if op.OpRestorePackets? { RestoreFrame(c, op.packets); hide RestorePackets; }
  }

  lemma {:induction false} ServerWaitsFrom(t: seq<Obs>, c: Conn, ops: seq<Op>)
    requires c.opt.role.Server? && (IsConnected(c) ==> Accepted(t))
    ensures Waits(t + Trace(c, ops), |t|)
    decreases |ops|
  {
    hide Step, Observe;
    if ops != [] {
      var o := Observe(c, ops[0]);
      var d := Step(c, ops[0]).c;
      ServerStep(t, c, ops[0]);
      ServerWaitsFrom(t + o, d, ops[1..]);
      var full := t + Trace(c, ops);
      assert full == t + o + Trace(d, ops[1..]);
      forall n | |t| <= n < |full| && full[n].Ev? && NeedsAcceptance(full[n].event) ensures Accepted(full[..n]) {
        if n < |t + o| { assert full[n] == (t + o)[n] && full[..n] == (t + o)[..n]; }
      }
    }
  }

  /** In every run of a server, every packet it sends but CONNACK and AUTH comes after a CONNACK that
      accepts the client, and no other CONNECT was taken up in between. */
  lemma ServerWaits(v: Version, ops: seq<Op>)
    ensures Waits(Trace(New(Server, v), ops), 0)
  {
    hide Step;
    ServerWaitsFrom([], New(Server, v), ops);
    assert [] + Trace(New(Server, v), ops) == Trace(New(Server, v), ops);
  }

  // ---------------------------------------------------------------- consistency

  function Events(c: Conn, ops: seq<Op>): seq<Event>
    decreases |ops|
  {
    if ops == [] then [] else Step(c, ops[0]).ev + Events(Step(c, ops[0]).c, ops[1..])
  }

  /** Every call respects what hosts and peers of a v3.1.1 connection have to respect. */
  ghost predicate AllAllowed(c: Conn, ops: seq<Op>)
    decreases |ops|
  {
    ops == [] || (Allowed(c, ops[0]) && AllAllowed(Step(c, ops[0]).c, ops[1..]))
  }

  /** No v3.1.1 run ever breaks consistency, so no assert or unwrap fails in it. */
  lemma {:induction false} RunStaysConsistent(c: Conn, ops: seq<Op>)
    requires Consistent(c) && AllAllowed(c, ops)
    ensures Consistent(Final(c, ops)) && !Final(c, ops).panicked
    decreases |ops|
  {
    hide Step;
    if ops != [] {
      hide Step, Allowed;
      StepKeeps(c, ops[0]);
      RunStaysConsistent(Step(c, ops[0]).c, ops[1..]);
    }
  }

  // ---------------------------------------------------------------- before the version is known

  /** Nothing can have happened on a connection whose version is not known. */
  predicate Unsettled(c: Conn) {
    c.version.Undetermined? ==> c.status.Disconnected? && ArmedOf(c) == Armed(false, false, false)
  }

  /** The host fires only timers it was asked to set. */
  predicate FiresArmed(c: Conn, op: Op) { op.OpTimer? ==> Get(ArmedOf(c), op.kind) }

  /** The call runs into an arm that the implementation declares unreachable. */
  predicate HitsUnreachable(c: Conn, op: Op) {
    op.OpTimer? && c.version.Undetermined? && (op.kind.PingreqSend? ==> IsConnected(c))
  }

  lemma UnsettledStep(c: Conn, op: Op)
    requires Unsettled(c) && FiresArmed(c, op)
    ensures Unsettled(Step(c, op).c) && !HitsUnreachable(c, op)
  {
    hide Step;
    if c.version.Undetermined? {
      EarlyStep(c, op);
    } else if TakesIds(op) {
      IdsOnly(c, op);
      TakesNothing(c, op);
      hide Step;
    } else {
      hide Step;
      StepLawful(false, c, op);
    }
  }

  lemma TakesNothing(c: Conn, op: Op)
    requires TakesIds(op)
    ensures Step(c, op).c.version == c.version && Step(c, op).c.timers == c.timers
  {
    hide Receive, Send, TimerFired;
    if op.OpRestorePackets? { RestoreFrame(c, op.packets); hide RestorePackets; }
  }

  lemma EarlyStep(c: Conn, op: Op)
    requires Unsettled(c) && FiresArmed(c, op) && c.version.Undetermined?
    ensures Unsettled(Step(c, op).c) && !HitsUnreachable(c, op)
  {
    hide Dispatch, ReceiveBadConnect, ReceivePacket;
    match op
    case OpReceive(f) =>
      hide ReceiveFrame;
      if Settled(c, f) == c {
        assert Receive(c, f).c == c;
      } else {
        StepLawful(false, c, op);
      }
    case OpClosed(o) => ClosedMoves(c, o); hide Closed;
    case OpRestorePackets(ps) => RestoreFrame(c, ps); hide RestorePackets;
    case OpSend(_, _) => hide Dispatch;
    case _ =>
  }

  ghost predicate AllArmed(c: Conn, ops: seq<Op>)
    decreases |ops|
  {
    ops == [] || (FiresArmed(c, ops[0]) && AllArmed(Step(c, ops[0]).c, ops[1..]))
  }

  ghost predicate NeverUnreachable(c: Conn, ops: seq<Op>)
    decreases |ops|
  {
    ops == [] || (!HitsUnreachable(c, ops[0]) && NeverUnreachable(Step(c, ops[0]).c, ops[1..]))
  }

  /** The arms of the PUBLISH handlers for packet data in the form of another type are dead as well, whatever
      the bytes: a packet of type 3 always comes in the publish form. */
  ghost predicate PublishArmsDead(results: seq<Framing.BuildResult>) {
    forall k :: 0 <= k < |results| && results[k].Complete? && Framing.PacketType(results[k].packet) == 3
      ==> results[k].packet.data.PublishData?
  }

  /** In every run in which only armed timers fire, and on every byte stream, no arm that is declared
      unreachable is reached. */
  lemma NoUnreachableArm(role: Role, v: Version, ops: seq<Op>, stream: seq<Byte>)
    requires AllArmed(New(role, v), ops)
    ensures NeverUnreachable(New(role, v), ops) && PublishArmsDead(Framing.Frames(stream).outs)
  {
    hide Step;
    UnreachableIsDead(New(role, v), ops);
    var outs := Framing.Frames(stream).outs;
    forall k | 0 <= k < |outs| && outs[k].Complete? && Framing.PacketType(outs[k].packet) == 3
      ensures outs[k].packet.data.PublishData?
    {
      Framing.PublishDataIsType3(stream, k);
    }
  }

  /** In every run in which only armed timers fire, the arms for an undetermined version are dead. */
  lemma {:induction false} UnreachableIsDead(c: Conn, ops: seq<Op>)
    requires Unsettled(c) && AllArmed(c, ops)
    ensures NeverUnreachable(c, ops) && Unsettled(Final(c, ops))
    decreases |ops|
  {
    hide Step;
    if ops != [] {
      hide Step;
      UnsettledStep(c, ops[0]);
      UnreachableIsDead(Step(c, ops[0]).c, ops[1..]);
    }
  }
}
