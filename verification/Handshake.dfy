/** A v5.0 client and a v5.0 server after their handshake: where the runs of flow control and of topic aliases
    start. */
module Handshake {
  import opened Packets
  import opened TopicAlias
  import opened Store
  import opened Engine

  function Hello(props: seq<Prop>): Packet { Connect(true, 0, props, 20) }

  function Welcome(props: seq<Prop>): Packet { Connack(true, false, props, 20) }

  function Begin(role: Role, autoMap: bool): Conn {
    Step(Step(New(role, V5_0), OpAutoPub(true)).c, OpAutoMap(autoMap)).c
  }

  /** The ends after a CONNECT with properties `pc` and a CONNACK with properties `ps`. */
  function ClientAt(autoMap: bool, pc: seq<Prop>, ps: seq<Prop>): Conn {
    Step(Step(Begin(Client, autoMap), OpSend(V5_0, Hello(pc))).c, Arrival(Welcome(ps))).c
  }

  function ServerAt(pc: seq<Prop>, ps: seq<Prop>): Conn {
    Step(Step(Begin(Server, false), Arrival(Hello(pc))).c, OpSend(V5_0, Welcome(ps))).c
  }

  /** An end of the connection with nothing sent yet. */
  function End(client: bool, autoMap: bool, alias: Aliases, sendMax: Option<nat>, recvMax: Option<nat>): Conn {
    Conn(Options(if client then Client else Server, client, false, true, false, autoMap, false), V5_0, Connected,
         Ids({}, {}, {}, {}, {}, {}), Engine.Session(false, [], {}), alias,
         Flow(sendMax, recvMax, 0, {}, NO_SIZE_LIMIT, NO_SIZE_LIMIT),
         Timers(None, 0, None, 0, 0, false, false, false), false)
  }

  /** A list of at most one property. */
  lemma FewProps(c: Conn, props: seq<Prop>, connect: bool)
    requires |props| <= 1
    ensures ApplySentProps(c, props, connect).c == if props == [] then c else SentProp(c, props[0], connect).c
    ensures ApplyReceivedProps(c, props, connect).c == if props == [] then c else ReceivedProp(c, props[0], connect).c
  {
    if props != [] { assert props[1..] == []; }
  }

  predicate Announced(pc: seq<Prop>, prop: Prop) {
    if prop.ReceiveMaximum? then prop.val >= 1 && |pc| == 1 && pc[0].ReceiveMaximum? && pc[0].val >= 1
    else prop.TopicAliasMaximum? && prop.max >= 1 && pc == []
  }

  lemma ClientIs(autoMap: bool, pc: seq<Prop>, prop: Prop)
    requires Announced(pc, prop)
    ensures ClientAt(autoMap, pc, [prop]) ==
      if prop.ReceiveMaximum? then End(true, autoMap, Aliases(None, None), Some(prop.val), Some(pc[0].val))
      else End(true, autoMap, Aliases(Some(NewSend(prop.max)), None), None, None)
  {
    hide NewSend, ApplySentProps, ApplyReceivedProps, Begin;
    AskedIs(autoMap, pc, prop);
    var c := Step(Begin(Client, autoMap), OpSend(V5_0, Hello(pc))).c;
    FewProps(c.(status := Connected), [prop], false);
    hide Send;
  }

  lemma AskedIs(autoMap: bool, pc: seq<Prop>, prop: Prop)
    requires Announced(pc, prop)
    ensures Step(Begin(Client, autoMap), OpSend(V5_0, Hello(pc))).c ==
      End(true, autoMap, Aliases(None, None), None, if pc == [] then None else Some(pc[0].val)).(status := Connecting)
  {
    hide ApplySentProps;
    FewProps(ClearSession(Initialize(Begin(Client, autoMap), true).(status := Connecting)), pc, true);
  }

  lemma ServerIs(pc: seq<Prop>, prop: Prop)
    requires Announced(pc, prop)
    ensures ServerAt(pc, [prop]) ==
      if prop.ReceiveMaximum? then End(false, false, Aliases(None, None), Some(pc[0].val), Some(prop.val))
      else End(false, false, Aliases(None, Some(AliasRecv(prop.max, map[]))), None, None)
  {
    hide ApplySentProps, ApplyReceivedProps;
    FewProps(ClearSession(Initialize(Begin(Server, false), false).(status := Connecting)), pc, true);
    var c := Step(Begin(Server, false), Arrival(Hello(pc))).c;
    assert c == End(false, false, Aliases(None, None), if pc == [] then None else Some(pc[0].val), None).(
      status := Connecting);
    FewProps(c, [prop], false);
    var d := SentProp(c, prop, false).c.(status := Connected);
    assert Resend(d, []).c == d && Sendable(d, []) == [];
  }
}
