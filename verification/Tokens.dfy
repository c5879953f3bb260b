/** The packets of publish exchanges, and counting them in a channel. */
module Tokens {
  import opened Packets

  predicate IsQos2(p: Packet) { p.PublishPacket? && p.pub.qos.ExactlyOnce? }

  predicate IsQos1(p: Packet) { p.PublishPacket? && p.pub.qos.AtLeastOnce? }

  /** A PUBLISH that is answered. */
  predicate Counted(p: Packet) { p.PublishPacket? && !p.pub.qos.AtMostOnce? }

  datatype Token = TQos1 | TQos2 | TCounted | TPuback | TPubrec | TPubrel | TPubcomp

  predicate Is(p: Packet, t: Token, i: nat) {
    match t
    case TQos1 => IsQos1(p) && p.pub.pid == i
    case TQos2 => IsQos2(p) && p.pub.pid == i
    case TCounted => Counted(p) && p.pub.pid == i
    case TPuback => p.Puback? && p.pid == i
    case TPubrec => p.Pubrec? && p.pid == i
    case TPubrel => p.Pubrel? && p.pid == i
    case TPubcomp => p.Pubcomp? && p.pid == i
  }

  predicate IsToken(p: Packet) { Counted(p) || p.Puback? || p.Pubrec? || p.Pubrel? || p.Pubcomp? }

  predicate NoTokens(ps: seq<Packet>) { forall k :: 0 <= k < |ps| ==> !IsToken(ps[k]) }

  function Count(ps: seq<Packet>, t: Token, i: nat): nat {
    if ps == [] then 0 else (if Is(ps[0], t, i) then 1 else 0) + Count(ps[1..], t, i)
  }

  lemma {:induction false} CountAppend(ps: seq<Packet>, qs: seq<Packet>, t: Token, i: nat)
    ensures Count(ps + qs, t, i) == Count(ps, t, i) + Count(qs, t, i)
  {
    if ps == [] {
      assert ps + qs == qs;
    } else {
      assert (ps + qs)[1..] == ps[1..] + qs;
      CountAppend(ps[1..], qs, t, i);
    }
  }

  lemma {:induction false} CountNone(ps: seq<Packet>, t: Token, i: nat)
    requires forall p :: p in ps ==> !Is(p, t, i)
    ensures Count(ps, t, i) == 0
  {
    if ps != [] { CountNone(ps[1..], t, i); }
  }

  lemma {:induction false} CountZero(ps: seq<Packet>, t: Token, i: nat)
    requires Count(ps, t, i) == 0
    ensures forall p :: p in ps ==> !Is(p, t, i)
  {
    if ps != [] { CountZero(ps[1..], t, i); }
  }

  lemma CountMember(ps: seq<Packet>, p: Packet, t: Token, i: nat)
    requires p in ps && Is(p, t, i)
    ensures Count(ps, t, i) > 0
  {
    if Count(ps, t, i) == 0 { CountZero(ps, t, i); }
  }

  lemma CountHead(ps: seq<Packet>, t: Token, i: nat)
    requires ps != []
    ensures Count(ps, t, i) == (if Is(ps[0], t, i) then 1 else 0) + Count(ps[1..], t, i)
  {
  }

  lemma CountOne(p: Packet, t: Token, i: nat)
    ensures Count([p], t, i) == if Is(p, t, i) then 1 else 0
  {
    assert [p][1..] == [];
  }

  lemma NoTokensCount(ps: seq<Packet>, i: nat)
    requires NoTokens(ps)
    ensures forall t :: Count(ps, t, i) == 0
  {
    forall t ensures Count(ps, t, i) == 0 { CountNone(ps, t, i); }
  }
}
