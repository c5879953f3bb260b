/** Restoring the stored packets of an earlier session into a new connection. */
module Restoring {
  import opened Packets
  import opened Store
  import opened Engine
  import opened Session

  /** The identifiers of the packets that await this kind of response. */
  function Awaiting(ps: seq<StorePacket>, k: ResponseKind): set<nat> {
    set i | 0 <= i < |ps| && ResponseOf(ps[i]).kind == k :: IdOf(ps[i])
  }

  function IdsOf(ps: seq<StorePacket>): set<nat> { set i | 0 <= i < |ps| :: IdOf(ps[i]) }

  /** What `get_stored_packets` can give: distinct identifiers, none 0, no QoS 0. */
  ghost predicate Restorable(ps: seq<StorePacket>) {
    && Distinct(ps)
    && forall k :: 0 <= k < |ps| ==> InRange(IdOf(ps[k])) && (ps[k].StoredPublish? ==> !ps[k].pub.qos.AtMostOnce?)
  }

  lemma {:induction false} RestoreLast(c: Conn, ps: seq<StorePacket>, p: StorePacket)
    ensures RestorePackets(c, ps + [p]) == RestoreOne(RestorePackets(c, ps), p)
    decreases |ps|
  {
    if ps == [] {
      assert ps + [p] == [p] && [p][1..] == [];
    } else {
      assert (ps + [p])[1..] == ps[1..] + [p];
      RestoreLast(RestoreOne(c, ps[0]), ps[1..], p);
    }
  }

  /** What the restored connection looks like. */
  ghost predicate Restored(c: Conn, ps: seq<StorePacket>, d: Conn) {
    && d.session == c.session.(store := ps) && d.ids.used == IdsOf(ps)
    && d.ids.puback == Awaiting(ps, AwaitPuback) && d.ids.pubrec == Awaiting(ps, AwaitPubrec)
    && d.ids.pubcomp == Awaiting(ps, AwaitPubcomp)
    && d == c.(session := d.session, ids := d.ids) && d.ids.suback == c.ids.suback && d.ids.unsuback == c.ids.unsuback
  }

  /** A connection that uses no identifier and stores nothing. */
  predicate Blank(c: Conn) {
    c.session.store == [] && c.ids.used == {} && c.ids.puback == {} && c.ids.pubrec == {} && c.ids.pubcomp == {}
  }

  /** The store equals the list, in order; the identifiers in use are exactly those of the list; and the
      three publish sets split them by the response each packet waits for. */
  lemma {:induction false} RestoreGives(c: Conn, ps: seq<StorePacket>)
    requires Blank(c) && Restorable(ps)
    ensures Restored(c, ps, RestorePackets(c, ps))
    decreases |ps|
  {
    if ps != [] {
      var n := |ps| - 1;
      var init, p := ps[..n], ps[n];
      assert ps == init + [p];
      RestoreGives(c, init);
      RestoreLast(c, init, p);
      hide RestorePackets, RestoreOne, Restored;
      OneMoreRestored(c, init, p, RestorePackets(c, init));
    }
  }

  lemma OneMoreRestored(c: Conn, init: seq<StorePacket>, p: StorePacket, d: Conn)
    requires Restored(c, init, d) && Restorable(init + [p])
    ensures Restored(c, init + [p], RestoreOne(d, p))
  {
    var qs := init + [p];
    assert qs[|init|] == p;
    assert forall k :: 0 <= k < |init| ==> qs[k] == init[k] && IdOf(init[k]) != IdOf(p);
    assert !Has(init, IdOf(p)) && IdOf(p) !in IdsOf(init);
    assert InRange(IdOf(p)) && (p.StoredPublish? ==> !p.pub.qos.AtMostOnce?);
    SetsGrow(init, p, AwaitPuback);
    SetsGrow(init, p, AwaitPubrec);
    SetsGrow(init, p, AwaitPubcomp);
    hide Has, Awaiting, IdsOf, Restorable;
  }

  lemma SetsGrow(ps: seq<StorePacket>, p: StorePacket, k: ResponseKind)
    ensures Awaiting(ps + [p], k) == Awaiting(ps, k) + if ResponseOf(p).kind == k then {IdOf(p)} else {}
    ensures IdsOf(ps + [p]) == IdsOf(ps) + {IdOf(p)}
  {
    var qs := ps + [p];
    assert qs[|ps|] == p;
    forall i | 0 <= i < |ps| ensures qs[i] == ps[i] {}
    forall x | x in Awaiting(ps, k) ensures x in Awaiting(qs, k) {
      var i :| 0 <= i < |ps| && ResponseOf(ps[i]).kind == k && IdOf(ps[i]) == x;
      assert qs[i] == ps[i];
    }
    forall x | x in IdsOf(ps) ensures x in IdsOf(qs) {
      var i :| 0 <= i < |ps| && IdOf(ps[i]) == x;
      assert qs[i] == ps[i];
    }
  }

  /** The three sets are apart and together they are the identifiers in use. */
  lemma SetsPartition(ps: seq<StorePacket>)
    requires Restorable(ps)
    ensures Awaiting(ps, AwaitPuback) !! Awaiting(ps, AwaitPubrec) !! Awaiting(ps, AwaitPubcomp)
    ensures IdsOf(ps) == Awaiting(ps, AwaitPuback) + Awaiting(ps, AwaitPubrec) + Awaiting(ps, AwaitPubcomp)
  {
    forall x, j, k | x in Awaiting(ps, j) && x in Awaiting(ps, k) ensures j == k {
      var a :| 0 <= a < |ps| && ResponseOf(ps[a]).kind == j && IdOf(ps[a]) == x;
      var b :| 0 <= b < |ps| && ResponseOf(ps[b]).kind == k && IdOf(ps[b]) == x;
      assert a == b;
    }
    forall x | x in IdsOf(ps)
      ensures x in Awaiting(ps, AwaitPuback) + Awaiting(ps, AwaitPubrec) + Awaiting(ps, AwaitPubcomp)
    {
      var i :| 0 <= i < |ps| && IdOf(ps[i]) == x;
      assert x in Awaiting(ps, ResponseOf(ps[i]).kind);
    }
  }

  /** A session taken out of one v3.1.1 connection and put into a new one: the store is the same, and the
      identifiers in use are exactly the stored ones, each awaited as it was. */
  lemma SessionMoves(c: Conn, role: Role)
    requires Consistent(c)
    ensures var ps := c.session.store;
      var d := RestorePackets(New(role, V3_1_1), ps);
      && Restored(New(role, V3_1_1), ps, d) && IdsOk(d.ids) && StoreOk(d.ids, d.session.store)
      && d.ids.puback <= c.ids.puback && d.ids.pubrec <= c.ids.pubrec && d.ids.pubcomp <= c.ids.pubcomp
  {
    var ps := c.session.store;
    forall k | 0 <= k < |ps| ensures InRange(IdOf(ps[k])) && Awaited(c.ids, ps[k])
        && (ps[k].StoredPublish? ==> !ps[k].pub.qos.AtMostOnce?) {
      assert ps[k] in ps;
    }
    assert Restorable(ps);
    RestoreGives(New(role, V3_1_1), ps);
    SetsPartition(ps);
    var d := RestorePackets(New(role, V3_1_1), ps);
    hide RestorePackets;
    forall p | p in ps ensures Awaited(d.ids, p) {
      var k :| 0 <= k < |ps| && ps[k] == p;
      assert IdOf(p) in Awaiting(ps, ResponseOf(p).kind);
    }
  }
}
