/** The retransmission store: packets in the order they were added, at most one for an identifier. */
module PacketStore {
  import opened Store

  /** The packets that satisfy a test, in order. */
  function Filter(s: seq<StorePacket>, keep: StorePacket -> bool): seq<StorePacket> {
    if s == [] then [] else (if keep(s[0]) then [s[0]] else []) + Filter(s[1..], keep)
  }

  function Cut(s: seq<StorePacket>, id: nat): seq<StorePacket> {
    if s == [] then [] else if IdOf(s[0]) == id then s[1..] else [s[0]] + Cut(s[1..], id)
  }

  /** The packets whose identifier is not in a set, in order. */
  function Excluding(s: seq<StorePacket>, ids: set<nat>): seq<StorePacket> {
    if s == [] then [] else (if IdOf(s[0]) in ids then [] else [s[0]]) + Excluding(s[1..], ids)
  }

  lemma {:induction false} ExcludingNone(s: seq<StorePacket>, ids: set<nat>)
    requires forall k :: 0 <= k < |s| ==> IdOf(s[k]) !in ids
    ensures Excluding(s, ids) == s
  {
    if s != [] { ExcludingNone(s[1..], ids); }
  }

  lemma {:induction false} ExcludingSame(s: seq<StorePacket>, a: set<nat>, b: set<nat>)
    requires forall k :: 0 <= k < |s| ==> (IdOf(s[k]) in a <==> IdOf(s[k]) in b)
    ensures Excluding(s, a) == Excluding(s, b)
  {
    if s != [] { ExcludingSame(s[1..], a, b); }
  }

  /** Taking one more packet out. */
  lemma {:induction false} CutExcludes(s: seq<StorePacket>, ids: set<nat>, id: nat)
    requires Distinct(s) && id !in ids
    ensures Cut(Excluding(s, ids), id) == Excluding(s, ids + {id})
  {
    if s != [] {
      CutExcludes(s[1..], ids, id);
      if IdOf(s[0]) == id {
        ExcludingSame(s[1..], ids, ids + {id});
        assert ([s[0]] + Excluding(s[1..], ids))[1..] == Excluding(s[1..], ids);
      } else if IdOf(s[0]) !in ids {
        assert ([s[0]] + Excluding(s[1..], ids))[1..] == Excluding(s[1..], ids);
      } else {
        assert Excluding(s, ids) == Excluding(s[1..], ids);
      }
    }
  }

  lemma {:induction false} ExcludingIsFilter(s: seq<StorePacket>, ids: set<nat>, keep: StorePacket -> bool)
    requires forall k :: 0 <= k < |s| ==> (IdOf(s[k]) in ids <==> !keep(s[k]))
    ensures Excluding(s, ids) == Filter(s, keep)
  {
    if s != [] { ExcludingIsFilter(s[1..], ids, keep); }
  }

  lemma {:induction false} FilterDistinct(s: seq<StorePacket>, keep: StorePacket -> bool)
    requires Distinct(s)
    ensures Distinct(Filter(s, keep)) && forall p :: p in Filter(s, keep) ==> p in s
  {
    if s != [] {
      FilterDistinct(s[1..], keep);
      var t := Filter(s[1..], keep);
      forall j | 0 <= j < |t| ensures IdOf(t[j]) != IdOf(s[0]) { assert t[j] in s[1..]; }
    }
  }

  class PacketStore {
    var packets: seq<StorePacket>

    ghost predicate Valid() reads this { Distinct(packets) }

    constructor ()
      ensures Valid() && packets == []
    {
      packets := [];
    }

    /** Refuses an identifier that is stored already. */
    method Add(p: StorePacket) returns (ok: bool)
      requires Valid()
      modifies this
      ensures Valid() && ok == !Has(old(packets), IdOf(p))
      ensures packets == if ok then old(packets) + [p] else old(packets)
    {
      ok := !Has(packets, IdOf(p));
      if ok {
        forall k | 0 <= k < |packets| ensures IdOf(packets[k]) != IdOf(p) {}
        packets := packets + [p];
      }
    }

    /** Removes the packet stored under `id` if that is the response it waits for. */
    method EraseResponse(r: Response, id: nat) returns (gone: bool)
      requires Valid()
      modifies this
      ensures Valid() && packets == Erase(old(packets), r, id)
      ensures gone <==> Find(old(packets), id).Some? && ResponseOf(Find(old(packets), id).value) == r
    {
      FindHas(packets, id);
      EraseIs(packets, r, id);
      var hit := Find(packets, id);
      gone := hit.Some? && ResponseOf(hit.value) == r;
      if gone { packets := Cut(packets, id); }
    }

    method Clear()
      modifies this
      ensures Valid() && packets == []
    {
      packets := [];
    }

    /** Visits the packets in order, then removes those the visitor turned down: exactly the others stay,
        in their order. */
    method ForEach(keep: StorePacket -> bool)
      requires Valid()
      modifies this
      ensures Valid() && packets == Filter(old(packets), keep)
    {
      var toRemove: seq<nat> := [];
      ghost var all := packets;
      for i := 0 to |packets|
        invariant packets == all
        invariant forall k :: 0 <= k < i ==> (IdOf(all[k]) in toRemove <==> !keep(all[k]))
        invariant forall id :: id in toRemove ==> exists k :: 0 <= k < i && IdOf(all[k]) == id
        invariant forall a, b :: 0 <= a < b < |toRemove| ==> toRemove[a] != toRemove[b]
      {
        if !keep(packets[i]) { toRemove := toRemove + [IdOf(packets[i])]; }
      }
      ExcludingNone(all, {});
      ghost var gone: set<nat> := {};
      for k := 0 to |toRemove|
        invariant packets == Excluding(all, gone)
        invariant forall id :: id in gone <==> id in toRemove[..k]
      {
        CutExcludes(all, gone, toRemove[k]);
        gone := gone + {toRemove[k]};
        packets := Cut(packets, toRemove[k]);
      }
      ExcludingIsFilter(all, gone, keep);
      FilterDistinct(all, keep);
    }

    method GetStored() returns (ps: seq<StorePacket>)
      ensures ps == packets
    {
      ps := packets;
    }
  }

  lemma {:induction false} EraseIs(s: seq<StorePacket>, r: Response, id: nat)
    requires Distinct(s)
    ensures Erase(s, r, id) == if Find(s, id).Some? && ResponseOf(Find(s, id).value) == r then Cut(s, id) else s
    ensures Distinct(Erase(s, r, id))
  {
    if s != [] && IdOf(s[0]) != id { EraseIs(s[1..], r, id); }
    ErasedDistinct(s, r, id);
  }

  lemma {:induction false} ErasedDistinct(s: seq<StorePacket>, r: Response, id: nat)
    requires Distinct(s)
    ensures Distinct(Erase(s, r, id)) && forall p :: p in Erase(s, r, id) ==> p in s
  {
    if s != [] && IdOf(s[0]) != id {
      ErasedDistinct(s[1..], r, id);
      var t := Erase(s[1..], r, id);
      forall j | 0 <= j < |t| ensures IdOf(t[j]) != IdOf(s[0]) { assert t[j] in s[1..]; }
    }
  }
}
