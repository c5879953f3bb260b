module Store {
  import opened Packets

  datatype StorePacket =
    | StoredPublish(version: Version, pub: Publish)
    | StoredPubrel(version: Version, pid: nat, rc: Option<nat>, rem: nat)

  datatype ResponseKind = AwaitPuback | AwaitPubrec | AwaitPubcomp

  datatype Response = Response(version: Version, kind: ResponseKind)

  function IdOf(p: StorePacket): nat {
    match p
    case StoredPublish(_, pub) => pub.pid
    case StoredPubrel(_, pid, _, _) => pid
  }

  function ResponseOf(p: StorePacket): Response {
    match p
    case StoredPublish(v, pub) => Response(v, if pub.qos.AtLeastOnce? then AwaitPuback else AwaitPubrec)
    case StoredPubrel(v, _, _, _) => Response(v, AwaitPubcomp)
  }

  function ToPacket(p: StorePacket): Packet {
    match p
    case StoredPublish(_, pub) => PublishPacket(pub)
    case StoredPubrel(_, pid, rc, rem) => Pubrel(pid, rc, rem)
  }

  predicate Has(s: seq<StorePacket>, id: nat) {
    exists k :: 0 <= k < |s| && IdOf(s[k]) == id
  }

  function Erase(s: seq<StorePacket>, r: Response, id: nat): seq<StorePacket> {
    if s == [] then []
    else if IdOf(s[0]) == id then (if ResponseOf(s[0]) == r then s[1..] else s)
    else [s[0]] + Erase(s[1..], r, id)
  }

  /** No identifier is stored twice. */
  ghost predicate Distinct(s: seq<StorePacket>) {
    forall i, j :: 0 <= i < j < |s| ==> IdOf(s[i]) != IdOf(s[j])
  }

  /** Erasing the entry at position `k`. */
  lemma {:induction false} EraseAt(s: seq<StorePacket>, r: Response, k: nat)
    requires k < |s| && ResponseOf(s[k]) == r && forall j :: 0 <= j < k ==> IdOf(s[j]) != IdOf(s[k])
    ensures Erase(s, r, IdOf(s[k])) == s[..k] + s[k + 1..]
  {
    if k > 0 {
      EraseAt(s[1..], r, k - 1);
      assert [s[0]] + (s[1..][..k - 1] + s[1..][k..]) == s[..k] + s[k + 1..];
    }
  }

  lemma {:induction false} EraseAbsent(s: seq<StorePacket>, r: Response, id: nat)
    requires forall k :: 0 <= k < |s| ==> IdOf(s[k]) != id
    ensures Erase(s, r, id) == s
  {
    if s != [] { EraseAbsent(s[1..], r, id); }
  }

  /** Erasing an identifier that awaits `r` removes exactly its entry and keeps the order of the others. */
  lemma EraseRemoves(s: seq<StorePacket>, r: Response, id: nat)
    requires Distinct(s)
    requires forall p :: p in s && IdOf(p) == id ==> ResponseOf(p) == r
    ensures forall k :: 0 <= k < |s| && IdOf(s[k]) == id ==> Erase(s, r, id) == s[..k] + s[k + 1..]
    ensures !Has(s, id) ==> Erase(s, r, id) == s
    ensures Distinct(Erase(s, r, id)) && !Has(Erase(s, r, id), id)
    ensures forall p :: p in Erase(s, r, id) <==> p in s && IdOf(p) != id
  {
    if k :| 0 <= k < |s| && IdOf(s[k]) == id {
      assert s[k] in s;
      EraseAt(s, r, k);
      CutOut(s, k);
      assert forall j :: 0 <= j < |s| && IdOf(s[j]) == id ==> j == k;
    } else {
      EraseAbsent(s, r, id);
    }
    hide Erase, Distinct;
  }

  lemma CutOut(s: seq<StorePacket>, k: nat)
    requires Distinct(s) && k < |s|
    ensures var t := s[..k] + s[k + 1..];
      && Distinct(t) && !Has(t, IdOf(s[k]))
      && forall p :: p in t <==> p in s && IdOf(p) != IdOf(s[k])
  {
    var t := s[..k] + s[k + 1..];
    assert forall j :: 0 <= j < |t| ==> t[j] == if j < k then s[j] else s[j + 1];
    forall p | p in s && IdOf(p) != IdOf(s[k]) ensures p in t {
      var j :| 0 <= j < |s| && s[j] == p;
      assert p == if j < k then t[j] else t[j - 1];
    }
  }

  /** The entry stored under an identifier. */
  function Find(s: seq<StorePacket>, id: nat): Option<StorePacket> {
    if s == [] then None else if IdOf(s[0]) == id then Some(s[0]) else Find(s[1..], id)
  }

  lemma {:induction false} FindAppend(s: seq<StorePacket>, p: StorePacket, id: nat)
    ensures Find(s + [p], id) == if Find(s, id).Some? then Find(s, id) else if IdOf(p) == id then Some(p) else None
  {
    if s == [] {
      assert s + [p] == [p];
    } else {
      assert (s + [p])[1..] == s[1..] + [p];
      FindAppend(s[1..], p, id);
    }
  }

  lemma {:induction false} FindErase(s: seq<StorePacket>, r: Response, gone: nat, id: nat)
    requires id != gone
    ensures Find(Erase(s, r, gone), id) == Find(s, id)
  {
    if s != [] && IdOf(s[0]) != gone { FindErase(s[1..], r, gone, id); }
  }

  lemma {:induction false} FindHas(s: seq<StorePacket>, id: nat)
    ensures Find(s, id).Some? <==> Has(s, id)
    ensures Find(s, id).Some? ==> Find(s, id).value in s && IdOf(Find(s, id).value) == id
  {
    if s != [] {
      FindHas(s[1..], id);
      if Has(s, id) && IdOf(s[0]) != id {
        var k :| 0 <= k < |s| && IdOf(s[k]) == id;
        assert s[1..][k - 1] == s[k];
      }
      if Has(s[1..], id) {
        var k :| 0 <= k < |s[1..]| && IdOf(s[1..][k]) == id;
        assert s[k + 1] == s[1..][k];
      }
    }
  }
}
