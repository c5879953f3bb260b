/** Packet identifiers, handed out by the value allocator over 1 to 65,535. */
module PacketIds {
  import opened Packets
  import opened ValueAllocator
  import E = Engine
  import S = Session

  class PacketIdManager {
    const allocator: Allocator

    ghost predicate Valid()
      reads allocator
    {
      allocator.Valid() && allocator.lowest == 1 && allocator.highest == MAX_ID && allocator.typeMax == MAX_ID
    }

    /** The identifiers in use. */
    ghost function Used(): set<nat>
      reads allocator
      requires Valid()
    {
      set id: nat | 1 <= id <= MAX_ID && id !in allocator.Free()
    }

    constructor ()
      ensures Valid() && fresh(allocator) && Used() == {}
    {
      allocator := new Allocator(1, MAX_ID, MAX_ID);
    }

    /** Gives the least free identifier, as the specification of the engine does. */
    method AcquireUniqueId() returns (r: Option<nat>)
      requires Valid()
      modifies allocator
      ensures Valid() && r == E.LeastFree(old(Used()), 1)
      ensures Used() == old(Used()) + if r.Some? then {r.value} else {}
    {
      ghost var was := Used();
      FreeInRange();
      var v := allocator.Allocate();
      S.LeastFreeInRange(was, 1);
      match v {
        case None =>
          assert forall id: nat :: 1 <= id <= MAX_ID ==> id in was;
          r := None;
        case Some(id) =>
          assert id !in was && forall j: nat :: 1 <= j < id ==> j in was;
          r := Some(id);
      }
    }

    method RegisterId(id: nat) returns (ok: bool)
      requires Valid()
      modifies allocator
      ensures Valid() && (ok <==> 1 <= id <= MAX_ID && id !in old(Used()))
      ensures Used() == old(Used()) + if ok then {id} else {}
    {
      FreeInRange();
      ok := allocator.UseValue(id);
    }

    /** Identifiers outside the range count as used. */
    method IsUsedId(id: nat) returns (used: bool)
      requires Valid()
      ensures used <==> !(1 <= id <= MAX_ID) || id in Used()
    {
      FreeInRange();
      used := allocator.IsUsed(id);
    }

    /** Frees an identifier in range, used or not; only the largest one has to be in use. */
    method ReleaseId(id: nat)
      requires Valid() && 1 <= id <= MAX_ID && (id == MAX_ID ==> id in Used())
      modifies allocator
      ensures Valid() && Used() == old(Used()) - {id}
    {
      allocator.Deallocate(id);
    }

    method Clear()
      requires Valid()
      modifies allocator
      ensures Valid() && Used() == {}
    {
      allocator.Clear();
    }

    lemma FreeInRange()
      requires Valid()
      ensures forall v :: v in allocator.Free() ==> 1 <= v <= MAX_ID
    {
    }
  }
}
