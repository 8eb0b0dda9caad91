/** Registration of entities: allocation of ids and removal. */
module Entities {
  import opened Blocks
  import opened SwapRemoval

  const NO_ID: byte := 0xff

  class Entity {
    var id: byte
    const name: string

    constructor (name: string)
      ensures id == NO_ID && this.name == name
    {
      id := NO_ID;
      this.name := name;
    }
  }

  class Server {
    var entities: seq<Entity>

    constructor ()
      ensures Valid() && entities == []
    {
      entities := [];
    }

    ghost function Ids(): seq<byte>
      reads this, entities
    {
      seq(|entities|, k requires 0 <= k < |entities| reads this, entities => entities[k].id)
    }

    /** No entity is registered twice, and registered entities have distinct ids below 0xff. */
    ghost predicate Valid()
      reads this, entities
    {
      && Distinct(entities)
      && (forall i :: 0 <= i < |entities| ==> entities[i].id < NO_ID)
      && Distinct(Ids())
    }

    /** The lowest id that no entity uses, or 0xff if there is none. */
    method GenerateID() returns (id: byte)
      ensures forall k :: 0 <= k < |entities| && id != NO_ID ==> entities[k].id != id
      ensures forall lower: byte :: lower < id ==> lower in Ids()
      ensures id == 255 ==> forall lower: byte :: lower < 255 ==> lower in Ids()
    {
      var candidate := 0;
      while candidate < NO_ID
        invariant 0 <= candidate <= NO_ID
        invariant forall lower: byte :: lower < candidate ==> lower in Ids()
      {
        var free := true;
        for k := 0 to |entities|
          invariant free && forall i :: 0 <= i < k ==> entities[i].id != candidate
        {
          if entities[k].id == candidate {
            free := false;
            assert Ids()[k] == candidate;
            break;
          }
        }
        if free {
          return candidate;
        }
        candidate := candidate + 1;
      }
      return NO_ID;
    }

    method AddEntity(entity: Entity) returns (ok: bool)
      requires Valid() && entity !in entities
      modifies this, entity
      ensures Valid()
      ensures ok <==> |old(entities)| < 255
      ensures entities == if ok then old(entities) + [entity] else old(entities)
      ensures ok ==> entity.id !in old(Ids()) && forall lower: byte :: lower < entity.id ==> lower in old(Ids())
      ensures !ok ==> entity.id == 255
    {
      ghost var ids := Ids();
      entity.id := GenerateID();
      assert Ids() == ids by {
        forall k | 0 <= k < |entities|
          ensures entities[k].id == ids[k]
        {
          assert entities[k] in entities;
        }
      }
      if entity.id == NO_ID {
        AllTaken(ids, NO_ID);
        return false;
      }
      DistinctIds(ids, NO_ID);
      if |ids| == 255 {
        Pigeonhole(ids, NO_ID, entity.id);
      }
      entities := entities + [entity];
      assert Ids() == ids + [entity.id];
      return true;
    }

    method RemoveEntity(entity: Entity)
      requires Valid()
      modifies this
      ensures Valid()
      ensures entity !in old(entities) ==> entities == old(entities)
      ensures entity in old(entities) ==> multiset(entities) + multiset{entity} == old(multiset(entities))
      ensures entity !in entities
      ensures forall e :: e in old(entities) ==> (e in entities <==> e != entity)
    {
      var index := -1;
      for i := 0 to |entities|
        invariant index == -1 && forall k :: 0 <= k < i ==> entities[k] != entity
      {
        if entities[i] == entity {
          index := i;
          break;
        }
      }
      if index == -1 {
        return;
      }
      ghost var was, ids := entities, Ids();
      RemovesOne(was, index);
      KeepsOthers(was, index);
      KeepsOthers(ids, index);
      entities := entities[index := entities[|entities| - 1]];
      entities := entities[..|entities| - 1];
      assert entities == SwapRemove(was, index) && Ids() == SwapRemove(ids, index);
      hide SwapRemove;
    }

    method FindEntityByID(id: byte) returns (entity: Entity?)
      requires Valid()
      ensures entity != null ==> entity in entities && entity.id == id
      ensures entity == null ==> id !in Ids()
    {
      for k := 0 to |entities|
        invariant forall i :: 0 <= i < k ==> entities[i].id != id
      {
        if entities[k].id == id {
          return entities[k];
        }
      }
      return null;
    }
  }

  // ------------------------------------------------------------------
  // Counting ids.

  /** Distinct ids below the limit are at most as many as there are. */
  lemma {:induction false} DistinctIds(ids: seq<byte>, limit: nat)
    requires forall i, j :: 0 <= i < j < |ids| ==> ids[i] != ids[j]
    requires forall i :: 0 <= i < |ids| ==> ids[i] < limit
    ensures |ids| <= limit
    decreases limit
  {
    if ids != [] {
      assert ids[0] < limit;
      var last := limit - 1;
      if k :| 0 <= k < |ids| && ids[k] == last {
        DistinctIds(ids[..k] + ids[k + 1..], last);
      } else {
        DistinctIds(ids, last);
      }
    }
  }

  /** If every id below the limit is taken, there are at least that many. */
  lemma {:induction false} AllTaken(ids: seq<byte>, limit: byte)
    requires forall lower: byte :: lower < limit ==> lower in ids
    ensures |ids| >= limit
    decreases limit
  {
    if limit > 0 {
      var last: byte := limit - 1;
      assert last in ids;
      var k :| 0 <= k < |ids| && ids[k] == last;
      var rest := ids[..k] + ids[k + 1..];
      forall lower: byte | lower < last
        ensures lower in rest
      {
        assert lower in ids;
        var i :| 0 <= i < |ids| && ids[i] == lower;
        assert rest[if i < k then i else i - 1] == lower;
      }
      AllTaken(rest, last);
    }
  }

  /** A full house leaves no id free. */
  lemma Pigeonhole(ids: seq<byte>, limit: byte, free: byte)
    requires forall i, j :: 0 <= i < j < |ids| ==> ids[i] != ids[j]
    requires forall i :: 0 <= i < |ids| ==> ids[i] < limit
    requires free < limit && free !in ids
    ensures |ids| < limit
  {
    DistinctIds(ids + [free], limit);
  }
}
