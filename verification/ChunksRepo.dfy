/** The in-memory chunk repository: a primary map and a secondary index by chunk set, updated in place. */
module ChunksRepo {
  import opened Wrappers
  import opened Sorting

  /** Ids are compared as numbers. */
  type ChunkId = nat

  type ChunkSetId = nat

  datatype Chunk = Chunk(id: ChunkId, tenantId: nat, chunkSetId: ChunkSetId, orderNo: int, byteStart: int, byteEnd: int,
                         text: string, metaJson: Option<string>)

  type Rows = map<ChunkId, Chunk>

  type Index = map<ChunkSetId, seq<ChunkId>>

  // ----- what the index owes to the rows -----

  predicate Listed(bySet: Index, s: ChunkSetId, id: ChunkId) { s in bySet && id in bySet[s] }

  predicate Stored(byId: Rows, s: ChunkSetId, id: ChunkId) { id in byId && byId[id].chunkSetId == s }

  function Elements(ids: seq<ChunkId>): set<ChunkId> { set id | id in ids }

  ghost predicate BucketsOk(bySet: Index) {
    forall s :: s in bySet ==> bySet[s] != [] && Distinct(bySet[s])
  }

  /** No bucket is empty or holds an id twice; each holds exactly the ids of its set. */
  ghost predicate Indexed(byId: Rows, bySet: Index) {
    && (forall k :: k in byId ==> byId[k].id == k)
    && BucketsOk(bySet)
    && (forall s, id :: Listed(bySet, s, id) <==> Stored(byId, s, id))
  }

  function OfSet(byId: Rows, s: ChunkSetId): set<ChunkId> { set k | k in byId && byId[k].chunkSetId == s }

  // ----- index updates -----

  function Added(bySet: Index, s: ChunkSetId, id: ChunkId): Index {
    bySet[s := (if s in bySet then bySet[s] else []) + [id]]
  }

  /** `Vec::swap_remove`: the last element takes the place of the removed one. */
  function SwapRemove(ids: seq<ChunkId>, pos: nat): seq<ChunkId>
    requires pos < |ids|
  {
    ids[pos := ids[|ids| - 1]][..|ids| - 1]
  }

  lemma SwapRemoveDrops(ids: seq<ChunkId>, pos: nat)
    requires pos < |ids| && Distinct(ids)
    ensures Distinct(SwapRemove(ids, pos))
    ensures forall id :: id in SwapRemove(ids, pos) <==> id in ids && id != ids[pos]
  {
    var r := SwapRemove(ids, pos);
    forall i, j | 0 <= i < j < |r| ensures r[i] != r[j] {
      assert r[i] == if i == pos then ids[|ids| - 1] else ids[i];
      assert r[j] == if j == pos then ids[|ids| - 1] else ids[j];
    }
    forall id ensures id in r <==> id in ids && id != ids[pos] {
      if id in r {
        var k :| 0 <= k < |r| && r[k] == id;
        assert r[k] == if k == pos then ids[|ids| - 1] else ids[k];
      }
      if id in ids && id != ids[pos] {
        var k :| 0 <= k < |ids| && ids[k] == id;
        assert if k == |ids| - 1 then r[pos] == id else r[k] == id;
      }
    }
  }

  /** A well-formed index whose entries are those of `bySet` less one. */
  ghost predicate IsWithout(bySet: Index, bySet': Index, s: ChunkSetId, id: ChunkId) {
    && (forall t, k :: Listed(bySet', t, k) <==> Listed(bySet, t, k) && !(t == s && k == id))
    && BucketsOk(bySet')
  }

  ghost predicate IsWith(bySet: Index, bySet': Index, s: ChunkSetId, id: ChunkId) {
    && (forall t, k :: Listed(bySet', t, k) <==> Listed(bySet, t, k) || (t == s && k == id))
    && BucketsOk(bySet')
  }

  lemma AddedIsWith(bySet: Index, s: ChunkSetId, id: ChunkId)
    requires BucketsOk(bySet) && !Listed(bySet, s, id)
    ensures IsWith(bySet, Added(bySet, s, id), s, id)
  {
    var bucket := if s in bySet then bySet[s] else [];
    assert Distinct(bucket + [id]);
  }

  // ----- the listing -----

  predicate Before(a: Chunk, b: Chunk) { a.orderNo < b.orderNo || (a.orderNo == b.orderNo && a.id <= b.id) }

  /** The rows of a set in order: filtering the primary map and sorting by order number, then id. */
  ghost predicate IsListing(byId: Rows, s: ChunkSetId, list: seq<Chunk>) {
    && (forall c :: c in list <==> Stored(byId, s, c.id) && byId[c.id] == c)
    && (forall i, j :: 0 <= i < j < |list| ==> Before(list[i], list[j]) && list[i].id != list[j].id)
  }

  lemma BeforeIsTotal()
    ensures TotalOrder(Before)
  {
  }

  /** There is only one such listing. */
  lemma {:induction false} ListingUnique(byId: Rows, s: ChunkSetId, a: seq<Chunk>, b: seq<Chunk>)
    requires IsListing(byId, s, a) && IsListing(byId, s, b)
    ensures a == b
  {
    BeforeIsTotal();
    SameElements(a, b);
    SortedUnique(Before, a, b);
  }

  /** Sorting rows with different ids keeps each of them once. */
  lemma SortedRows(rows: seq<Chunk>)
    requires forall i, j :: 0 <= i < j < |rows| ==> rows[i].id != rows[j].id
    ensures var list := Sort(Before, rows);
            && (forall c :: c in list <==> c in rows)
            && (forall i, j :: 0 <= i < j < |list| ==> Before(list[i], list[j]) && list[i].id != list[j].id)
  {
    var list := Sort(Before, rows);
    BeforeIsTotal();
    SortSorted(Before, rows);
    MultisetElements(list, rows);
    OnceEach(rows);
    forall i, j | 0 <= i < j < |list| ensures list[i].id != list[j].id {
      assert list[i] in rows && list[j] in rows;
      if list[i] == list[j] {
        TwiceCounts(list, i, j);
      }
    }
  }

  // ----- the repository -----

  class MemChunksRepo {
    var byId: Rows
    var bySet: Index

    ghost predicate Valid() reads this { Indexed(byId, bySet) }

    constructor ()
      ensures Valid() && byId == map[]
    {
      byId := map[];
      bySet := map[];
    }

    method IndexAdd(s: ChunkSetId, id: ChunkId)
      requires BucketsOk(bySet) && !Listed(bySet, s, id)
      modifies this`bySet
      ensures IsWith(old(bySet), bySet, s, id)
    {
      AddedIsWith(bySet, s, id);
      bySet := Added(bySet, s, id);
    }

    method IndexRemove(s: ChunkSetId, id: ChunkId)
      requires BucketsOk(bySet)
      modifies this`bySet
      ensures IsWithout(old(bySet), bySet, s, id)
    {
      if s in bySet {
        var bucket := bySet[s];
        var pos := 0;
        while pos < |bucket| && bucket[pos] != id
          invariant pos <= |bucket| && id !in bucket[..pos]
        {
          assert bucket[..pos + 1] == bucket[..pos] + [bucket[pos]];
          pos := pos + 1;
        }
        if pos < |bucket| {
          SwapRemoveDrops(bucket, pos);
          bucket := SwapRemove(bucket, pos);
          bySet := bySet[s := bucket];
        } else {
          assert bucket[..pos] == bucket;
        }
        if bucket == [] {
          bySet := bySet - {s};
        }
      }
    }

    method Get(id: ChunkId) returns (r: Option<Chunk>)
      ensures r == if id in byId then Some(byId[id]) else None
    {
      return if id in byId then Some(byId[id]) else None;
    }

    /** Inserts or replaces a row; a row that changes its set moves to the other bucket. */
    method Save(entity: Chunk) returns (r: Chunk)
      requires Valid()
      modifies this
      ensures Valid() && byId == old(byId)[entity.id := entity] && r == entity
    {
      hide BucketsOk;
      var previous := if entity.id in byId then Some(byId[entity.id]) else None;
      assert !Listed(bySet, entity.chunkSetId, entity.id) <==> !Stored(byId, entity.chunkSetId, entity.id);
      byId := byId[entity.id := entity];
      match previous {
        case None =>
          IndexAdd(entity.chunkSetId, entity.id);
        case Some(old_) =>
          if old_.chunkSetId != entity.chunkSetId {
            IndexRemove(old_.chunkSetId, entity.id);
            IndexAdd(entity.chunkSetId, entity.id);
          }
      }
      return entity;
    }

    method Delete(id: ChunkId) returns (found: bool)
      requires Valid()
      modifies this
      ensures Valid() && byId == old(byId) - {id} && found == (id in old(byId))
    {
      hide BucketsOk;
      if id in byId {
        var s := byId[id].chunkSetId;
        byId := byId - {id};
        IndexRemove(s, id);
        return true;
      } else {
        return false;
      }
    }

    /** The chunks of a set in order. */
    method ListBySet(s: ChunkSetId) returns (list: seq<Chunk>)
      requires Valid()
      ensures IsListing(byId, s, list)
      ensures forall c :: c in list <==> c.id in byId && byId[c.id] == c && c.chunkSetId == s
      ensures forall i, j :: 0 <= i < j < |list| ==>
                list[i].orderNo < list[j].orderNo || (list[i].orderNo == list[j].orderNo && list[i].id < list[j].id)
    {
      var ids := if s in bySet then bySet[s] else [];
      assert forall id :: id in ids <==> Listed(bySet, s, id);
      list := [];
      for i := 0 to |ids|
        invariant |list| == i
        invariant forall j :: 0 <= j < i ==> Stored(byId, s, ids[j]) && list[j] == byId[ids[j]] && list[j].id == ids[j]
      {
        assert ids[i] in ids && Stored(byId, s, ids[i]);
        if ids[i] in byId {
          list := list + [byId[ids[i]]];
        }
      }
      forall c ensures c in list <==> Stored(byId, s, c.id) && byId[c.id] == c {
        if Stored(byId, s, c.id) && byId[c.id] == c {
          assert Listed(bySet, s, c.id);
          var j :| 0 <= j < |ids| && ids[j] == c.id;
          assert list[j] == c;
        }
      }
      SortedRows(list);
      list := Sort(Before, list);
    }

    /** Removes the chunks of a set and counts them. */
    method DeleteBySet(s: ChunkSetId) returns (removed: nat)
      requires Valid()
      modifies this
      ensures Valid() && byId == old(byId) - OfSet(old(byId), s) && removed == |OfSet(old(byId), s)|
    {
      hide BucketsOk;
      var ids := if s in bySet then bySet[s] else [];
      Bucket(byId, bySet, s);
      DropBucket(byId, bySet, s);
      bySet := bySet - {s};
      if ids == [] {
        return 0;
      }
      removed := RemoveRows(ids);
    }

    method RemoveRows(ids: seq<ChunkId>) returns (removed: nat)
      requires Distinct(ids) && forall id :: id in ids ==> id in byId
      modifies this`byId
      ensures byId == old(byId) - Elements(ids) && removed == |ids|
    {
      removed := 0;
      for i := 0 to |ids|
        invariant byId == old(byId) - Elements(ids[..i]) && removed == i
      {
        assert ids[..i + 1] == ids[..i] + [ids[i]];
        assert ids[i] in ids && ids[i] !in ids[..i];
        if ids[i] in byId {
          byId := byId - {ids[i]};
          removed := removed + 1;
        }
      }
      assert ids[..|ids|] == ids;
    }
  }

  /** A bucket lists the ids of its set, each once. */
  lemma Bucket(byId: Rows, bySet: Index, s: ChunkSetId)
    requires Indexed(byId, bySet)
    ensures var ids := if s in bySet then bySet[s] else [];
            && Distinct(ids) && Elements(ids) == OfSet(byId, s) && |ids| == |OfSet(byId, s)|
            && (forall id :: id in ids ==> id in byId)
  {
    var ids := if s in bySet then bySet[s] else [];
    assert forall id :: id in ids <==> Listed(bySet, s, id);
    assert forall id :: id in ids <==> id in OfSet(byId, s) by {
      assert forall id :: Listed(bySet, s, id) <==> Stored(byId, s, id);
    }
    DistinctCount(ids);
    assert Elements(ids) == OfSet(byId, s);
  }

  lemma {:induction false} DistinctCount(ids: seq<ChunkId>)
    requires Distinct(ids)
    ensures |Elements(ids)| == |ids|
  {
    if ids == [] {
      assert Elements(ids) == {};
    } else {
      var front, last := ids[..|ids| - 1], ids[|ids| - 1];
      assert ids == front + [last];
      DistinctCount(front);
      assert last !in front;
      assert Elements(ids) == Elements(front) + {last};
    }
  }

  /** Dropping a bucket together with its rows keeps the index right. */
  lemma DropBucket(byId: Rows, bySet: Index, s: ChunkSetId)
    requires Indexed(byId, bySet)
    ensures Indexed(byId - OfSet(byId, s), bySet - {s})
  {
    var byId', bySet' := byId - OfSet(byId, s), bySet - {s};
    forall t, id ensures Listed(bySet', t, id) <==> Stored(byId', t, id) {
      assert Listed(bySet, t, id) <==> Stored(byId, t, id);
    }
  }
}
