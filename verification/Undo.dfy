/** The batch that undoes points: their originals written back, newest point first, and their journal
    entries removed. */
module Undo {
  import opened Wrappers
  import opened Types
  import opened Task
  import opened Storage
  import opened Rollback

  ghost predicate DataOriginals(points: seq<PointKvs>) {
    forall p, k | p in points && k in p.originals :: IsData(k)
  }

  function RestoreOp(k: Key, original: Option<Value>): BatchOp {
    match original
    case Some(v) => Put(k, v)
    case None => Del(k)
  }

  /** Writing back one more original, and removing its journal entry. */
  lemma RestoreStep(d: Kv, p: PointKvs, done: set<Key>, k: Key)
    requires k in p.originals && k !in done && IsData(k)
    ensures var d' := ApplyBatchOp(ApplyBatchOp(d, RestoreOp(k, p.originals[k])), Del(EntryKey(p, k)));
            && Data(d') == Restored(Data(d), map[k := p.originals[k]])
            && Journal(d') == Journal(d) - {EntryKey(p, k)}
            && Stamps(d') == Stamps(d)
  {
    var d' := ApplyBatchOp(ApplyBatchOp(d, RestoreOp(k, p.originals[k])), Del(EntryKey(p, k)));
    SameLookups(Data(d'), Restored(Data(d), map[k := p.originals[k]]));
  }

  lemma RestoredMore(d: Kv, o: Originals, done: set<Key>, k: Key)
    requires k in o && k !in done
    ensures Restored(Restored(d, Restrict(o, done)), map[k := o[k]]) == Restored(d, Restrict(o, done + {k}))
  {
    SameLookups(Restored(Restored(d, Restrict(o, done)), map[k := o[k]]), Restored(d, Restrict(o, done + {k})));
  }

  lemma RestoredEnds(d: Kv, o: Originals)
    ensures Restored(d, Restrict(o, {})) == d
    ensures Restrict(o, o.Keys) == o
  {
    SameLookups(Restored(d, Restrict(o, {})), d);
  }

  function EntriesOf(p: PointKvs, keys: set<Key>): set<Key> {
    set k | k in keys :: EntryKey(p, k)
  }

  /** Append the inverse of one point to a batch. */
  method UndoPoint(batch: Batch, p: PointKvs, ghost d: Kv) returns (r: Batch)
    requires forall k | k in p.originals :: IsData(k)
    ensures Data(ApplyBatch(d, r)) == Restored(Data(ApplyBatch(d, batch)), p.originals)
    ensures Journal(ApplyBatch(d, r)) == Journal(ApplyBatch(d, batch)) - EntriesOf(p, p.originals.Keys)
    ensures Stamps(ApplyBatch(d, r)) == Stamps(ApplyBatch(d, batch))
  {
    hide Data, Journal, Stamps, Restored, ApplyBatch, ApplyBatchOp, RestoreOp, IsData, Restrict, EntryKey;
    r := batch;
    ghost var data, journal := Data(ApplyBatch(d, batch)), Journal(ApplyBatch(d, batch));
    var todo := p.originals.Keys;
    ghost var done: set<Key> := {};
    RestoredEnds(data, p.originals);
    while todo != {}
      invariant done + todo == p.originals.Keys && done !! todo
      invariant Data(ApplyBatch(d, r)) == Restored(data, Restrict(p.originals, done))
      invariant Journal(ApplyBatch(d, r)) == journal - EntriesOf(p, done)
      invariant Stamps(ApplyBatch(d, r)) == Stamps(ApplyBatch(d, batch))
      decreases todo
    {
      var k :| k in todo;
      ApplyBatchSnoc(d, r, RestoreOp(k, p.originals[k]));
      ApplyBatchSnoc(d, r + [RestoreOp(k, p.originals[k])], Del(EntryKey(p, k)));
      RestoreStep(ApplyBatch(d, r), p, done, k);
      RestoredMore(data, p.originals, done, k);
      r := r + [RestoreOp(k, p.originals[k])] + [Del(EntryKey(p, k))];
      todo, done := todo - {k}, done + {k};
    }
    assert done == p.originals.Keys;
  }

  /** The inverse of a list of points, in the order given. */
  method UndoBatch(points: seq<PointKvs>, ghost d: Kv) returns (batch: Batch)
    requires DataOriginals(points)
    ensures Data(ApplyBatch(d, batch)) == UndoAll(Data(d), points)
    ensures Journal(ApplyBatch(d, batch)) == Journal(d) - EntryKeys(points)
    ensures Stamps(ApplyBatch(d, batch)) == Stamps(d)
    ensures points == [] ==> batch == []
  {
    hide Data, Journal, Stamps, Restored, ApplyBatchOp, IsData, EntryKey, EntriesOf;
    batch := [];
    assert ApplyBatch(d, []) == d;
    assert points[..0] == [] && EntryKeys([]) == {} && Journal(d) - {} == Journal(d);
    for i := 0 to |points|
      invariant i == 0 ==> batch == []
      invariant Data(ApplyBatch(d, batch)) == UndoAll(Data(d), points[..i])
      invariant Journal(ApplyBatch(d, batch)) == Journal(d) - EntryKeys(points[..i])
      invariant Stamps(ApplyBatch(d, batch)) == Stamps(d)
    {
      var p := points[i];
      assert p in points;
      batch := UndoPoint(batch, p, d);
      assert points[..i + 1] == points[..i] + [p];
      EntryKeysMore(points[..i], p);
    }
    assert points[..|points|] == points;
  }

  lemma EntryKeysMore(points: seq<PointKvs>, p: PointKvs)
    ensures EntryKeys(points + [p]) == EntryKeys(points) + EntriesOf(p, p.originals.Keys)
    ensures forall d :: UndoAll(d, points + [p]) == Restored(UndoAll(d, points), p.originals)
  {
    assert (points + [p])[..|points|] == points;
  }
}
