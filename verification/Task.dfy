/** The buffered view one indexing task has of the store. */
module Task {
  import opened Wrappers
  import opened Types
  import opened MergeOps

  datatype Action = Set(value: Value) | Delete | Merge(op: MergeOp)

  type Buffer = map<Key, Action>

  /** The number a merge starts from: the stored counter, or zero. */
  function Base(v: Option<Value>): u128 {
    match v
    case Some(NumV(n)) => Min(n, U128_MAX)
    case _ => 0
  }

  /** What an action makes of the value stored under its key. */
  function Effect(a: Action, v: Option<Value>): Option<Value> {
    match a
    case Set(x) => Some(x)
    case Delete => None
    case Merge(op) => Some(NumV(ApplyOp(op, Base(v))))
  }

  function Seen(d: Kv, wb: Buffer, k: Key): Option<Value> {
    if k in wb then Effect(wb[k], Lookup(d, k)) else Lookup(d, k)
  }

  /** The store as it will be once a buffer is written over it. */
  function Resolved(d: Kv, wb: Buffer): Kv {
    map k | k in d.Keys + wb.Keys && Seen(d, wb, k).Some? :: Seen(d, wb, k).value
  }

  /** What a journal records of a set of keys. */
  function OriginalsOf(d: Kv, keys: set<Key>): map<Key, Option<Value>> {
    map k | k in keys :: Lookup(d, k)
  }

  /** Apply originals back over a store. */
  function Restored(d: Kv, originals: map<Key, Option<Value>>): Kv {
    map k | k in d.Keys + originals.Keys && (k in originals ==> originals[k].Some?) ::
      if k in originals then originals[k].value else d[k]
  }

  /** Undoing a buffer with the originals of its keys gives back the store it was written over. */
  lemma RestoreUndoes(d: Kv, wb: Buffer)
    ensures Restored(Resolved(d, wb), OriginalsOf(d, wb.Keys)) == d
  {
    var r := Restored(Resolved(d, wb), OriginalsOf(d, wb.Keys));
    forall k
      ensures Lookup(r, k) == Lookup(d, k)
    {
    }
    forall k | k in r.Keys + d.Keys
      ensures k in r && k in d && r[k] == d[k]
    {
      assert Lookup(r, k) == Lookup(d, k);
    }
  }

  // --- the write buffer as a function of the operations

  datatype TaskOp = OpSet(key: Key, value: Value) | OpDelete(key: Key) | OpMerge(key: Key, op: MergeOp)

  /** How an operation changes the write buffer. */
  function Buffered(wb: Buffer, o: TaskOp): Buffer {
    match o
    case OpSet(k, v) => wb[k := Set(v)]
    case OpDelete(k) => wb[k := Delete]
    case OpMerge(k, op) =>
      if k !in wb || wb[k].Delete? then wb[k := Merge(op)]
      else if wb[k].Set? then wb[k := Set(NumV(ApplyOp(op, Base(Some(wb[k].value)))))]
      else wb[k := Merge(Combine(wb[k].op, op))]
  }

  /** What an operation does to a store when it is applied at once. */
  function Applied(d: Kv, o: TaskOp): Kv {
    match o
    case OpSet(k, v) => d[k := v]
    case OpDelete(k) => d - {k}
    case OpMerge(k, op) => d[k := NumV(ApplyOp(op, Base(Lookup(d, k))))]
  }

  /** A merge after a buffered delete loses the delete, which shows unless the stored counter cannot
      be told from zero by the operation. */
  predicate DeleteHarmless(op: MergeOp, base: u128) {
    match op
    case Increment(n) => base == 0 || n == U128_MAX
    case Decrement(n) => base <= n
  }

  /** The guard under which buffering an operation loses nothing. */
  predicate Faithful(d: Kv, wb: Buffer, o: TaskOp) {
    match o
    case OpMerge(k, op) =>
      if k !in wb || wb[k].Set? then true
      else if wb[k].Delete? then DeleteHarmless(op, Base(Lookup(d, k)))
      else Combinable(wb[k].op, op, Base(Lookup(d, k)))
    case _ => true
  }

  /** Buffering an operation and reading through the buffer is the same as applying the operation to
      what was read before, exactly under the guard. */
  lemma BufferedExact(d: Kv, wb: Buffer, o: TaskOp)
    ensures Resolved(d, Buffered(wb, o)) == Applied(Resolved(d, wb), o) <==> Faithful(d, wb, o)
  {
    hide Resolved, Seen, Buffered, Applied, Faithful;
    var left, right := Resolved(d, Buffered(wb, o)), Applied(Resolved(d, wb), o);
    forall k
      ensures Lookup(left, k) == Lookup(right, k) <==> k == o.key ==> Faithful(d, wb, o)
    {
      ResolvedAt(d, Buffered(wb, o), k);
      ResolvedAt(d, wb, k);
      BufferedAt(d, wb, o, k);
    }
    assert Lookup(left, o.key) == Lookup(right, o.key) <==> Faithful(d, wb, o);
    if Faithful(d, wb, o) {
      SameLookups(left, right);
    }
  }

  lemma ResolvedAt(d: Kv, wb: Buffer, k: Key)
    ensures Lookup(Resolved(d, wb), k) == Seen(d, wb, k)
  {
  }

  lemma BufferedAt(d: Kv, wb: Buffer, o: TaskOp, k: Key)
    ensures Seen(d, Buffered(wb, o), k) == Lookup(Applied(Resolved(d, wb), o), k) <==> k == o.key ==> Faithful(d, wb, o)
  {
    hide Resolved;
    ResolvedAt(d, wb, k);
    if k == o.key && o.OpMerge? && k in wb && wb[k].Merge? {
      CombineExact(wb[k].op, o.op, Base(Lookup(d, k)));
    }
  }

  lemma SameLookups(a: Kv, b: Kv)
    requires forall k :: Lookup(a, k) == Lookup(b, k)
    ensures a == b
  {
    forall k | k in a.Keys + b.Keys
      ensures k in a && k in b && a[k] == b[k]
    {
      assert Lookup(a, k) == Lookup(b, k);
    }
  }

  function BufferAll(wb: Buffer, ops: seq<TaskOp>): Buffer {
    if ops == [] then wb else Buffered(BufferAll(wb, ops[..|ops| - 1]), ops[|ops| - 1])
  }

  function ApplyAll(d: Kv, ops: seq<TaskOp>): Kv {
    if ops == [] then d else Applied(ApplyAll(d, ops[..|ops| - 1]), ops[|ops| - 1])
  }

  /** Read-your-writes: a task that buffers any operations, each under its guard, sees the store as if
      they had been applied one by one, and commits exactly that. */
  lemma {:induction false} ReadYourWrites(d: Kv, ops: seq<TaskOp>)
    requires forall i | 0 <= i < |ops| :: Faithful(d, BufferAll(map[], ops[..i]), ops[i])
    ensures Resolved(d, BufferAll(map[], ops)) == ApplyAll(d, ops)
  {
    if ops == [] {
      SameLookups(Resolved(d, map[]), d);
    } else {
      var init := ops[..|ops| - 1];
      assert forall i | 0 <= i < |init| :: init[..i] == ops[..i];
      ReadYourWrites(d, init);
      BufferedExact(d, BufferAll(map[], init), ops[|ops| - 1]);
    }
  }

  /** The guard matters: a counter that is deleted and then incremented keeps its old value. */
  lemma MergeAfterDelete(k: Key)
    ensures var d: Kv := map[k := NumV(5)];
            var ops := [OpDelete(k), OpMerge(k, Increment(1))];
            && Lookup(Resolved(d, BufferAll(map[], ops)), k) == Some(NumV(6))
            && Lookup(ApplyAll(d, ops), k) == Some(NumV(1))
  {
    var ops := [OpDelete(k), OpMerge(k, Increment(1))];
    assert ops[..1] == [OpDelete(k)] && ops[..1][..0] == [];
  }

  // --- tables beside the UTXO set

  /** Indexed data other than the UTXO set. */
  predicate IsTable(k: Key) {
    IsData(k) && !k.UtxoKey?
  }

  function Tables(d: Kv): Kv {
    map k | k in d && IsTable(k) :: d[k]
  }

  lemma TablesPut(d: Kv, k: Key, v: Value)
    ensures Tables(d[k := v]) == if IsTable(k) then Tables(d)[k := v] else Tables(d)
    ensures Tables(d - {k}) == if IsTable(k) then Tables(d) - {k} else Tables(d)
  {
  }

  lemma TablesAt(d: Kv, k: Key)
    requires IsTable(k)
    ensures Lookup(Tables(d), k) == Lookup(d, k)
  {
  }

  // --- the task

  class IndexingTask {
    const snapshot: Kv
    const mempool: bool
    var writeBuffer: Buffer
    var originals: Option<map<Key, Option<Value>>>

    ghost predicate Valid()
      reads this
    {
      && (forall k | k in writeBuffer :: IsData(k))
      && (originals.Some? ==> originals.value == OriginalsOf(snapshot, writeBuffer.Keys))
    }

    /** What the task sees, and what a reader will see once it is committed. */
    ghost function View(): Kv
      reads this
    {
      Resolved(snapshot, writeBuffer)
    }

    /** Counters kept by increments alone can be combined without loss. */
    ghost predicate CountersClean()
      reads this
    {
      forall k | k in writeBuffer && k.CountKey? :: writeBuffer[k].Merge? && writeBuffer[k].op.Increment?
    }

    constructor (snapshot: Kv, journaling: bool, mempool: bool)
      ensures this.snapshot == snapshot && this.mempool == mempool
      ensures writeBuffer == map[] && originals.Some? == journaling
      ensures Valid() && CountersClean() && View() == snapshot
    {
      this.snapshot := snapshot;
      this.mempool := mempool;
      writeBuffer := map[];
      originals := if journaling then Some(map[]) else None;
      new;
      SameLookups(Resolved(snapshot, map[]), snapshot);
    }

    /** Read a key: the buffer first, the snapshot otherwise, with a buffered merge applied to it. */
    method Get(k: Key) returns (r: Option<Value>)
      ensures r == Lookup(View(), k)
    {
      if k in writeBuffer {
        match writeBuffer[k] {
          case Set(v) => return Some(v);
          case Delete => return None;
          case Merge(op) =>
            var base := Base(Lookup(snapshot, k));
            match op {
              case Increment(n) => return Some(NumV(SatAdd(base, n)));
              case Decrement(n) => return Some(NumV(SatSub(base, n)));
            }
        }
      }
      r := Lookup(snapshot, k);
    }

    /** Read many keys: those in the buffer first, the others in one batch from the snapshot. */
    method MultiGet(keys: seq<Key>) returns (out: seq<(Key, Option<Value>)>)
      ensures |out| == |keys|
      ensures forall k | k in keys :: (k, Lookup(View(), k)) in out
      ensures forall p | p in out :: p.0 in keys && p.1 == Lookup(View(), p.0)
    {
      out := [];
      var toFetch: seq<Key> := [];
      for i := 0 to |keys|
        invariant |out| + |toFetch| == i
        invariant forall k | k in keys[..i] :: k in toFetch || (k, Lookup(View(), k)) in out
        invariant forall k | k in toFetch :: k in keys && k !in writeBuffer
        invariant forall p | p in out :: p.0 in keys && p.1 == Lookup(View(), p.0)
      {
        if keys[i] in writeBuffer {
          var v := Get(keys[i]);
          out := out + [(keys[i], v)];
        } else {
          toFetch := toFetch + [keys[i]];
        }
      }
      for i := 0 to |toFetch|
        invariant |out| + |toFetch| - i == |keys|
        invariant forall k | k in keys :: k in toFetch[i..] || (k, Lookup(View(), k)) in out
        invariant forall p | p in out :: p.0 in keys && p.1 == Lookup(View(), p.0)
      {
        assert toFetch[i..] == [toFetch[i]] + toFetch[i + 1..];
        assert toFetch[i] in toFetch;
        out := out + [(toFetch[i], Lookup(snapshot, toFetch[i]))];
      }
    }

    /** Journal the pre-task value of a key, once. */
    method MaybeStoreOriginal(k: Key)
      requires originals.Some? ==> originals.value == OriginalsOf(snapshot, writeBuffer.Keys)
      modifies this`originals
      ensures originals.Some? == old(originals).Some?
      ensures originals.Some? ==> originals.value == OriginalsOf(snapshot, writeBuffer.Keys + {k})
    {
      if originals.Some? && k !in originals.value {
        originals := Some(originals.value[k := Lookup(snapshot, k)]);
      }
    }

    method Set(k: Key, v: Value)
      requires Valid() && IsData(k)
      modifies this
      ensures Valid() && originals.Some? == old(originals).Some?
      ensures writeBuffer == old(writeBuffer)[k := Action.Set(v)]
      ensures View() == old(View())[k := v]
      ensures Tables(View()) == if k.UtxoKey? then Tables(old(View())) else Tables(old(View()))[k := v]
      ensures old(CountersClean()) && !k.CountKey? ==> CountersClean()
    {
      MaybeStoreOriginal(k);
      writeBuffer := writeBuffer[k := Action.Set(v)];
      BufferedExact(snapshot, old(writeBuffer), OpSet(k, v));
      TablesPut(old(View()), k, v);
    }

    method Delete(k: Key)
      requires Valid() && IsData(k)
      modifies this
      ensures Valid() && originals.Some? == old(originals).Some?
      ensures writeBuffer == old(writeBuffer)[k := Action.Delete]
      ensures View() == old(View()) - {k}
      ensures Tables(View()) == if k.UtxoKey? then Tables(old(View())) else Tables(old(View())) - {k}
      ensures old(CountersClean()) && !k.CountKey? ==> CountersClean()
    {
      MaybeStoreOriginal(k);
      writeBuffer := writeBuffer[k := Action.Delete];
      BufferedExact(snapshot, old(writeBuffer), OpDelete(k));
      TablesPut(old(View()), k, UnitV);
    }

    /** Buffer a merge: fold it into a buffered value or merge, else keep it as it is. */
    method MergeInto(k: Key, op: MergeOp)
      requires Valid() && IsData(k)
      modifies this
      ensures Valid() && originals.Some? == old(originals).Some?
      ensures writeBuffer == Buffered(old(writeBuffer), OpMerge(k, op))
      ensures View() == Applied(old(View()), OpMerge(k, op)) <==> Faithful(snapshot, old(writeBuffer), OpMerge(k, op))
    {
      hide Resolved, Applied, Faithful;
      MaybeStoreOriginal(k);
      BufferedExact(snapshot, writeBuffer, OpMerge(k, op));
      if k in writeBuffer {
        match writeBuffer[k] {
          case Set(v) =>
            writeBuffer := writeBuffer[k := Action.Set(NumV(ApplyOp(op, Base(Some(v)))))];
            return;
          case Merge(existing) =>
            writeBuffer := writeBuffer[k := Action.Merge(Combine(existing, op))];
            return;
          case Delete =>
        }
      }
      writeBuffer := writeBuffer[k := Action.Merge(op)];
    }

    /** Increments of a counter that is only ever incremented are exact. */
    method Increment(k: Key, n: u128)
      requires Valid() && CountersClean() && k.CountKey?
      modifies this
      ensures Valid() && CountersClean() && originals.Some? == old(originals).Some?
      ensures View() == old(View())[k := NumV(SatAdd(Base(Lookup(old(View()), k)), n))]
      ensures Tables(View()) == Tables(old(View()))[k := NumV(SatAdd(Base(Lookup(old(View()), k)), n))]
    {
      MergeInto(k, MergeOp.Increment(n));
      TablesPut(old(View()), k, NumV(SatAdd(Base(Lookup(old(View()), k)), n)));
    }
  }
}
