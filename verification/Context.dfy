/** The working state of one block: inputs resolved up front from the cache and the store, outputs
    that are spent again inside the block kept out of the store, and the UTXO cache. */
module Context {
  import opened Wrappers
  import opened Types
  import opened Ledger
  import opened Task

  // --- views of the UTXO table

  function UtxoIn(view: Kv, r: TxoRef): Option<Utxo> {
    match Lookup(view, UtxoKey(r))
    case Some(UtxoV(u)) => Some(u)
    case _ => None
  }

  ghost predicate SameUtxos(a: Kv, b: Kv) {
    forall r :: Lookup(a, UtxoKey(r)) == Lookup(b, UtxoKey(r))
  }

  /** The UTXO table of `before` without some refs. */
  ghost predicate UtxosWithout(view: Kv, before: Kv, refs: set<TxoRef>) {
    forall r :: Lookup(view, UtxoKey(r)) == if r in refs then None else Lookup(before, UtxoKey(r))
  }

  predicate SubMap(a: Utxos, b: Utxos) {
    forall r | r in a :: r in b && a[r] == b[r]
  }

  /** A cached output that is live in the view has the view's value. */
  ghost predicate Coherent(cache: Utxos, view: Kv) {
    forall r | r in cache && UtxoIn(view, r).Some? :: UtxoIn(view, r) == Some(cache[r])
  }

  /** Everything cached was cached before, unchanged, or was produced by one of these transactions. */
  ghost predicate FromCacheOr(cache: Utxos, before: Utxos, ids: set<Hash>) {
    forall r | r in cache :: (r in before && cache[r] == before[r]) || r.txid in ids
  }

  // --- the cache

  class UtxoCache {
    var entries: Utxos

    constructor ()
      ensures entries == map[]
    {
      entries := map[];
    }

    /** Entries may be dropped at any time: eviction, or the wipe on memory pressure. */
    method Evict()
      modifies this
      ensures SubMap(entries, old(entries))
    {
      var keep: set<TxoRef> := *;
      entries := map r | r in entries && r in keep :: entries[r];
    }

    method Insert(r: TxoRef, u: Utxo)
      modifies this
      ensures SubMap(entries, old(entries)[r := u])
    {
      entries := entries[r := u];
      Evict();
    }

    method Remove(r: TxoRef) returns (u: Option<Utxo>)
      modifies this
      ensures u.Some? ==> r in old(entries) && u.value == old(entries)[r]
      ensures entries == old(entries) - {r}
    {
      u := if r in entries then Some(entries[r]) else None;
      entries := entries - {r};
    }
  }

  /** What the cache holds; no cache holds nothing. */
  ghost function Cached(cache: UtxoCache?): Utxos
    reads cache
  {
    if cache == null then map[] else cache.entries
  }

  /** What indexing does to the cache: nothing for a mempool task; otherwise new entries come from these
      transactions only, and coherence with the view is kept. */
  ghost predicate CacheAfter(now: Utxos, before: Utxos, view: Kv, viewBefore: Kv, mempool: bool, ids: set<Hash>) {
    if mempool then now == before
    else FromCacheOr(now, before, ids) && (Coherent(before, viewBefore) ==> Coherent(now, view))
  }

  lemma CacheAfterTwice(
    c0: Utxos, c1: Utxos, c2: Utxos, v0: Kv, v1: Kv, v2: Kv, mempool: bool, ids: set<Hash>, more: set<Hash>)
    requires CacheAfter(c1, c0, v1, v0, mempool, ids) && CacheAfter(c2, c1, v2, v1, mempool, more)
    ensures CacheAfter(c2, c0, v2, v0, mempool, ids + more)
  {
  }

  /** The cache does not care about changes outside the UTXO set. */
  lemma CacheAfterSame(now: Utxos, before: Utxos, view: Kv, viewBefore: Kv, same: Kv, mempool: bool, ids: set<Hash>)
    requires CacheAfter(now, before, view, viewBefore, mempool, ids) && SameUtxos(viewBefore, same)
    ensures CacheAfter(now, before, view, same, mempool, ids)
  {
    assert forall r :: UtxoIn(viewBefore, r) == UtxoIn(same, r);
  }

  lemma CacheUntouched(c: Utxos, v: Kv, mempool: bool)
    ensures CacheAfter(c, c, v, v, mempool, {})
  {
  }

  lemma CacheMore(c1: Utxos, c0: Utxos, v1: Kv, v0: Kv, mempool: bool, ids: set<Hash>, more: set<Hash>)
    requires CacheAfter(c1, c0, v1, v0, mempool, ids) && ids <= more
    ensures CacheAfter(c1, c0, v1, v0, mempool, more)
  {
  }

  // --- the refs a block spends

  function Skip(txs: seq<Tx>): nat {
    if |txs| > 0 && IsCoinbase(txs[0]) then 1 else 0
  }

  /** All outputs the block spends, its leading coinbase aside. */
  function InputRefs(txs: seq<Tx>): set<TxoRef> {
    set k, j | 0 <= k < |txs| && Skip(txs) <= k && 0 <= j < |txs[k].inputs| :: txs[k].inputs[j].prev
  }

  function IdsOf(txs: seq<Tx>): set<Hash> {
    set tx | tx in txs :: tx.id
  }

  /** Outputs produced and spent within the block. */
  function ChainedRefs(txs: seq<Tx>): set<TxoRef> {
    set r | r in InputRefs(txs) && r.txid in IdsOf(txs)
  }

  /** Where the working state stands against the reference ledger: the same tables, the same UTXO set
      except that chained outputs are not stored, and every live output the block needs resolved. */
  ghost predicate Tracks(view: Kv, resolver: Utxos, txs: seq<Tx>, s: State) {
    && Tables(view) == s.kv
    && (forall r :: Lookup(view, UtxoKey(r)) ==
          if r in s.utxos && r !in ChainedRefs(txs) then Some(UtxoV(s.utxos[r])) else None)
    && (forall r | r in InputRefs(txs) && r in s.utxos :: r in resolver && resolver[r] == s.utxos[r])
  }

  // --- resolving

  /** Resolve the inputs of a block: those it produces itself are left for later, the others come from
      the cache when it has them and from the store when it does not. */
  method ResolveInputs(task: IndexingTask, txs: seq<Tx>, cache: UtxoCache?)
    returns (resolver: Utxos, chained: set<TxoRef>)
    requires Coherent(Cached(cache), task.View())
    requires forall r | r in InputRefs(txs) && r.txid !in IdsOf(txs) :: UtxoIn(task.View(), r).Some?
    modifies cache
    ensures chained == ChainedRefs(txs)
    ensures resolver.Keys == InputRefs(txs) - chained
    ensures forall r | r in resolver :: UtxoIn(task.View(), r) == Some(resolver[r])
    ensures SubMap(Cached(cache), old(Cached(cache)))
    ensures task.View() == old(task.View())
  {
    hide Resolved, IdsOf, InputRefs;
    var ids := IdsOf(txs);
    resolver, chained := map[], {};
    var fetch: seq<TxoRef> := [];
    var todo := InputRefs(txs);
    ghost var all := todo;
    while todo != {}
      invariant todo <= all
      invariant chained == set r | r in all - todo && r.txid in ids
      invariant forall r | r in all - todo && r.txid !in ids :: r in resolver || r in fetch
      invariant forall r | r in resolver ::
        r in all && r.txid !in ids && UtxoIn(task.View(), r) == Some(resolver[r])
      invariant forall r | r in fetch :: r in all && r.txid !in ids
      invariant SubMap(Cached(cache), old(Cached(cache)))
      decreases todo
    {
      var r :| r in todo;
      todo := todo - {r};
      if r.txid in ids {
        chained := chained + {r};
      } else {
        var hit: Option<Utxo> := None;
        if cache != null {
          hit := cache.Remove(r);
        }
        match hit {
          case Some(u) => resolver := resolver[r := u];
          case None => fetch := fetch + [r];
        }
      }
    }
    resolver := FetchAll(task, fetch, resolver);
    assert chained == ChainedRefs(txs);
  }

  /** Add to the resolver what the cache did not have; every one of them is in the store. */
  method FetchAll(task: IndexingTask, fetch: seq<TxoRef>, found: Utxos) returns (resolver: Utxos)
    requires forall r | r in fetch :: UtxoIn(task.View(), r).Some?
    requires forall r | r in found :: UtxoIn(task.View(), r) == Some(found[r])
    ensures resolver.Keys == found.Keys + (set r | r in fetch)
    ensures forall r | r in resolver :: UtxoIn(task.View(), r) == Some(resolver[r])
  {
    resolver := found;
    var fetched := task.MultiGet(seq(|fetch|, i requires 0 <= i < |fetch| => UtxoKey(fetch[i])));
    forall r | r in fetch
      ensures (UtxoKey(r), Lookup(task.View(), UtxoKey(r))) in fetched
    {
      var i :| 0 <= i < |fetch| && fetch[i] == r;
      assert seq(|fetch|, i requires 0 <= i < |fetch| => UtxoKey(fetch[i]))[i] == UtxoKey(r);
    }
    for i := 0 to |fetched|
      invariant found.Keys <= resolver.Keys <= found.Keys + (set r | r in fetch)
      invariant forall r | r in resolver :: UtxoIn(task.View(), r) == Some(resolver[r])
      invariant forall p | p in fetched[..i] :: p.0.UtxoKey? && p.0.r in resolver
    {
      var (k, v) := fetched[i];
      assert fetched[i] in fetched;
      assert k.UtxoKey? && k.r in fetch && UtxoIn(task.View(), k.r).Some?;
      resolver := resolver[k.r := v.value.utxo];
    }
  }

  // --- the context

  class IndexingContext {
    var point: Point
    var resolver: Utxos
    var metadata: map<TxoRef, Balances>
    const chained: set<TxoRef>

    constructor (point: Point, resolver: Utxos, chained: set<TxoRef>)
      ensures this.point == point && this.resolver == resolver && this.chained == chained
      ensures metadata == map[]
    {
      this.point := point;
      this.resolver := resolver;
      this.chained := chained;
      metadata := map[];
    }

    method UpdatePoint(p: Point)
      modifies this`point
      ensures point == p
    {
      point := p;
    }

    /** Attach runes to an output about to be produced. */
    method AttachMetadata(r: TxoRef, runes: Balances)
      modifies this`metadata
      ensures metadata == old(metadata)[r := runes]
    {
      metadata := metadata[r := runes];
    }

    /** The runes attached to an output, none meaning no entry. */
    function RunesOf(r: TxoRef): Balances
      reads this`metadata
    {
      if r in metadata then metadata[r] else map[]
    }

    /** The runes attached to the outputs of a transaction from the k-th on. */
    ghost predicate AttachedFrom(tx: Tx, alloc: seq<Balances>, k: nat)
      requires |alloc| == |tx.outputs|
      reads this`metadata
    {
      forall j | k <= j < |tx.outputs| :: RunesOf(TxoRef(tx.id, j)) == alloc[j]
    }

    /** Delete a spent output; a mempool task keeps what it has resolved. */
    method ConsumeInput(task: IndexingTask, r: TxoRef)
      requires task.Valid()
      modifies this`resolver, task
      ensures task.Valid() && (old(task.CountersClean()) ==> task.CountersClean())
      ensures task.originals.Some? == old(task.originals).Some?
      ensures Tables(task.View()) == Tables(old(task.View()))
      ensures UtxosWithout(task.View(), old(task.View()), {r})
      ensures resolver == if task.mempool then old(resolver) else old(resolver) - {r}
    {
      if !task.mempool {
        resolver := resolver - {r};
      }
      task.Delete(UtxoKey(r));
    }

    method ConsumeInputs(task: IndexingTask, tx: Tx)
      requires task.Valid()
      modifies this`resolver, task
      ensures task.Valid() && (old(task.CountersClean()) ==> task.CountersClean())
      ensures task.originals.Some? == old(task.originals).Some?
      ensures Tables(task.View()) == Tables(old(task.View()))
      ensures UtxosWithout(task.View(), old(task.View()), Spent(tx))
      ensures SubMap(resolver, old(resolver))
      ensures forall r | r in old(resolver) && r !in Spent(tx) :: r in resolver
    {
      ghost var before := task.View();
      for j := 0 to |tx.inputs|
        invariant task.Valid() && (old(task.CountersClean()) ==> task.CountersClean())
        invariant task.originals.Some? == old(task.originals).Some?
        invariant Tables(task.View()) == Tables(before)
        invariant UtxosWithout(task.View(), before, SpentFirst(tx, j))
        invariant SubMap(resolver, old(resolver))
        invariant forall r | r in old(resolver) && r !in SpentFirst(tx, j) :: r in resolver
      {
        assert SpentFirst(tx, j + 1) == SpentFirst(tx, j) + {tx.inputs[j].prev};
        ConsumeInput(task, tx.inputs[j].prev);
      }
    }

    /** Store a new output, or hand it to the resolver if the block spends it again; what is stored by
        a confirmed block is cached too. */
    method ProduceOutput(task: IndexingTask, r: TxoRef, u: Utxo, cache: UtxoCache?)
      requires task.Valid()
      modifies this`resolver, task, cache
      ensures task.Valid() && (old(task.CountersClean()) ==> task.CountersClean())
      ensures task.originals.Some? == old(task.originals).Some?
      ensures Tables(task.View()) == Tables(old(task.View()))
      ensures r in chained ==> task.View() == old(task.View()) && resolver == old(resolver)[r := u]
      ensures r !in chained ==> task.View() == old(task.View())[UtxoKey(r) := UtxoV(u)] && resolver == old(resolver)
      ensures CacheAfter(Cached(cache), old(Cached(cache)), task.View(), old(task.View()), task.mempool, {r.txid})
    {
      hide Resolved, Tables;
      if r in chained {
        resolver := resolver[r := u];
      } else {
        if cache != null && !task.mempool {
          cache.Insert(r, u);
        }
        task.Set(UtxoKey(r), UtxoV(u));
      }
    }

    /** Produce the j-th output with the runes attached to it, unless it is unspendable. */
    method ProduceNth(task: IndexingTask, tx: Tx, j: nat, cache: UtxoCache?, ghost before: Kv, ghost kept: Utxos,
                      ghost alloc: seq<Balances>)
      requires task.Valid() && j < |tx.outputs| == |alloc| && AttachedFrom(tx, alloc, j)
      requires Added(task.View(), before, chained, tx, point.height, alloc, j)
      requires HandedFirst(resolver, kept, chained, tx, point.height, alloc, j)
      modifies this`resolver, this`metadata, task, cache
      ensures task.Valid() && (old(task.CountersClean()) ==> task.CountersClean())
      ensures task.originals.Some? == old(task.originals).Some?
      ensures Tables(task.View()) == Tables(old(task.View()))
      ensures AttachedFrom(tx, alloc, j + 1) && metadata.Keys <= old(metadata).Keys
      ensures Added(task.View(), before, chained, tx, point.height, alloc, j + 1)
      ensures HandedFirst(resolver, kept, chained, tx, point.height, alloc, j + 1)
      ensures CacheAfter(Cached(cache), old(Cached(cache)), task.View(), old(task.View()), task.mempool, {tx.id})
    {
      var output := tx.outputs[j];
      if !IsOpReturn(output.script) {
        var r := TxoRef(tx.id, j);
        var runes := RunesOf(r);
        metadata := metadata - {r};
        ProduceOutput(task, r, Utxo(output.satoshis, output.script, point.height, runes), cache);
      }
      AddedStep(old(task.View()), task.View(), before, chained, tx, point.height, alloc, j);
      HandedStep(old(resolver), resolver, kept, chained, tx, point.height, alloc, j);
    }

    method ProduceOutputs(task: IndexingTask, tx: Tx, cache: UtxoCache?, ghost alloc: seq<Balances>)
      requires task.Valid() && |alloc| == |tx.outputs| && AttachedFrom(tx, alloc, 0)
      modifies this`resolver, this`metadata, task, cache
      ensures task.Valid() && (old(task.CountersClean()) ==> task.CountersClean())
      ensures task.originals.Some? == old(task.originals).Some?
      ensures Tables(task.View()) == Tables(old(task.View()))
      ensures metadata.Keys <= old(metadata).Keys
      ensures Added(task.View(), old(task.View()), chained, tx, point.height, alloc, |tx.outputs|)
      ensures HandedFirst(resolver, old(resolver), chained, tx, point.height, alloc, |tx.outputs|)
      ensures CacheAfter(Cached(cache), old(Cached(cache)), task.View(), old(task.View()), task.mempool, {tx.id})
    {
      ghost var before, kept, keys := task.View(), resolver, metadata.Keys;
      for j := 0 to |tx.outputs|
        invariant task.Valid() && (old(task.CountersClean()) ==> task.CountersClean())
        invariant task.originals.Some? == old(task.originals).Some?
        invariant Tables(task.View()) == Tables(before)
        invariant AttachedFrom(tx, alloc, j) && metadata.Keys <= keys
        invariant Added(task.View(), before, chained, tx, point.height, alloc, j)
        invariant HandedFirst(resolver, kept, chained, tx, point.height, alloc, j)
        invariant CacheAfter(Cached(cache), old(Cached(cache)), task.View(), old(task.View()), task.mempool, {tx.id})
      {
        ProduceNth(task, tx, j, cache, before, kept, alloc);
      }
    }

    /** Remove what a transaction spends and add what it produces, unspendable outputs aside. */
    method UpdateUtxoSet(task: IndexingTask, tx: Tx, cache: UtxoCache?, ghost alloc: seq<Balances>)
      requires task.Valid() && |alloc| == |tx.outputs| && AttachedFrom(tx, alloc, 0)
      modifies this`resolver, this`metadata, task, cache
      ensures task.Valid() && (old(task.CountersClean()) ==> task.CountersClean())
      ensures task.originals.Some? == old(task.originals).Some?
      ensures Tables(task.View()) == Tables(old(task.View()))
      ensures Moved(task.View(), old(task.View()), chained, tx, point.height, alloc)
      ensures Handed(resolver, old(resolver), chained, tx, point.height, alloc)
      ensures forall j | 0 <= j < |tx.outputs| && !IsOpReturn(tx.outputs[j].script) ::
        IsProduced(task.View(), resolver, chained, TxoRef(tx.id, j),
                Utxo(tx.outputs[j].satoshis, tx.outputs[j].script, point.height, alloc[j]))
      ensures metadata.Keys <= old(metadata).Keys
      ensures CacheAfter(Cached(cache), old(Cached(cache)), task.View(), old(task.View()), task.mempool, {tx.id})
    {
      ConsumeInputs(task, tx);
      assert Coherent(Cached(cache), old(task.View())) ==> Coherent(Cached(cache), task.View());
      ProduceOutputs(task, tx, cache, alloc);
    }
  }

  /** An output is in the store or, when the block spends it again, in the resolver. */
  ghost predicate IsProduced(view: Kv, resolver: Utxos, chained: set<TxoRef>, r: TxoRef, u: Utxo) {
    if r in chained then r in resolver && resolver[r] == u else Lookup(view, UtxoKey(r)) == Some(UtxoV(u))
  }

  /** A spendable output among the first `k` of a transaction. */
  predicate IsNew(tx: Tx, r: TxoRef, k: nat)
    requires k <= |tx.outputs|
  {
    r.txid == tx.id && r.vout < k && !IsOpReturn(tx.outputs[r.vout].script)
  }

  /** The view with the first `k` outputs added, chained ones aside. */
  ghost predicate Added(
    view: Kv, before: Kv, chained: set<TxoRef>, tx: Tx, h: nat, alloc: seq<Balances>, k: nat)
    requires k <= |tx.outputs| == |alloc|
  {
    forall r :: Lookup(view, UtxoKey(r)) ==
      if IsNew(tx, r, k) && r !in chained then Some(UtxoV(NewUtxo(tx, r.vout, h, alloc)))
      else Lookup(before, UtxoKey(r))
  }

  /** The resolver with the chained ones among the first `k` outputs added. */
  ghost predicate HandedFirst(
    resolver: Utxos, before: Utxos, chained: set<TxoRef>, tx: Tx, h: nat, alloc: seq<Balances>, k: nat)
    requires k <= |tx.outputs| == |alloc|
  {
    forall r ::
      if IsNew(tx, r, k) && r in chained then r in resolver && resolver[r] == NewUtxo(tx, r.vout, h, alloc)
      else (r in resolver <==> r in before) && (r in before ==> resolver[r] == before[r])
  }

  lemma AddedStep(
    view: Kv, next: Kv, before: Kv, chained: set<TxoRef>, tx: Tx, h: nat, alloc: seq<Balances>, j: nat)
    requires j < |tx.outputs| == |alloc| && Added(view, before, chained, tx, h, alloc, j)
    requires var r := TxoRef(tx.id, j);
             next == if IsOpReturn(tx.outputs[j].script) || r in chained then view
                     else view[UtxoKey(r) := UtxoV(NewUtxo(tx, j, h, alloc))]
    ensures Added(next, before, chained, tx, h, alloc, j + 1)
  {
    forall r
      ensures Lookup(next, UtxoKey(r)) ==
        if IsNew(tx, r, j + 1) && r !in chained then Some(UtxoV(NewUtxo(tx, r.vout, h, alloc)))
        else Lookup(before, UtxoKey(r))
    {
      if r == TxoRef(tx.id, j) {
        assert !IsNew(tx, r, j);
      } else {
        assert IsNew(tx, r, j + 1) <==> IsNew(tx, r, j);
      }
    }
  }

  lemma HandedStep(
    resolver: Utxos, next: Utxos, before: Utxos, chained: set<TxoRef>, tx: Tx, h: nat, alloc: seq<Balances>, j: nat)
    requires j < |tx.outputs| == |alloc| && HandedFirst(resolver, before, chained, tx, h, alloc, j)
    requires var r := TxoRef(tx.id, j);
             next == if IsOpReturn(tx.outputs[j].script) || r !in chained then resolver
                     else resolver[r := NewUtxo(tx, j, h, alloc)]
    ensures HandedFirst(next, before, chained, tx, h, alloc, j + 1)
  {
    forall r
      ensures
        if IsNew(tx, r, j + 1) && r in chained then r in next && next[r] == NewUtxo(tx, r.vout, h, alloc)
        else (r in next <==> r in before) && (r in before ==> next[r] == before[r])
    {
      if r == TxoRef(tx.id, j) {
        assert !IsNew(tx, r, j);
      } else {
        assert IsNew(tx, r, j + 1) <==> IsNew(tx, r, j);
      }
    }
  }

  /** The view after a transaction: what it spends is gone, what it produces is there unless chained. */
  ghost predicate Moved(view: Kv, before: Kv, chained: set<TxoRef>, tx: Tx, h: nat, alloc: seq<Balances>)
    requires |alloc| == |tx.outputs|
  {
    forall r :: Lookup(view, UtxoKey(r)) ==
      if IsNew(tx, r, |tx.outputs|) && r !in chained then Some(UtxoV(NewUtxo(tx, r.vout, h, alloc)))
      else if r in Spent(tx) then None else Lookup(before, UtxoKey(r))
  }

  /** The resolver after a transaction: its chained outputs are there, and nothing unspent was lost. */
  ghost predicate Handed(
    resolver: Utxos, before: Utxos, chained: set<TxoRef>, tx: Tx, h: nat, alloc: seq<Balances>)
    requires |alloc| == |tx.outputs|
  {
    forall r ::
      if IsNew(tx, r, |tx.outputs|) && r in chained
      then r in resolver && resolver[r] == NewUtxo(tx, r.vout, h, alloc)
      else (r in resolver ==> r in before && resolver[r] == before[r])
           && (r in before && r !in Spent(tx) ==> r in resolver)
  }
}
