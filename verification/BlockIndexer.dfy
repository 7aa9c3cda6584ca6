/** Indexing the transactions of a block over a task: every indexer, then the UTXO set. */
module BlockIndexer {
  import opened Wrappers
  import opened Types
  import opened RunesSpec
  import opened Ledger
  import opened Supply
  import opened Task
  import opened Context
  import opened Refinement
  import opened Indexers
  import opened RunesIndexer

  /** Metadata left in the context belongs to transactions already seen. */
  ghost predicate MetadataSeen(metadata: map<TxoRef, Balances>, ids: set<Hash>) {
    forall r | r in metadata :: r.txid in ids
  }

  method RunIndexers(cfg: Config, task: IndexingTask, ctx: IndexingContext, tx: Tx, i: nat)
    returns (ghost alloc: seq<Balances>)
    requires task.Valid() && task.CountersClean() && Resolvable(ctx.resolver, tx)
    requires forall r | r in ctx.metadata :: r.txid != tx.id
    modifies task, ctx`metadata
    ensures task.Valid() && task.CountersClean() && task.originals.Some? == old(task.originals).Some?
    ensures SameUtxos(task.View(), old(task.View()))
    ensures var r := IndexTx(cfg, Tables(old(task.View())), tx, Resolve(ctx.resolver, tx), ctx.point.height, i);
            Tables(task.View()) == r.kv && alloc == r.alloc.outputs
    ensures |alloc| == |tx.outputs| && ctx.AttachedFrom(tx, alloc, 0)
    ensures forall r | r in ctx.metadata :: r in old(ctx.metadata) || r.txid == tx.id
  {
    hide Resolved, Tables;
    if cfg.txCount {
      CountTransaction(task, tx, ctx);
    }
    if cfg.byAddress {
      IndexAddresses(task, tx, ctx);
    }
    if cfg.runes.Some? {
      alloc := IndexRunes(cfg, task, tx, i, ctx);
    } else {
      alloc := Empties(|tx.outputs|);
    }
  }

  /** One transaction: the working state follows the ledger over it. */
  method IndexTransaction(
    cfg: Config, task: IndexingTask, ctx: IndexingContext, cache: UtxoCache?, tx: Tx, i: nat,
    ghost all: seq<Tx>, ghost k: nat, ghost s: State, ghost ids: set<Hash>)
    requires task.Valid() && task.CountersClean()
    requires k < |all| && all[k] == tx && ctx.chained == ChainedRefs(all)
    requires Tracks(task.View(), ctx.resolver, all, s)
    requires ValidTx(s.utxos, tx, ids) && KnownIds(s.utxos, ids) && MetadataSeen(ctx.metadata, ids)
    modifies task, ctx`resolver, ctx`metadata, cache
    ensures task.Valid() && task.CountersClean() && task.originals.Some? == old(task.originals).Some?
    ensures Tracks(task.View(), ctx.resolver, all, ApplyTx(cfg, s, tx, ctx.point.height, i))
    ensures MetadataSeen(ctx.metadata, ids + {tx.id})
    ensures CacheAfter(Cached(cache), old(Cached(cache)), task.View(), old(task.View()), task.mempool, {tx.id})
  {
    hide ApplyTx, IndexTx, Resolved, Tables, CacheAfter, Moved, Handed;
    ResolveAgrees(task.View(), ctx.resolver, all, s, k, ids);
    ghost var view := task.View();
    ghost var resolver := ctx.resolver;
    var alloc := RunIndexers(cfg, task, ctx, tx, i);
    ghost var indexed := task.View();
    ghost var cached := Cached(cache);
    ctx.UpdateUtxoSet(task, tx, cache, alloc);
    CacheAfterSame(Cached(cache), cached, task.View(), indexed, view, task.mempool, {tx.id});
    TracksApply(cfg, view, indexed, task.View(), resolver, ctx.resolver, all, s, k, ctx.point.height, i, alloc, ids);
  }

  /** Running the indexers and then moving the UTXO set is applying the transaction to the ledger. */
  lemma TracksApply(
    cfg: Config, view: Kv, indexed: Kv, next: Kv, resolver: Utxos, resolver': Utxos, all: seq<Tx>, s: State,
    k: nat, h: nat, i: nat, alloc: seq<Balances>, ids: set<Hash>)
    requires k < |all| && Tracks(view, resolver, all, s) && KnownIds(s.utxos, ids) && ValidTx(s.utxos, all[k], ids)
    requires var r := IndexTx(cfg, Tables(view), all[k], Resolve(resolver, all[k]), h, i);
             Tables(indexed) == r.kv && alloc == r.alloc.outputs
    requires Resolve(resolver, all[k]) == Resolve(s.utxos, all[k])
    requires SameUtxos(indexed, view) && Tables(next) == Tables(indexed)
    requires Moved(next, indexed, ChainedRefs(all), all[k], h, alloc)
    requires Handed(resolver', resolver, ChainedRefs(all), all[k], h, alloc)
    ensures Tracks(next, resolver', all, ApplyTx(cfg, s, all[k], h, i))
  {
    hide IndexTx;
    MovedFrom(next, indexed, view, ChainedRefs(all), all[k], h, alloc);
    TracksStep(view, next, resolver, resolver', all, s, ApplyTx(cfg, s, all[k], h, i), k, h, alloc, ids);
  }

  lemma MovedFrom(
    view: Kv, before: Kv, same: Kv, chained: set<TxoRef>, tx: Tx, h: nat, alloc: seq<Balances>)
    requires |alloc| == |tx.outputs| && Moved(view, before, chained, tx, h, alloc) && SameUtxos(before, same)
    ensures Moved(view, same, chained, tx, h, alloc)
  {
  }

  /** All transactions of one block, out of the `all` the context was made for. */
  method IndexTransactions(
    cfg: Config, task: IndexingTask, ctx: IndexingContext, cache: UtxoCache?, txs: seq<Tx>,
    ghost all: seq<Tx>, ghost offset: nat, ghost s: State, ghost hist: History, ghost coinbase: bool)
    requires task.Valid() && task.CountersClean()
    requires offset + |txs| <= |all| && (forall k | 0 <= k < |txs| :: all[offset + k] == txs[k])
    requires ctx.chained == ChainedRefs(all) && Tracks(task.View(), ctx.resolver, all, s)
    requires Premises(cfg) && Inv(cfg, s, hist, ctx.point.height, 0)
    requires ValidTxs(cfg, hist, s, txs, ctx.point.height, coinbase) && MetadataSeen(ctx.metadata, hist.ids)
    modifies task, ctx`resolver, ctx`metadata, cache
    ensures task.Valid() && task.CountersClean() && task.originals.Some? == old(task.originals).Some?
    ensures Tracks(task.View(), ctx.resolver, all, ApplyTxs(cfg, s, txs, ctx.point.height, |txs|))
    ensures MetadataSeen(ctx.metadata, RecordTxs(cfg, hist, s, txs, ctx.point.height, |txs|).ids)
    ensures CacheAfter(Cached(cache), old(Cached(cache)), task.View(), old(task.View()), task.mempool, IdsOf(txs))
  {
    hide ApplyTx, RecordTx, Tracks, CacheAfter, Inv;
    ghost var h := ctx.point.height;
    ghost var done: set<Hash> := {};
    assert CacheAfter(Cached(cache), Cached(cache), task.View(), task.View(), task.mempool, done) by {
      CacheUntouched(Cached(cache), task.View(), task.mempool);
    }
    for i := 0 to |txs|
      invariant task.Valid() && task.CountersClean() && task.originals.Some? == old(task.originals).Some?
      invariant Tracks(task.View(), ctx.resolver, all, ApplyTxs(cfg, s, txs, h, i))
      invariant MetadataSeen(ctx.metadata, RecordTxs(cfg, hist, s, txs, h, i).ids)
      invariant done <= IdsOf(txs)
      invariant CacheAfter(Cached(cache), old(Cached(cache)), task.View(), old(task.View()), task.mempool, done)
    {
      ghost var c1, v1 := Cached(cache), task.View();
      assert ValidAt(cfg, hist, s, txs, h, coinbase, i);
      KnownAt(cfg, hist, s, txs, h, coinbase, i);
      IdsStep(cfg, hist, s, txs, h, i);
      assert txs[i] in txs;
      IndexTransaction(cfg, task, ctx, cache, txs[i], i, all, offset + i,
                       ApplyTxs(cfg, s, txs, h, i), RecordTxs(cfg, hist, s, txs, h, i).ids);
      CacheAfterTwice(old(Cached(cache)), c1, Cached(cache), old(task.View()), v1, task.View(), task.mempool,
                      done, {txs[i].id});
      done := done + {txs[i].id};
    }
    CacheMore(Cached(cache), old(Cached(cache)), task.View(), old(task.View()), task.mempool, done, IdsOf(txs));
  }
}
