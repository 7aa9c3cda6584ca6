/** What the worker does with the transactions of an event: index a confirmed block, or a list of
    estimated blocks with one shared context, so that the task shows the reference ledger's result. */
module Worker {
  import opened Wrappers
  import opened Types
  import opened RunesSpec
  import opened Ledger
  import opened LedgerProofs
  import opened Supply
  import opened Task
  import opened Context
  import opened Refinement
  import opened BlockIndexer
  import opened Blocks

  /** The facts about a valid next block that its context needs. */
  lemma BlockFacts(cfg: Config, chain: seq<Block>, b: Block)
    requires Premises(cfg) && ValidChain(cfg, chain) && ValidNext(cfg, chain, b)
    ensures Inv(cfg, Replay(cfg, chain), ChainHistory(cfg, chain), |chain| + 1, 0)
    ensures KnownIds(Replay(cfg, chain).utxos, ChainHistory(cfg, chain).ids)
    ensures ChainHistory(cfg, chain).ids !! IdsOf(b.txs)
    ensures ValidTxs(cfg, ChainHistory(cfg, chain), Replay(cfg, chain), b.txs, |chain| + 1, true)
    ensures forall r | r in InputRefs(b.txs) ::
      && (r.txid !in IdsOf(b.txs) ==> r in Replay(cfg, chain).utxos)
      && r !in ApplyTxs(cfg, Replay(cfg, chain), b.txs, |chain| + 1, |b.txs|).utxos
  {
    InvChain(cfg, chain);
    hide ApplyTxs, RecordTxs, Replay, ChainHistory;
    var s, hist, h := Replay(cfg, chain), ChainHistory(cfg, chain), |chain| + 1;
    FreshIds(cfg, hist, s, b.txs, h, true, |b.txs|);
    forall r | r in InputRefs(b.txs)
      ensures r.txid !in IdsOf(b.txs) ==> r in s.utxos
      ensures r !in ApplyTxs(cfg, s, b.txs, h, |b.txs|).utxos
    {
      forall k | 0 < k < |b.txs|
        ensures !IsCoinbase(b.txs[k])
      {
        assert ValidAt(cfg, hist, s, b.txs, h, true, k);
      }
      InputOf(b.txs, r);
      BlockInputs(cfg, hist, s, b.txs, h, true, r);
    }
  }

  lemma ShowsPut(view: Kv, next: Kv, s: State, k: Key, v: Value)
    requires Shows(view, s) && IsTable(k) && next == view[k := v]
    ensures Shows(next, s.(kv := s.kv[k := v]))
  {
    TablesPut(view, k, v);
  }

  lemma ReplayNext(cfg: Config, chain: seq<Block>, b: Block)
    ensures var s := ApplyTxs(cfg, Replay(cfg, chain), b.txs, |chain| + 1, |b.txs|);
            Replay(cfg, chain + [b])
            == s.(kv := s.kv[InfoKey := InfoV(IndexerInfo(|chain| + 1, b.hash, false))][HashKey(|chain| + 1) := HashV(b.hash)])
    ensures ChainHistory(cfg, chain + [b])
         == RecordTxs(cfg, ChainHistory(cfg, chain), Replay(cfg, chain), b.txs, |chain| + 1, |b.txs|)
  {
    hide ApplyTxs, RecordTxs;
    assert (chain + [b])[..|chain|] == chain;
  }

  /** Resolve the inputs of some transactions and make the context they share. */
  method StartContext(
    task: IndexingTask, cache: UtxoCache?, txs: seq<Tx>, point: Point, ghost s: State, ghost ids: set<Hash>)
    returns (ctx: IndexingContext)
    requires Shows(task.View(), s) && Coherent(Cached(cache), task.View())
    requires KnownIds(s.utxos, ids) && ids !! IdsOf(txs)
    requires forall r | r in InputRefs(txs) && r.txid !in IdsOf(txs) :: r in s.utxos
    modifies cache
    ensures fresh(ctx) && ctx.point == point && ctx.chained == ChainedRefs(txs) && ctx.metadata == map[]
    ensures Tracks(task.View(), ctx.resolver, txs, s)
    ensures SubMap(Cached(cache), old(Cached(cache))) && Coherent(Cached(cache), task.View())
  {
    assert forall r | r in InputRefs(txs) && r.txid !in IdsOf(txs) ::
      Lookup(task.View(), UtxoKey(r)) == Some(UtxoV(s.utxos[r]));
    var resolver, chained := ResolveInputs(task, txs, cache);
    ctx := new IndexingContext(point, resolver, chained);
    TracksStart(task.View(), resolver, txs, s, ids);
  }

  /** What a confirmed block leaves in the cache, counted from before its inputs were resolved. */
  lemma ConfirmedCache(now: Utxos, started: Utxos, before: Utxos, view: Kv, viewBefore: Kv, ids: set<Hash>)
    requires CacheAfter(now, started, view, viewBefore, false, ids)
    requires SubMap(started, before) && Coherent(started, viewBefore)
    ensures FromCacheOr(now, before, ids) && Coherent(now, view)
  {
  }

  lemma ChainedWithin(txs: seq<Tx>)
    ensures ChainedRefs(txs) <= InputRefs(txs)
  {
  }

  /** The transactions of a confirmed block. */
  method IndexBlockTxs(cfg: Config, task: IndexingTask, cache: UtxoCache?, b: Block, point: Point, ghost chain: seq<Block>)
    requires Premises(cfg) && ValidChain(cfg, chain) && ValidNext(cfg, chain, b)
    requires point == Point(|chain| + 1, b.hash)
    requires task.Valid() && task.CountersClean() && !task.mempool
    requires Shows(task.View(), Replay(cfg, chain)) && Coherent(Cached(cache), task.View())
    modifies task, cache
    ensures task.Valid() && task.originals.Some? == old(task.originals).Some?
    ensures Shows(task.View(), ApplyTxs(cfg, Replay(cfg, chain), b.txs, point.height, |b.txs|))
    ensures Coherent(Cached(cache), task.View())
    ensures FromCacheOr(Cached(cache), old(Cached(cache)), IdsOf(b.txs))
  {
    hide ApplyTxs, RecordTxs, Replay, ChainHistory, Inv, Shows, Tracks, SubMap, Coherent, FromCacheOr, Resolved, Tables,
      IdsOf, InputRefs, ChainedRefs, KnownIds, ValidTxs, ValidChain, ValidNext, CacheAfter, DecipherBounds, Premises;
    BlockFacts(cfg, chain, b);
    ghost var s, hist := Replay(cfg, chain), ChainHistory(cfg, chain);
    var ctx := StartContext(task, cache, b.txs, point, s, hist.ids);
    ghost var started, view := Cached(cache), task.View();
    IndexTransactions(cfg, task, ctx, cache, b.txs, b.txs, 0, s, hist, true);
    BlockTxsDone(cfg, chain, b, task.View(), ctx.resolver);
    ConfirmedCache(Cached(cache), started, old(Cached(cache)), task.View(), view, IdsOf(b.txs));
  }

  lemma BlockTxsDone(cfg: Config, chain: seq<Block>, b: Block, view: Kv, resolver: Utxos)
    requires Premises(cfg) && ValidChain(cfg, chain) && ValidNext(cfg, chain, b)
    requires Tracks(view, resolver, b.txs, ApplyTxs(cfg, Replay(cfg, chain), b.txs, |chain| + 1, |b.txs|))
    ensures Shows(view, ApplyTxs(cfg, Replay(cfg, chain), b.txs, |chain| + 1, |b.txs|))
  {
    hide ApplyTxs, RecordTxs, Replay, ChainHistory, Inv, Shows, Tracks, InputRefs, ChainedRefs, KnownIds, ValidTxs, ValidChain,
      ValidNext;
    BlockFacts(cfg, chain, b);
    ChainedWithin(b.txs);
    TracksEnd(view, resolver, b.txs, ApplyTxs(cfg, Replay(cfg, chain), b.txs, |chain| + 1, |b.txs|));
  }

  /** Index a confirmed block on top of the chain the task reads. */
  method IndexBlock(cfg: Config, task: IndexingTask, cache: UtxoCache?, b: Block, point: Point, ghost chain: seq<Block>)
    requires Premises(cfg) && ValidChain(cfg, chain) && ValidNext(cfg, chain, b)
    requires point == Point(|chain| + 1, b.hash)
    requires task.Valid() && task.CountersClean() && !task.mempool
    requires Shows(task.View(), Replay(cfg, chain)) && Coherent(Cached(cache), task.View())
    modifies task, cache
    ensures task.Valid() && task.originals.Some? == old(task.originals).Some?
    ensures InfoKey in task.writeBuffer
    ensures Shows(task.View(), Replay(cfg, chain + [b]))
    ensures Coherent(Cached(cache), task.View())
    ensures FromCacheOr(Cached(cache), old(Cached(cache)), IdsOf(b.txs))
  {
    hide ApplyTxs, RecordTxs, Replay, ChainHistory, Shows, ValidChain, ValidNext, Resolved, Tables, FromCacheOr;
    IndexBlockTxs(cfg, task, cache, b, point, chain);
    ghost var s := ApplyTxs(cfg, Replay(cfg, chain), b.txs, point.height, |b.txs|);
    ghost var v1 := task.View();
    var info := InfoV(IndexerInfo(point.height, point.hash, false));
    task.Set(InfoKey, info);
    ghost var v2 := task.View();
    ShowsPut(v1, v2, s, InfoKey, info);
    task.Set(HashKey(point.height), HashV(point.hash));
    ShowsPut(v2, task.View(), s.(kv := s.kv[InfoKey := info]), HashKey(point.height), HashV(point.hash));
    ReplayNext(cfg, chain, b);
  }

  /** The facts about valid estimated blocks that their shared context needs. */
  lemma PendingFacts(cfg: Config, chain: seq<Block>, blocks: seq<seq<Tx>>)
    requires Premises(cfg) && ValidChain(cfg, chain) && ValidPending(cfg, chain, blocks)
    ensures KnownIds(Replay(cfg, chain).utxos, ChainHistory(cfg, chain).ids)
    ensures ChainHistory(cfg, chain).ids !! IdsOf(Concat(blocks, |blocks|))
    ensures forall r | r in InputRefs(Concat(blocks, |blocks|)) ::
      && (r.txid !in IdsOf(Concat(blocks, |blocks|)) ==> r in Replay(cfg, chain).utxos)
      && r !in PendingState(cfg, chain, blocks, |blocks|).utxos
  {
    InvChain(cfg, chain);
    hide ApplyTxs, RecordTxs, Replay, ChainHistory, PendingState;
    var all := Concat(blocks, |blocks|);
    FreshPending(cfg, chain, blocks, |blocks|);
    forall r | r in InputRefs(all)
      ensures r.txid !in IdsOf(all) ==> r in Replay(cfg, chain).utxos
      ensures r !in PendingState(cfg, chain, blocks, |blocks|).utxos
    {
      var a, j :| 0 <= a < |all| && Skip(all) <= a && 0 <= j < |all[a].inputs| && all[a].inputs[j].prev == r;
      var k, i := ConcatFrom(blocks, |blocks|, a);
      PendingInput(cfg, chain, blocks, k, i, j);
    }
  }

  /** Index the k-th estimated block with the shared context. */
  method IndexPendingBlock(
    cfg: Config, task: IndexingTask, ctx: IndexingContext, cache: UtxoCache?, txs: seq<Tx>, point: Point,
    ghost chain: seq<Block>, ghost blocks: seq<seq<Tx>>, ghost k: nat)
    requires Premises(cfg) && ValidChain(cfg, chain) && ValidPending(cfg, chain, blocks)
    requires k < |blocks| && txs == blocks[k] && point == Point(|chain| + k + 1, Tip(cfg, chain).hash)
    requires task.Valid() && task.CountersClean() && task.mempool
    requires ctx.chained == ChainedRefs(Concat(blocks, |blocks|))
    requires Tracks(task.View(), ctx.resolver, Concat(blocks, |blocks|), PendingState(cfg, chain, blocks, k))
    requires MetadataSeen(ctx.metadata, PendingHistory(cfg, chain, blocks, k).ids)
    modifies task, ctx, cache
    ensures task.Valid() && task.CountersClean() && task.originals.Some? == old(task.originals).Some?
    ensures InfoKey in task.writeBuffer
    ensures Tracks(task.View(), ctx.resolver, Concat(blocks, |blocks|), PendingState(cfg, chain, blocks, k + 1))
    ensures MetadataSeen(ctx.metadata, PendingHistory(cfg, chain, blocks, k + 1).ids)
    ensures Cached(cache) == old(Cached(cache))
  {
    hide ApplyTxs, RecordTxs, Replay, ChainHistory, Inv, PendingState, PendingHistory, Resolved, Tables, Tracks;
    ctx.UpdatePoint(point);
    ghost var all := Concat(blocks, |blocks|);
    ConcatAt(blocks, k, |blocks|);
    InvPending(cfg, chain, blocks, k);
    PendingStep(cfg, chain, blocks, k);
    assert ValidPendingAt(cfg, chain, blocks, k);
    ghost var s, hist := PendingState(cfg, chain, blocks, k), PendingHistory(cfg, chain, blocks, k);
    assert s == ApplyMempool(cfg, Replay(cfg, chain), Tip(cfg, chain), blocks, k) by { PendingIs(cfg, chain, blocks, k); }
    IndexTransactions(cfg, task, ctx, cache, txs, all, |Concat(blocks, k)|, s, hist, false);
    ghost var view := task.View();
    var info := InfoV(IndexerInfo(point.height, point.hash, true));
    task.Set(InfoKey, info);
    TracksPut(view, task.View(), ctx.resolver, all, ApplyTxs(cfg, s, txs, point.height, |txs|),
              PendingState(cfg, chain, blocks, k + 1), InfoKey, info);
  }

  lemma PendingIs(cfg: Config, chain: seq<Block>, blocks: seq<seq<Tx>>, k: nat)
    requires k <= |blocks|
    ensures PendingState(cfg, chain, blocks, k) == ApplyMempool(cfg, Replay(cfg, chain), Tip(cfg, chain), blocks, k)
  {
  }

  lemma TracksPut(
    view: Kv, next: Kv, resolver: Utxos, all: seq<Tx>, s: State, s': State, k: Key, v: Value)
    requires Tracks(view, resolver, all, s) && IsTable(k) && next == view[k := v]
    requires s'.utxos == s.utxos && s'.kv == s.kv[k := v]
    ensures Tracks(next, resolver, all, s')
  {
    TablesPut(view, k, v);
  }

  /** Index estimated blocks on top of the chain the task reads. */
  method IndexPending(
    cfg: Config, task: IndexingTask, cache: UtxoCache?, tip: Point, blocks: seq<seq<Tx>>, ghost chain: seq<Block>)
    requires Premises(cfg) && ValidChain(cfg, chain) && ValidPending(cfg, chain, blocks) && tip == Tip(cfg, chain)
    requires task.Valid() && task.CountersClean() && task.mempool
    requires Shows(task.View(), Replay(cfg, chain)) && Coherent(Cached(cache), task.View())
    modifies task, cache
    ensures task.Valid() && task.originals.Some? == old(task.originals).Some?
    ensures InfoKey in task.writeBuffer
    ensures Shows(task.View(), Indexed(cfg, chain, Some(blocks)))
    ensures SubMap(Cached(cache), old(Cached(cache)))
  {
    hide ApplyTxs, RecordTxs, Replay, ChainHistory, Inv, Shows, Tracks, Coherent;
    PendingFacts(cfg, chain, blocks);
    var all := Flattened(blocks);
    var ctx := StartContext(task, cache, all, tip, Replay(cfg, chain), ChainHistory(cfg, chain).ids);
    for k := 0 to |blocks|
      invariant task.Valid() && task.CountersClean() && task.originals.Some? == old(task.originals).Some?
      invariant k > 0 ==> InfoKey in task.writeBuffer
      invariant fresh(ctx) && ctx.chained == ChainedRefs(all)
      invariant Tracks(task.View(), ctx.resolver, all, PendingState(cfg, chain, blocks, k))
      invariant MetadataSeen(ctx.metadata, PendingHistory(cfg, chain, blocks, k).ids)
      invariant SubMap(Cached(cache), old(Cached(cache)))
    {
      IndexPendingBlock(cfg, task, ctx, cache, blocks[k], Point(tip.height + 1 + k, tip.hash), chain, blocks, k);
    }
    EndPending(cfg, chain, blocks, task.View(), ctx.resolver);
  }

  lemma EndPending(cfg: Config, chain: seq<Block>, blocks: seq<seq<Tx>>, view: Kv, resolver: Utxos)
    requires Premises(cfg) && ValidChain(cfg, chain) && ValidPending(cfg, chain, blocks)
    requires Tracks(view, resolver, Concat(blocks, |blocks|), PendingState(cfg, chain, blocks, |blocks|))
    ensures Shows(view, Indexed(cfg, chain, Some(blocks)))
  {
    hide ApplyTxs, RecordTxs, Replay, ChainHistory;
    PendingFacts(cfg, chain, blocks);
    TracksEnd(view, resolver, Concat(blocks, |blocks|), PendingState(cfg, chain, blocks, |blocks|));
  }

  /** All estimated transactions in order. */
  method Flattened(blocks: seq<seq<Tx>>) returns (all: seq<Tx>)
    ensures all == Concat(blocks, |blocks|)
  {
    all := [];
    for k := 0 to |blocks|
      invariant all == Concat(blocks, k)
    {
      all := all + blocks[k];
    }
  }
}
