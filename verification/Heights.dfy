/** The hash-by-height table and the indexer info: what they hold on every index. */
module Heights {
  import opened Wrappers
  import opened Types
  import opened RunesSpec
  import opened Ledger
  import opened LedgerProofs
  import opened Blocks
  import opened Worker

  predicate IsHeightKey(k: Key) {
    k.HashKey? || k.InfoKey?
  }

  /** What the table should hold at a height. */
  function HashAt(chain: seq<Block>, h: nat): Option<Value> {
    if 1 <= h <= |chain| then Some(HashV(chain[h - 1].hash)) else None
  }

  /** The hash-by-height table holds the hash of every block from height 1 to the tip, and nothing else. */
  ghost predicate DenseHeights(d: Kv, chain: seq<Block>) {
    forall h: nat :: Lookup(d, HashKey(h)) == HashAt(chain, h)
  }

  lemma HeightFrame(cfg: Config, s: State, tx: Tx, h: nat, i: nat, k: Key)
    requires IsHeightKey(k)
    ensures Lookup(ApplyTx(cfg, s, tx, h, i).kv, k) == Lookup(s.kv, k)
  {
    hide RunesPart, PlainIndexes, Produce;
    var ins := Resolve(s.utxos, tx);
    PlainFrame(cfg, s.kv, tx, ins, h, k);
    RunesPartFrame(cfg, PlainIndexes(cfg, s.kv, tx, ins, h), tx, ins, h, i, k);
  }

  lemma {:induction false} HeightFrames(cfg: Config, s: State, txs: seq<Tx>, h: nat, n: nat, k: Key)
    requires IsHeightKey(k) && n <= |txs|
    ensures Lookup(ApplyTxs(cfg, s, txs, h, n).kv, k) == Lookup(s.kv, k)
  {
    hide ApplyTx;
    if n > 0 {
      HeightFrames(cfg, s, txs, h, n - 1, k);
      HeightFrame(cfg, ApplyTxs(cfg, s, txs, h, n - 1), txs[n - 1], h, n - 1, k);
    }
  }

  lemma {:induction false} ReplayHeights(cfg: Config, chain: seq<Block>, h: nat)
    ensures Lookup(Replay(cfg, chain).kv, HashKey(h)) == HashAt(chain, h)
    decreases |chain|
  {
    if chain == [] {
    } else {
      var prefix, b := chain[..|chain| - 1], chain[|chain| - 1];
      assert prefix + [b] == chain;
      ReplayHeights(cfg, prefix, h);
      HeightFrames(cfg, Replay(cfg, prefix), b.txs, |chain|, |b.txs|, HashKey(h));
      hide ApplyTxs, RecordTxs, Replay;
      ReplayNext(cfg, prefix, b);
    }
  }

  /** The indexer info names the tip, once there is one. */
  lemma Info(cfg: Config, chain: seq<Block>)
    ensures Lookup(Replay(cfg, chain).kv, InfoKey) ==
            if chain == [] then None
            else Some(InfoV(IndexerInfo(Tip(cfg, chain).height, Tip(cfg, chain).hash, false)))
  {
    hide ApplyTxs, RecordTxs;
    if chain != [] {
      hide ApplyTxs, RecordTxs, Replay;
      ReplayNext(cfg, chain[..|chain| - 1], chain[|chain| - 1]);
      assert chain[..|chain| - 1] + [chain[|chain| - 1]] == chain;
    }
  }

  lemma PendingNone(cfg: Config, chain: seq<Block>, blocks: seq<seq<Tx>>)
    ensures PendingState(cfg, chain, blocks, 0) == Replay(cfg, chain)
  {
  }

  lemma {:induction false} PendingHeights(cfg: Config, chain: seq<Block>, blocks: seq<seq<Tx>>, n: nat, h: nat)
    requires n <= |blocks|
    ensures Lookup(PendingState(cfg, chain, blocks, n).kv, HashKey(h)) == Lookup(Replay(cfg, chain).kv, HashKey(h))
    ensures n > 0 ==>
      Lookup(PendingState(cfg, chain, blocks, n).kv, InfoKey) == Some(InfoV(IndexerInfo(|chain| + n, Tip(cfg, chain).hash, true)))
    decreases n
  {
    hide ApplyTxs, Replay, PendingState, Tip, ApplyMempool, RecordTxs, PendingHistory;
    if n == 0 {
      PendingNone(cfg, chain, blocks);
    } else {
      PendingHeights(cfg, chain, blocks, n - 1, h);
      HeightFrames(cfg, PendingState(cfg, chain, blocks, n - 1), blocks[n - 1], |chain| + n, |blocks[n - 1]|, HashKey(h));
      PendingStep(cfg, chain, blocks, n - 1);
    }
  }

  /** What a restart reads: the table of hashes ends at the confirmed tip even under estimated blocks,
      and the info tells whether there are any. */
  lemma IndexedHeights(cfg: Config, chain: seq<Block>, pending: Pending, h: nat)
    requires pending.Some? ==> pending.value != []
    ensures Lookup(Indexed(cfg, chain, pending).kv, HashKey(h)) == HashAt(chain, h)
    ensures Lookup(Indexed(cfg, chain, pending).kv, InfoKey) ==
            if pending.Some? then Some(InfoV(IndexerInfo(|chain| + |pending.value|, Tip(cfg, chain).hash, true)))
            else if chain == [] then None
            else Some(InfoV(IndexerInfo(|chain|, Tip(cfg, chain).hash, false)))
  {
    hide ApplyTxs, Replay;
    ReplayHeights(cfg, chain, h);
    Info(cfg, chain);
    if pending.Some? {
      PendingHeights(cfg, chain, pending.value, |pending.value|, h);
      PendingIs(cfg, chain, pending.value, |pending.value|);
    }
  }

  function HeightsIn(d: Kv): set<nat> {
    set k | k in d && k.HashKey? :: k.height
  }

  lemma StoredHeights(d: Kv, chain: seq<Block>, h: nat)
    requires DenseHeights(d, chain)
    ensures h in HeightsIn(d) <==> 1 <= h <= |chain|
  {
    assert Lookup(d, HashKey(h)) == HashAt(chain, h);
    assert HashKey(h) in d ==> HashKey(h).height in HeightsIn(d);
  }

  /** The height of the last entry of the hash-by-height table. */
  method TipHeight(d: Kv, ghost chain: seq<Block>) returns (tip: Option<nat>)
    requires DenseHeights(d, chain)
    ensures tip == if chain == [] then None else Some(|chain|)
  {
    hide DenseHeights, HeightsIn;
    var heights := HeightsIn(d);
    forall h: nat
      ensures h in heights <==> 1 <= h <= |chain|
    {
      StoredHeights(d, chain, h);
    }
    if heights == {} {
      assert |chain| !in heights;
      return None;
    }
    assert chain != [] ==> |chain| in heights;
    var h :| h in heights && forall x | x in heights :: x <= h;
    return Some(h);
  }

  // --- creation heights

  ghost predicate CreatedBy(m: Utxos, h: nat) {
    forall r | r in m :: m[r].height <= h
  }

  lemma CreatedTx(cfg: Config, s: State, tx: Tx, h: nat, i: nat)
    requires CreatedBy(s.utxos, h)
    ensures CreatedBy(ApplyTx(cfg, s, tx, h, i).utxos, h)
  {
    hide IndexTx;
    var alloc := IndexTx(cfg, s.kv, tx, Resolve(s.utxos, tx), h, i).alloc.outputs;
    var next := ApplyTx(cfg, s, tx, h, i).utxos;
    forall r | r in next
      ensures next[r].height <= h
    {
      ProduceIn(s.utxos - Spent(tx), tx, h, alloc, |tx.outputs|, r);
    }
  }

  lemma {:induction false} CreatedTxs(cfg: Config, s: State, txs: seq<Tx>, h: nat, n: nat)
    requires CreatedBy(s.utxos, h) && n <= |txs|
    ensures CreatedBy(ApplyTxs(cfg, s, txs, h, n).utxos, h)
  {
    hide ApplyTx;
    if n > 0 {
      CreatedTxs(cfg, s, txs, h, n - 1);
      CreatedTx(cfg, ApplyTxs(cfg, s, txs, h, n - 1), txs[n - 1], h, n - 1);
    }
  }

  lemma {:induction false} CreatedChain(cfg: Config, chain: seq<Block>)
    ensures CreatedBy(Replay(cfg, chain).utxos, |chain|)
  {
    if chain != [] {
      var prefix, b := chain[..|chain| - 1], chain[|chain| - 1];
      assert prefix + [b] == chain;
      CreatedChain(cfg, prefix);
      CreatedTxs(cfg, Replay(cfg, prefix), b.txs, |chain|, |b.txs|);
      hide ApplyTxs, RecordTxs, Replay;
      ReplayNext(cfg, prefix, b);
    }
  }

  lemma {:induction false} CreatedPending(cfg: Config, chain: seq<Block>, blocks: seq<seq<Tx>>, n: nat)
    requires n <= |blocks|
    ensures CreatedBy(PendingState(cfg, chain, blocks, n).utxos, |chain| + n)
    decreases n
  {
    hide ApplyTxs, Replay, PendingState, Tip, ApplyMempool, RecordTxs, PendingHistory;
    if n == 0 {
      PendingNone(cfg, chain, blocks);
      CreatedChain(cfg, chain);
    } else {
      CreatedPending(cfg, chain, blocks, n - 1);
      CreatedTxs(cfg, PendingState(cfg, chain, blocks, n - 1), blocks[n - 1], |chain| + n, |blocks[n - 1]|);
      PendingStep(cfg, chain, blocks, n - 1);
    }
  }

  /** Every live output was created at or below the height of the index, so a scan that stops short of
      the greatest height misses none. */
  lemma IndexedCreated(cfg: Config, chain: seq<Block>, pending: Pending)
    ensures CreatedBy(Indexed(cfg, chain, pending).utxos, |chain| + if pending.Some? then |pending.value| else 0)
  {
    hide ApplyTxs, Replay;
    CreatedChain(cfg, chain);
    if pending.Some? {
      CreatedPending(cfg, chain, pending.value, |pending.value|);
      PendingIs(cfg, chain, pending.value, |pending.value|);
    }
  }
}
