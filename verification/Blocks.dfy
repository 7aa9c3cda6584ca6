/** Indexing one confirmed block, or a list of estimated blocks, over a fresh task. */
module Blocks {
  import opened Wrappers
  import opened Types
  import opened RunesSpec
  import opened Ledger
  import opened LedgerProofs
  import opened Supply
  import opened Task
  import opened Context
  import opened Refinement
  import opened BlockIndexer

  // --- estimated blocks taken together

  function Concat(blocks: seq<seq<Tx>>, k: nat): seq<Tx>
    requires k <= |blocks|
  {
    if k == 0 then [] else Concat(blocks, k - 1) + blocks[k - 1]
  }

  lemma {:induction false} ConcatAt(blocks: seq<seq<Tx>>, k: nat, n: nat)
    requires k < n <= |blocks|
    ensures |Concat(blocks, k)| + |blocks[k]| <= |Concat(blocks, n)|
    ensures forall j | 0 <= j < |blocks[k]| :: Concat(blocks, n)[|Concat(blocks, k)| + j] == blocks[k][j]
  {
    if k < n - 1 {
      ConcatAt(blocks, k, n - 1);
    }
  }

  lemma {:induction false} ConcatFrom(blocks: seq<seq<Tx>>, n: nat, i: nat) returns (k: nat, j: nat)
    requires n <= |blocks| && i < |Concat(blocks, n)|
    ensures k < n && j < |blocks[k]| && Concat(blocks, n)[i] == blocks[k][j]
  {
    if i < |Concat(blocks, n - 1)| {
      k, j := ConcatFrom(blocks, n - 1, i);
    } else {
      k, j := n - 1, i - |Concat(blocks, n - 1)|;
    }
  }

  function PendingState(cfg: Config, chain: seq<Block>, blocks: seq<seq<Tx>>, k: nat): State
    requires k <= |blocks|
  {
    ApplyMempool(cfg, Replay(cfg, chain), Tip(cfg, chain), blocks, k)
  }

  lemma PendingStep(cfg: Config, chain: seq<Block>, blocks: seq<seq<Tx>>, k: nat)
    requires k < |blocks|
    ensures PendingState(cfg, chain, blocks, k + 1).utxos
         == ApplyTxs(cfg, PendingState(cfg, chain, blocks, k), blocks[k], |chain| + k + 1, |blocks[k]|).utxos
    ensures PendingState(cfg, chain, blocks, k + 1).kv
         == ApplyTxs(cfg, PendingState(cfg, chain, blocks, k), blocks[k], |chain| + k + 1, |blocks[k]|).kv
            [InfoKey := InfoV(IndexerInfo(|chain| + k + 1, Tip(cfg, chain).hash, true))]
    ensures PendingHistory(cfg, chain, blocks, k + 1)
         == RecordTxs(cfg, PendingHistory(cfg, chain, blocks, k), PendingState(cfg, chain, blocks, k),
                      blocks[k], |chain| + k + 1, |blocks[k]|)
  {
    hide ApplyTxs, RecordTxs;
  }

  lemma {:induction false} SurvivesPending(cfg: Config, chain: seq<Block>, blocks: seq<seq<Tx>>, k: nat, r: TxoRef)
    requires k <= |blocks| && r in PendingState(cfg, chain, blocks, k).utxos && r.txid !in IdsOf(Concat(blocks, k))
    ensures r in Replay(cfg, chain).utxos
  {
    hide ApplyTxs, RecordTxs, Replay;
    if k > 0 {
      PendingStep(cfg, chain, blocks, k - 1);
      assert forall tx | tx in blocks[k - 1] :: tx in Concat(blocks, k);
      SurvivesTxs(cfg, PendingState(cfg, chain, blocks, k - 1), blocks[k - 1], |chain| + k, |blocks[k - 1]|, r);
      assert forall tx | tx in Concat(blocks, k - 1) :: tx in Concat(blocks, k);
      SurvivesPending(cfg, chain, blocks, k - 1, r);
    }
  }

  lemma {:induction false} GonePending(
    cfg: Config, chain: seq<Block>, blocks: seq<seq<Tx>>, m: nat, n: nat, r: TxoRef)
    requires Premises(cfg) && ValidChain(cfg, chain) && ValidPending(cfg, chain, blocks) && m <= n <= |blocks|
    requires r !in PendingState(cfg, chain, blocks, m).utxos && r.txid in PendingHistory(cfg, chain, blocks, m).ids
    ensures r !in PendingState(cfg, chain, blocks, n).utxos
    ensures r.txid in PendingHistory(cfg, chain, blocks, n).ids
  {
    hide ApplyTxs, RecordTxs, Replay, Inv;
    if m < n {
      GonePending(cfg, chain, blocks, m, n - 1, r);
      PendingStep(cfg, chain, blocks, n - 1);
      InvPending(cfg, chain, blocks, n - 1);
      assert ValidPendingAt(cfg, chain, blocks, n - 1);
      GoneBlock(cfg, PendingHistory(cfg, chain, blocks, n - 1), PendingState(cfg, chain, blocks, n - 1),
                blocks[n - 1], |chain| + n, false, r);
    }
  }

  lemma GoneBlock(
    cfg: Config, hist: History, s: State, txs: seq<Tx>, h: nat, coinbase: bool, r: TxoRef)
    requires Premises(cfg) && Inv(cfg, s, hist, h, 0) && ValidTxs(cfg, hist, s, txs, h, coinbase)
    requires r !in s.utxos && r.txid in hist.ids
    ensures r !in ApplyTxs(cfg, s, txs, h, |txs|).utxos
    ensures r.txid in RecordTxs(cfg, hist, s, txs, h, |txs|).ids
  {
    hide Inv;
    GoneTxs(cfg, hist, s, txs, h, coinbase, 0, |txs|, r);
  }

  /** What estimated blocks spend was live in the chain, unless they produce it, and is gone after. */
  lemma PendingInput(cfg: Config, chain: seq<Block>, blocks: seq<seq<Tx>>, k: nat, i: nat, j: nat)
    requires Premises(cfg) && ValidChain(cfg, chain) && ValidPending(cfg, chain, blocks)
    requires k < |blocks| && i < |blocks[k]| && j < |blocks[k][i].inputs|
    ensures !IsCoinbase(blocks[k][i])
    ensures var r := blocks[k][i].inputs[j].prev;
            && (r.txid !in IdsOf(Concat(blocks, |blocks|)) ==> r in Replay(cfg, chain).utxos)
            && r !in PendingState(cfg, chain, blocks, |blocks|).utxos
  {
    hide ApplyTxs, RecordTxs, Replay, Inv;
    var r := blocks[k][i].inputs[j].prev;
    var s, hist := PendingState(cfg, chain, blocks, k), PendingHistory(cfg, chain, blocks, k);
    assert ValidPendingAt(cfg, chain, blocks, k);
    assert ValidAt(cfg, hist, s, blocks[k], |chain| + k + 1, false, i);
    InvPending(cfg, chain, blocks, k);
    BlockInputs(cfg, hist, s, blocks[k], |chain| + k + 1, false, r);
    PendingStep(cfg, chain, blocks, k);
    GonePending(cfg, chain, blocks, k + 1, |blocks|, r);
    if r.txid !in IdsOf(Concat(blocks, |blocks|)) {
      IdsWithin(blocks, k);
      SurvivesPending(cfg, chain, blocks, k, r);
    }
  }

  lemma {:induction false} PrefixWithin(blocks: seq<seq<Tx>>, k: nat, n: nat)
    requires k <= n <= |blocks|
    ensures forall tx | tx in Concat(blocks, k) :: tx in Concat(blocks, n)
  {
    if k < n {
      PrefixWithin(blocks, k, n - 1);
    }
  }

  lemma IdsWithin(blocks: seq<seq<Tx>>, k: nat)
    requires k < |blocks|
    ensures IdsOf(blocks[k]) <= IdsOf(Concat(blocks, |blocks|))
    ensures IdsOf(Concat(blocks, k)) <= IdsOf(Concat(blocks, |blocks|))
  {
    PrefixWithin(blocks, k, |blocks|);
    ConcatAt(blocks, k, |blocks|);
    forall tx | tx in blocks[k]
      ensures tx in Concat(blocks, |blocks|)
    {
      var j :| 0 <= j < |blocks[k]| && blocks[k][j] == tx;
      assert Concat(blocks, |blocks|)[|Concat(blocks, k)| + j] == tx;
    }
  }

  /** No transaction id of a valid block was used before. */
  lemma {:induction false} FreshIds(cfg: Config, hist: History, s: State, txs: seq<Tx>, h: nat, coinbase: bool, k: nat)
    requires ValidTxs(cfg, hist, s, txs, h, coinbase) && k <= |txs|
    ensures hist.ids <= RecordTxs(cfg, hist, s, txs, h, k).ids
    ensures forall j | 0 <= j < k :: txs[j].id !in hist.ids
  {
    hide ApplyTx, RecordTx;
    if k > 0 {
      FreshIds(cfg, hist, s, txs, h, coinbase, k - 1);
      assert ValidAt(cfg, hist, s, txs, h, coinbase, k - 1);
      IdsStep(cfg, hist, s, txs, h, k - 1);
    }
  }

  lemma {:induction false} FreshPending(cfg: Config, chain: seq<Block>, blocks: seq<seq<Tx>>, k: nat)
    requires ValidPending(cfg, chain, blocks) && k <= |blocks|
    ensures ChainHistory(cfg, chain).ids <= PendingHistory(cfg, chain, blocks, k).ids
    ensures ChainHistory(cfg, chain).ids !! IdsOf(Concat(blocks, k))
  {
    hide ApplyTxs, RecordTxs, Replay, ChainHistory;
    if k > 0 {
      FreshPending(cfg, chain, blocks, k - 1);
      PendingStep(cfg, chain, blocks, k - 1);
      assert ValidPendingAt(cfg, chain, blocks, k - 1);
      FreshIds(cfg, PendingHistory(cfg, chain, blocks, k - 1), PendingState(cfg, chain, blocks, k - 1),
               blocks[k - 1], |chain| + k, false, |blocks[k - 1]|);
    }
  }
}
