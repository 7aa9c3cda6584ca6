/** Why the block-at-a-time working state follows the reference ledger: what a block spends is either
    live before it or chained inside it, and chained outputs are gone by its end. */
module Refinement {
  import opened Wrappers
  import opened Types
  import opened RunesSpec
  import opened Ledger
  import opened LedgerProofs
  import opened Supply
  import opened Task
  import opened Context

  ghost predicate KnownIds(m: Utxos, ids: set<Hash>) {
    forall r | r in m :: r.txid in ids
  }

  // --- one transaction

  lemma InputNeeded(txs: seq<Tx>, k: nat, j: nat)
    requires k < |txs| && j < |txs[k].inputs| && !IsCoinbase(txs[k])
    ensures txs[k].inputs[j].prev in InputRefs(txs)
  {
    assert k == 0 ==> Skip(txs) == 0;
  }

  /** The resolver gives a transaction the same inputs as the ledger's UTXO set. */
  lemma ResolveAgrees(view: Kv, resolver: Utxos, txs: seq<Tx>, s: State, k: nat, ids: set<Hash>)
    requires Tracks(view, resolver, txs, s) && k < |txs| && ValidTx(s.utxos, txs[k], ids)
    ensures Resolve(resolver, txs[k]) == Resolve(s.utxos, txs[k])
    ensures !IsCoinbase(txs[k]) ==> forall j | 0 <= j < |txs[k].inputs| :: txs[k].inputs[j].prev in resolver
  {
    var tx := txs[k];
    if !IsCoinbase(tx) {
      forall j | 0 <= j < |tx.inputs|
        ensures tx.inputs[j].prev in resolver && resolver[tx.inputs[j].prev] == s.utxos[tx.inputs[j].prev]
      {
        InputNeeded(txs, k, j);
      }
    }
  }

  /** Moving the working state over a transaction moves it along with the ledger. */
  lemma TracksStep(
    view: Kv, next: Kv, resolver: Utxos, resolver': Utxos, txs: seq<Tx>, s: State, s': State,
    k: nat, h: nat, alloc: seq<Balances>, ids: set<Hash>)
    requires Tracks(view, resolver, txs, s) && KnownIds(s.utxos, ids)
    requires k < |txs| && ValidTx(s.utxos, txs[k], ids) && |alloc| == |txs[k].outputs|
    requires s'.utxos == Produce(s.utxos - Spent(txs[k]), txs[k], h, alloc, |txs[k].outputs|)
    requires Tables(next) == s'.kv
    requires Moved(next, view, ChainedRefs(txs), txs[k], h, alloc)
    requires Handed(resolver', resolver, ChainedRefs(txs), txs[k], h, alloc)
    ensures Tracks(next, resolver', txs, s')
  {
    var tx := txs[k];
    var n := |tx.outputs|;
    forall r
      ensures Lookup(next, UtxoKey(r)) ==
        if r in s'.utxos && r !in ChainedRefs(txs) then Some(UtxoV(s'.utxos[r])) else None
      ensures r in InputRefs(txs) && r in s'.utxos ==> r in resolver' && resolver'[r] == s'.utxos[r]
    {
      ProduceIn(s.utxos - Spent(tx), tx, h, alloc, n, r);
      assert IsNew(tx, r, n) ==> r !in s.utxos && r !in Spent(tx);
    }
  }

  lemma SurvivesTx(cfg: Config, s: State, tx: Tx, h: nat, i: nat, r: TxoRef)
    requires r in ApplyTx(cfg, s, tx, h, i).utxos && r.txid != tx.id
    ensures r in s.utxos && ApplyTx(cfg, s, tx, h, i).utxos[r] == s.utxos[r]
  {
    var a := IndexTx(cfg, s.kv, tx, Resolve(s.utxos, tx), h, i).alloc.outputs;
    ProduceIn(s.utxos - Spent(tx), tx, h, a, |tx.outputs|, r);
  }

  lemma GoneTx(cfg: Config, s: State, tx: Tx, h: nat, i: nat, ids: set<Hash>, r: TxoRef)
    requires ValidTx(s.utxos, tx, ids) && KnownIds(s.utxos, ids)
    requires (r.txid in ids && r !in s.utxos) || (!IsCoinbase(tx) && r in Spent(tx))
    ensures r.txid in ids && r !in ApplyTx(cfg, s, tx, h, i).utxos
  {
    var a := IndexTx(cfg, s.kv, tx, Resolve(s.utxos, tx), h, i).alloc.outputs;
    ProduceIn(s.utxos - Spent(tx), tx, h, a, |tx.outputs|, r);
  }

  // --- the transactions of a block

  lemma {:induction false} SurvivesTxs(cfg: Config, s: State, txs: seq<Tx>, h: nat, k: nat, r: TxoRef)
    requires k <= |txs| && r in ApplyTxs(cfg, s, txs, h, k).utxos && r.txid !in IdsOf(txs)
    ensures r in s.utxos && ApplyTxs(cfg, s, txs, h, k).utxos[r] == s.utxos[r]
  {
    hide ApplyTx;
    if k > 0 {
      assert txs[k - 1] in txs;
      SurvivesTx(cfg, ApplyTxs(cfg, s, txs, h, k - 1), txs[k - 1], h, k - 1, r);
      SurvivesTxs(cfg, s, txs, h, k - 1, r);
    }
  }

  lemma IdsStep(cfg: Config, hist: History, s: State, txs: seq<Tx>, h: nat, k: nat)
    requires k < |txs|
    ensures RecordTxs(cfg, hist, s, txs, h, k + 1).ids == RecordTxs(cfg, hist, s, txs, h, k).ids + {txs[k].id}
  {
  }

  lemma {:induction false} GoneTxs(
    cfg: Config, hist: History, s: State, txs: seq<Tx>, h: nat, coinbase: bool, m: nat, n: nat, r: TxoRef)
    requires Premises(cfg) && Inv(cfg, s, hist, h, 0) && ValidTxs(cfg, hist, s, txs, h, coinbase)
    requires m <= n <= |txs|
    requires r !in ApplyTxs(cfg, s, txs, h, m).utxos && r.txid in RecordTxs(cfg, hist, s, txs, h, m).ids
    ensures r !in ApplyTxs(cfg, s, txs, h, n).utxos && r.txid in RecordTxs(cfg, hist, s, txs, h, n).ids
  {
    hide ApplyTx, RecordTx;
    if m < n {
      IdsStep(cfg, hist, s, txs, h, n - 1);
      GoneTxs(cfg, hist, s, txs, h, coinbase, m, n - 1, r);
      KnownAt(cfg, hist, s, txs, h, coinbase, n - 1);
      assert ValidAt(cfg, hist, s, txs, h, coinbase, n - 1);
      GoneTx(cfg, ApplyTxs(cfg, s, txs, h, n - 1), txs[n - 1], h, n - 1, RecordTxs(cfg, hist, s, txs, h, n - 1).ids, r);
    }
  }

  lemma KnownAt(cfg: Config, hist: History, s: State, txs: seq<Tx>, h: nat, coinbase: bool, k: nat)
    requires Premises(cfg) && Inv(cfg, s, hist, h, 0) && ValidTxs(cfg, hist, s, txs, h, coinbase) && k <= |txs|
    ensures KnownIds(ApplyTxs(cfg, s, txs, h, k).utxos, RecordTxs(cfg, hist, s, txs, h, k).ids)
  {
    hide ApplyTx, RecordTx;
    InvTxs(cfg, s, hist, txs, h, coinbase, k);
  }

  /** What a block spends was live before it, unless the block produces it, and is gone after it. */
  lemma BlockInputs(cfg: Config, hist: History, s: State, txs: seq<Tx>, h: nat, coinbase: bool, r: TxoRef)
    requires Premises(cfg) && Inv(cfg, s, hist, h, 0) && ValidTxs(cfg, hist, s, txs, h, coinbase)
    requires exists k, j :: 0 <= k < |txs| && 0 <= j < |txs[k].inputs| && !IsCoinbase(txs[k]) && txs[k].inputs[j].prev == r
    ensures r.txid !in IdsOf(txs) ==> r in s.utxos
    ensures r !in ApplyTxs(cfg, s, txs, h, |txs|).utxos
    ensures r.txid in RecordTxs(cfg, hist, s, txs, h, |txs|).ids
  {
    hide ApplyTx, RecordTx;
    var k, j :| 0 <= k < |txs| && 0 <= j < |txs[k].inputs| && !IsCoinbase(txs[k]) && txs[k].inputs[j].prev == r;
    assert ValidAt(cfg, hist, s, txs, h, coinbase, k);
    var t := ApplyTxs(cfg, s, txs, h, k);
    assert r in t.utxos;
    if r.txid !in IdsOf(txs) {
      SurvivesTxs(cfg, s, txs, h, k, r);
    }
    KnownAt(cfg, hist, s, txs, h, coinbase, k);
    GoneTx(cfg, t, txs[k], h, k, RecordTxs(cfg, hist, s, txs, h, k).ids, r);
    IdsStep(cfg, hist, s, txs, h, k);
    GoneTxs(cfg, hist, s, txs, h, coinbase, k + 1, |txs|, r);
  }

  /** Without a misplaced coinbase, the refs a block needs are inputs of ordinary transactions. */
  lemma InputOf(txs: seq<Tx>, r: TxoRef)
    requires r in InputRefs(txs)
    requires forall k | 0 < k < |txs| :: !IsCoinbase(txs[k])
    ensures exists k, j :: 0 <= k < |txs| && 0 <= j < |txs[k].inputs| && !IsCoinbase(txs[k]) && txs[k].inputs[j].prev == r
  {
    var k, j :| 0 <= k < |txs| && Skip(txs) <= k && 0 <= j < |txs[k].inputs| && txs[k].inputs[j].prev == r;
    assert !IsCoinbase(txs[k]);
  }

  // --- start and end of a block

  /** A store that shows exactly a ledger state. */
  ghost predicate Shows(view: Kv, s: State) {
    && Tables(view) == s.kv
    && forall r :: Lookup(view, UtxoKey(r)) == if r in s.utxos then Some(UtxoV(s.utxos[r])) else None
  }

  lemma TracksStart(view: Kv, resolver: Utxos, txs: seq<Tx>, s: State, ids: set<Hash>)
    requires Shows(view, s) && KnownIds(s.utxos, ids) && ids !! IdsOf(txs)
    requires resolver.Keys == InputRefs(txs) - ChainedRefs(txs)
    requires forall r | r in resolver :: UtxoIn(view, r) == Some(resolver[r])
    ensures Tracks(view, resolver, txs, s)
  {
    forall r
      ensures r in ChainedRefs(txs) ==> r !in s.utxos
      ensures r in InputRefs(txs) && r in s.utxos ==> r in resolver && resolver[r] == s.utxos[r]
    {
      assert Lookup(view, UtxoKey(r)) == if r in s.utxos then Some(UtxoV(s.utxos[r])) else None;
    }
  }

  lemma TracksEnd(view: Kv, resolver: Utxos, txs: seq<Tx>, s: State)
    requires Tracks(view, resolver, txs, s)
    requires forall r | r in ChainedRefs(txs) :: r !in s.utxos
    ensures Shows(view, s)
  {
  }
}
