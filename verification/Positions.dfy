/** The tables against the transactions themselves: which outputs are live, where they are listed and how
    often a script was touched, read off the list of all transactions in the order they were applied. */
module Positions {
  import opened Wrappers
  import opened Types
  import opened RunesSpec
  import opened Ledger
  import opened LedgerProofs
  import opened Supply

  /** A transaction and the height of its block. */
  datatype Placed = Placed(tx: Tx, height: nat)

  function PlacedAt(txs: seq<Tx>, h: nat): seq<Placed> {
    seq(|txs|, i requires 0 <= i < |txs| => Placed(txs[i], h))
  }

  function ChainTrace(chain: seq<Block>): seq<Placed> {
    if chain == [] then []
    else ChainTrace(chain[..|chain| - 1]) + PlacedAt(chain[|chain| - 1].txs, |chain|)
  }

  function PendingTrace(chain: seq<Block>, blocks: seq<seq<Tx>>, k: nat): seq<Placed>
    requires k <= |blocks|
  {
    if k == 0 then ChainTrace(chain)
    else PendingTrace(chain, blocks, k - 1) + PlacedAt(blocks[k - 1], |chain| + k)
  }

  /** All transactions of a chain and of the estimated blocks on it, first to last. */
  function Trace(chain: seq<Block>, pending: Pending): seq<Placed> {
    match pending
    case None => ChainTrace(chain)
    case Some(blocks) => PendingTrace(chain, blocks, |blocks|)
  }

  // --- what the transactions say

  predicate Makes(p: Placed, r: TxoRef) {
    r.txid == p.tx.id && r.vout < |p.tx.outputs|
  }

  function Made(p: Placed, r: TxoRef): Output
    requires Makes(p, r)
  {
    p.tx.outputs[r.vout]
  }

  predicate Spends(p: Placed, r: TxoRef) {
    exists j | 0 <= j < |p.tx.inputs| :: p.tx.inputs[j].prev == r
  }

  /** The n-th transaction makes the output and no later one spends it. */
  predicate Unspent(t: seq<Placed>, n: nat, r: TxoRef) {
    n < |t| && Makes(t[n], r) && forall k | n < k < |t| :: !Spends(t[k], r)
  }

  predicate Live(t: seq<Placed>, n: nat, r: TxoRef) {
    Unspent(t, n, r) && !IsOpReturn(Made(t[n], r).script)
  }

  /** The n-th transaction makes the output, under this script and height, and no later one spends it. */
  predicate Listed(t: seq<Placed>, n: nat, script: Script, height: nat, r: TxoRef) {
    Unspent(t, n, r) && Made(t[n], r).script == script && t[n].height == height
  }

  predicate PaysTo(p: Placed, script: Script) {
    exists j | 0 <= j < |p.tx.outputs| :: p.tx.outputs[j].script == script
  }

  /** The n-th transaction spends, with its j-th input, an output of the script made by the k-th. */
  predicate SpendsFromAt(t: seq<Placed>, n: nat, script: Script, j: nat, k: nat) {
    && k < n < |t| && j < |t[n].tx.inputs|
    && Makes(t[k], t[n].tx.inputs[j].prev) && Made(t[k], t[n].tx.inputs[j].prev).script == script
  }

  predicate SpendsFrom(t: seq<Placed>, n: nat, script: Script)
    requires n < |t|
  {
    exists j: nat, k: nat | j < |t[n].tx.inputs| && k < n :: SpendsFromAt(t, n, script, j, k)
  }

  predicate Touches(t: seq<Placed>, n: nat, script: Script)
    requires n < |t|
  {
    PaysTo(t[n], script) || SpendsFrom(t, n, script)
  }

  /** The positions of the transactions that spend from a script or pay to it. */
  function Spots(t: seq<Placed>, script: Script): set<nat> {
    set n: nat | n < |t| && Touches(t, n, script)
  }

  // --- the tables say the same

  ghost predicate Distinct(t: seq<Placed>, ids: set<Hash>) {
    && (forall n | 0 <= n < |t| :: t[n].tx.id in ids && t[n].tx.id != NULL_TXID)
    && (forall i, j | 0 <= i < j < |t| :: t[i].tx.id != t[j].tx.id)
  }

  /** The entry of an output is what the transaction that made it says. */
  predicate IsOutput(u: Utxo, p: Placed, r: TxoRef) {
    && Makes(p, r)
    && u.satoshis == Made(p, r).satoshis && u.script == Made(p, r).script && u.height == p.height
  }

  ghost predicate Entered(t: seq<Placed>, m: Utxos, n: nat, r: TxoRef) {
    n < |t| && r in m && IsOutput(m[r], t[n], r)
  }

  ghost predicate UtxosTold(t: seq<Placed>, m: Utxos) {
    && (forall n: nat, r | Live(t, n, r) :: Entered(t, m, n, r))
    && (forall r | r in m :: exists n: nat :: Live(t, n, r))
  }

  ghost predicate AddressesTold(t: seq<Placed>, kv: Kv) {
    forall s, h, r :: AddressKey(s, h, r) in kv <==> exists n: nat :: Listed(t, n, s, h, r)
  }

  ghost predicate CountsTold(t: seq<Placed>, hist: History) {
    forall s :: Touched(hist, s) == |Spots(t, s)|
  }

  ghost predicate Told(cfg: Config, t: seq<Placed>, s: State, hist: History) {
    && Distinct(t, hist.ids)
    && UtxosTold(t, s.utxos)
    && (cfg.byAddress ==> AddressesTold(t, s.kv))
    && CountsTold(t, hist)
  }

  // --- one transaction more

  lemma UnspentStep(t: seq<Placed>, p: Placed, n: nat, r: TxoRef)
    ensures Unspent(t + [p], n, r) <==> if n < |t| then Unspent(t, n, r) && !Spends(p, r) else n == |t| && Makes(p, r)
  {
    hide Spends;
    var t' := t + [p];
    if n < |t| && Unspent(t', n, r) {
      assert t'[|t|] == p;
      forall k | n < k < |t|
        ensures !Spends(t[k], r)
      {
        assert t'[k] == t[k];
      }
    }
  }

  lemma SpendsIn(p: Placed, r: TxoRef)
    ensures Spends(p, r) <==> r in Spent(p.tx)
  {
  }

  lemma LiveStep(t: seq<Placed>, m: Utxos, p: Placed, alloc: seq<Balances>, ids: set<Hash>, n: nat, r: TxoRef)
    requires Distinct(t, ids) && UtxosTold(t, m) && p.tx.id !in ids && |alloc| == |p.tx.outputs|
    requires Live(t + [p], n, r)
    ensures Entered(t + [p], Produce(m - Spent(p.tx), p.tx, p.height, alloc, |p.tx.outputs|), n, r)
  {
    hide Unspent, Spends, Spent, Produce;
    UnspentStep(t, p, n, r);
    SpendsIn(p, r);
    ProduceIn(m - Spent(p.tx), p.tx, p.height, alloc, |p.tx.outputs|, r);
    if n < |t| {
      assert Live(t, n, r);
      assert Entered(t, m, n, r);
    }
  }

  lemma StaysLive(t: seq<Placed>, m: Utxos, p: Placed, alloc: seq<Balances>, r: TxoRef)
    requires UtxosTold(t, m) && |alloc| == |p.tx.outputs|
    requires r in Produce(m - Spent(p.tx), p.tx, p.height, alloc, |p.tx.outputs|)
    ensures exists n: nat :: Live(t + [p], n, r)
  {
    hide Unspent, Spends, Spent, Produce;
    SpendsIn(p, r);
    ProduceIn(m - Spent(p.tx), p.tx, p.height, alloc, |p.tx.outputs|, r);
    if Makes(p, r) && !IsOpReturn(Made(p, r).script) {
      UnspentStep(t, p, |t|, r);
      assert Live(t + [p], |t|, r);
    } else {
      var n: nat :| Live(t, n, r);
      assert Entered(t, m, n, r);
      UnspentStep(t, p, n, r);
      assert (t + [p])[n] == t[n];
      assert Live(t + [p], n, r);
    }
  }

  lemma UtxosStep(t: seq<Placed>, m: Utxos, p: Placed, alloc: seq<Balances>, ids: set<Hash>)
    requires Distinct(t, ids) && UtxosTold(t, m) && p.tx.id !in ids && |alloc| == |p.tx.outputs|
    ensures UtxosTold(t + [p], Produce(m - Spent(p.tx), p.tx, p.height, alloc, |p.tx.outputs|))
  {
    hide Live, Entered, Spent, Produce, Distinct;
    var t', m' := t + [p], Produce(m - Spent(p.tx), p.tx, p.height, alloc, |p.tx.outputs|);
    forall n: nat, r | Live(t', n, r)
      ensures Entered(t', m', n, r)
    {
      LiveStep(t, m, p, alloc, ids, n, r);
    }
    forall r | r in m'
      ensures exists n: nat :: Live(t', n, r)
    {
      StaysLive(t, m, p, alloc, r);
    }
  }

  lemma FreshId(m: Utxos, tx: Tx, ids: set<Hash>)
    requires ValidTx(m, tx, ids)
    ensures tx.id !in ids && tx.id != NULL_TXID
  {
  }

  lemma DistinctStep(t: seq<Placed>, p: Placed, ids: set<Hash>)
    requires Distinct(t, ids) && p.tx.id !in ids && p.tx.id != NULL_TXID
    ensures Distinct(t + [p], ids + {p.tx.id})
  {
  }

  /** Only one transaction makes an output. */
  lemma OneMaker(t: seq<Placed>, ids: set<Hash>, i: nat, j: nat, r: TxoRef)
    requires Distinct(t, ids) && i < |t| && j < |t| && Makes(t[i], r) && Makes(t[j], r)
    ensures i == j && r.txid != NULL_TXID
  {
  }

  // --- listed outputs

  /** The resolved input that spends a listed output carries the listed script and height. */
  lemma SpentListed(t: seq<Placed>, m: Utxos, p: Placed, ids: set<Hash>, n: nat, s: Script, h: nat, r: TxoRef, j: nat)
    requires Distinct(t, ids) && UtxosTold(t, m) && ValidTx(m, p.tx, ids)
    requires Listed(t, n, s, h, r) && j < |p.tx.inputs| && p.tx.inputs[j].prev == r
    ensures var ins := Resolve(m, p.tx); j < |ins| && ins[j].script == s && ins[j].height == h
  {
    hide Unspent;
    UnspentMakes(t, n, r);
    OneMaker(t, ids, n, n, r);
    assert !IsCoinbase(p.tx);
    var k: nat :| Live(t, k, r);
    UnspentMakes(t, k, r);
    OneMaker(t, ids, n, k, r);
  }

  lemma UnspentMakes(t: seq<Placed>, n: nat, r: TxoRef)
    requires Unspent(t, n, r)
    ensures n < |t| && Makes(t[n], r)
  {
  }

  lemma ListedStep(t: seq<Placed>, p: Placed, s: Script, h: nat, r: TxoRef)
    ensures (exists n: nat :: Listed(t + [p], n, s, h, r)) <==>
      || (Makes(p, r) && Made(p, r).script == s && p.height == h)
      || (!Spends(p, r) && exists n: nat :: Listed(t, n, s, h, r))
  {
    hide Unspent, Spends;
    var t' := t + [p];
    if n: nat :| Listed(t', n, s, h, r) {
      UnspentStep(t, p, n, r);
      if n < |t| {
        assert Listed(t, n, s, h, r);
      }
    }
    if Makes(p, r) && Made(p, r).script == s && p.height == h {
      UnspentStep(t, p, |t|, r);
      assert Listed(t', |t|, s, h, r);
    }
    if n: nat :| !Spends(p, r) && Listed(t, n, s, h, r) {
      UnspentStep(t, p, n, r);
      assert n < |t| && t'[n] == t[n] by { UnspentMakes(t, n, r); }
      assert Listed(t', n, s, h, r);
    }
  }

  lemma AddressAt(t: seq<Placed>, m: Utxos, kv: Kv, p: Placed, ids: set<Hash>, s: Script, h: nat, r: TxoRef)
    requires Distinct(t, ids) && UtxosTold(t, m) && AddressesTold(t, kv) && ValidTx(m, p.tx, ids)
    ensures AddressKey(s, h, r) in AddressesTx(kv, p.tx, Resolve(m, p.tx), p.height)
       <==> exists n: nat :: Listed(t + [p], n, s, h, r)
  {
    hide Listed, SpendAddresses, RecordAddresses, UtxosTold, ValidTx, Distinct;
    var tx, ins, key := p.tx, Resolve(m, p.tx), AddressKey(s, h, r);
    var spent := SpendAddresses(kv, tx, ins, |ins|);
    ListedStep(t, p, s, h, r);
    SpendAddressesIn(kv, tx, ins, |ins|, key);
    RecordAddressesIn(spent, tx, p.height, |tx.outputs|, key);
    if Makes(p, r) {
      assert TxoRef(tx.id, r.vout) == r;
    }
    if n: nat :| Listed(t, n, s, h, r) {
      if Spends(p, r) {
        var j :| 0 <= j < |tx.inputs| && tx.inputs[j].prev == r;
        SpentListed(t, m, p, ids, n, s, h, r, j);
      }
    }
  }

  lemma AddressesStep(cfg: Config, t: seq<Placed>, s: State, hist: History, p: Placed, i: nat)
    requires Told(cfg, t, s, hist) && ValidTx(s.utxos, p.tx, hist.ids) && cfg.byAddress
    ensures AddressesTold(t + [p], ApplyTx(cfg, s, p.tx, p.height, i).kv)
  {
    hide AddressesTx, Listed, UtxosTold, ValidTx, Distinct, CountsTold;
    var tx, ins := p.tx, Resolve(s.utxos, p.tx);
    forall script, h, r
      ensures AddressKey(script, h, r) in ApplyTx(cfg, s, tx, p.height, i).kv <==> exists n: nat :: Listed(t + [p], n, script, h, r)
    {
      var k := AddressKey(script, h, r);
      AddressAt(t, s.utxos, s.kv, p, hist.ids, script, h, r);
      PlainFrame(cfg, s.kv, tx, ins, p.height, k);
      RunesPartFrame(cfg, PlainIndexes(cfg, s.kv, tx, ins, p.height), tx, ins, p.height, i, k);
    }
  }

  // --- counted transactions

  /** The scripts of the ledger are the ones the trace names. */
  lemma ScriptsTold(t: seq<Placed>, m: Utxos, p: Placed, ids: set<Hash>, script: Script)
    requires Distinct(t, ids) && UtxosTold(t, m) && ValidTx(m, p.tx, ids)
    ensures script in Scripts(p.tx, Resolve(m, p.tx)) <==> Touches(t + [p], |t|, script)
  {
    hide Unspent, Distinct;
    var t', ins := t + [p], Resolve(m, p.tx);
    if j :| 0 <= j < |ins| && ins[j].script == script {
      var r := p.tx.inputs[j].prev;
      var k: nat :| Live(t, k, r);
      UnspentMakes(t, k, r);
      assert SpendsFromAt(t', |t|, script, j, k);
    }
    if j: nat, k: nat :| j < |p.tx.inputs| && k < |t| && SpendsFromAt(t', |t|, script, j, k) {
      var r := p.tx.inputs[j].prev;
      OneMaker(t, ids, k, k, r);
      assert !IsCoinbase(p.tx);
      var n: nat :| Live(t, n, r);
      UnspentMakes(t, n, r);
      OneMaker(t, ids, k, n, r);
      assert ins[j].script == script;
    }
  }

  lemma TouchesPrefix(t: seq<Placed>, p: Placed, n: nat, script: Script)
    requires n < |t|
    ensures Touches(t + [p], n, script) <==> Touches(t, n, script)
  {
    var t' := t + [p];
    forall j: nat, k: nat
      ensures SpendsFromAt(t', n, script, j, k) <==> SpendsFromAt(t, n, script, j, k)
    {
    }
  }

  lemma SpotsStep(t: seq<Placed>, p: Placed, script: Script)
    ensures |Spots(t + [p], script)| == |Spots(t, script)| + if Touches(t + [p], |t|, script) then 1 else 0
  {
    hide Touches;
    forall n: nat | n < |t|
      ensures Touches(t + [p], n, script) <==> Touches(t, n, script)
    {
      TouchesPrefix(t, p, n, script);
    }
    var before := Spots(t, script);
    assert Spots(t + [p], script) == if Touches(t + [p], |t|, script) then before + {|t|} else before;
  }

  lemma CountsStep(cfg: Config, t: seq<Placed>, s: State, hist: History, p: Placed, i: nat)
    requires Told(cfg, t, s, hist) && ValidTx(s.utxos, p.tx, hist.ids)
    ensures CountsTold(t + [p], RecordTx(cfg, hist, s, p.tx, p.height, i))
  {
    hide Touches, Spots, UtxosTold, AddressesTold, ValidTx, Distinct, IndexTx, Resolve, Scripts;
    forall script
      ensures Touched(RecordTx(cfg, hist, s, p.tx, p.height, i), script) == |Spots(t + [p], script)|
    {
      ScriptsTold(t, s.utxos, p, hist.ids, script);
      SpotsStep(t, p, script);
    }
  }

  lemma ToldStep(cfg: Config, t: seq<Placed>, s: State, hist: History, p: Placed, i: nat)
    requires Told(cfg, t, s, hist) && ValidTx(s.utxos, p.tx, hist.ids)
    ensures Told(cfg, t + [p], ApplyTx(cfg, s, p.tx, p.height, i), RecordTx(cfg, hist, s, p.tx, p.height, i))
  {
    hide Distinct, UtxosTold, AddressesTold, CountsTold, ValidTx, IndexTx, Produce, Resolve, Touch;
    FreshId(s.utxos, p.tx, hist.ids);
    DistinctStep(t, p, hist.ids);
    UtxosStep(t, s.utxos, p, IndexTx(cfg, s.kv, p.tx, Resolve(s.utxos, p.tx), p.height, i).alloc.outputs, hist.ids);
    CountsStep(cfg, t, s, hist, p, i);
    if cfg.byAddress {
      AddressesStep(cfg, t, s, hist, p, i);
    }
  }

  // --- blocks, chains and estimated blocks

  lemma {:induction false} ToldTxs(
    cfg: Config, t: seq<Placed>, hist: History, s: State, txs: seq<Tx>, h: nat, coinbase: bool, k: nat)
    requires Told(cfg, t, s, hist) && ValidTxs(cfg, hist, s, txs, h, coinbase) && k <= |txs|
    ensures Told(cfg, t + PlacedAt(txs, h)[..k], ApplyTxs(cfg, s, txs, h, k), RecordTxs(cfg, hist, s, txs, h, k))
    decreases k
  {
    hide Told, ApplyTx, RecordTx, ValidTx;
    if k == 0 {
      assert t + PlacedAt(txs, h)[..0] == t;
    } else {
      ToldTxs(cfg, t, hist, s, txs, h, coinbase, k - 1);
      assert ValidAt(cfg, hist, s, txs, h, coinbase, k - 1);
      var before, p := t + PlacedAt(txs, h)[..k - 1], Placed(txs[k - 1], h);
      ToldStep(cfg, before, ApplyTxs(cfg, s, txs, h, k - 1), RecordTxs(cfg, hist, s, txs, h, k - 1), p, k - 1);
      assert before + [p] == t + PlacedAt(txs, h)[..k];
    }
  }

  lemma ToldBlock(cfg: Config, t: seq<Placed>, hist: History, s: State, txs: seq<Tx>, h: nat, coinbase: bool)
    requires Told(cfg, t, s, hist) && ValidTxs(cfg, hist, s, txs, h, coinbase)
    ensures Told(cfg, t + PlacedAt(txs, h), ApplyTxs(cfg, s, txs, h, |txs|), RecordTxs(cfg, hist, s, txs, h, |txs|))
  {
    hide Told, ApplyTxs, RecordTxs, ValidTxs;
    ToldTxs(cfg, t, hist, s, txs, h, coinbase, |txs|);
    assert PlacedAt(txs, h)[..|txs|] == PlacedAt(txs, h);
  }

  /** Writing other tables changes nothing here. */
  lemma ToldClose(cfg: Config, t: seq<Placed>, s: State, hist: History, key: Key, v: Value)
    requires Told(cfg, t, s, hist) && !key.AddressKey?
    ensures Told(cfg, t, s.(kv := s.kv[key := v]), hist)
  {
    hide Distinct, UtxosTold, CountsTold, Listed;
  }

  lemma {:induction false} ToldChain(cfg: Config, chain: seq<Block>)
    requires ValidChain(cfg, chain)
    ensures Told(cfg, ChainTrace(chain), Replay(cfg, chain), ChainHistory(cfg, chain))
    decreases |chain|
  {
    hide Told, ApplyTxs, RecordTxs, ValidTxs;
    if chain == [] {
      ToldEmpty(cfg);
    } else {
      var n, b := |chain|, chain[|chain| - 1];
      var prefix := chain[..n - 1];
      ToldChain(cfg, prefix);
      ToldBlock(cfg, ChainTrace(prefix), ChainHistory(cfg, prefix), Replay(cfg, prefix), b.txs, n, true);
      var s := ApplyTxs(cfg, Replay(cfg, prefix), b.txs, n, |b.txs|);
      var info := InfoV(IndexerInfo(n, b.hash, false));
      ToldClose(cfg, ChainTrace(chain), s, ChainHistory(cfg, chain), InfoKey, info);
      ToldClose(cfg, ChainTrace(chain), s.(kv := s.kv[InfoKey := info]), ChainHistory(cfg, chain), HashKey(n), HashV(b.hash));
    }
  }

  lemma ToldEmpty(cfg: Config)
    ensures Told(cfg, ChainTrace([]), Replay(cfg, []), ChainHistory(cfg, []))
  {
    assert forall s :: Spots([], s) == {} && Touched(ChainHistory(cfg, []), s) == 0;
  }

  lemma {:induction false} ToldPending(cfg: Config, chain: seq<Block>, blocks: seq<seq<Tx>>, k: nat)
    requires ValidChain(cfg, chain) && ValidPending(cfg, chain, blocks) && k <= |blocks|
    ensures Told(cfg, PendingTrace(chain, blocks, k), ApplyMempool(cfg, Replay(cfg, chain), Tip(cfg, chain), blocks, k),
                 PendingHistory(cfg, chain, blocks, k))
    decreases k
  {
    hide Told, ApplyTxs, RecordTxs, ValidTxs, ValidChain, Replay, ChainHistory, ChainTrace, Tip;
    if k == 0 {
      ToldChain(cfg, chain);
    } else {
      ToldPending(cfg, chain, blocks, k - 1);
      assert ValidPendingAt(cfg, chain, blocks, k - 1);
      var h, tip, txs := |chain| + k, Tip(cfg, chain), blocks[k - 1];
      assert tip.height == |chain| by { TipIsLast(cfg, chain); }
      var s := ApplyMempool(cfg, Replay(cfg, chain), tip, blocks, k - 1);
      ToldBlock(cfg, PendingTrace(chain, blocks, k - 1), PendingHistory(cfg, chain, blocks, k - 1), s, txs, h, false);
      ToldClose(cfg, PendingTrace(chain, blocks, k), ApplyTxs(cfg, s, txs, h, |txs|), PendingHistory(cfg, chain, blocks, k),
                InfoKey, InfoV(IndexerInfo(h, tip.hash, true)));
    }
  }

  lemma TipIsLast(cfg: Config, chain: seq<Block>)
    ensures Tip(cfg, chain).height == |chain|
  {
  }

  lemma ToldIndexed(cfg: Config, chain: seq<Block>, pending: Pending)
    requires ValidIndex(cfg, chain, pending)
    ensures Told(cfg, Trace(chain, pending), Indexed(cfg, chain, pending), IndexedHistory(cfg, chain, pending))
  {
    hide Told, Replay, ChainHistory, ApplyMempool, PendingHistory, PendingTrace, ChainTrace, ValidChain, ValidPending;
    match pending {
      case None => ToldChain(cfg, chain);
      case Some(blocks) => ToldPending(cfg, chain, blocks, |blocks|);
    }
  }

  // --- main results

  /** An output is live exactly when a transaction of the chain or the estimates made it, not as an
      OP_RETURN, and no later one spends it; then its entry has that output's satoshis and script and that
      transaction's height. */
  lemma LiveOutputs(cfg: Config, chain: seq<Block>, pending: Pending, r: TxoRef)
    requires ValidIndex(cfg, chain, pending)
    ensures var m, t := Indexed(cfg, chain, pending).utxos, Trace(chain, pending);
            && (r in m <==> exists n: nat :: Live(t, n, r))
            && forall n: nat | Live(t, n, r) :: n < |t| && r in m && IsOutput(m[r], t[n], r)
  {
    hide Indexed, IndexedHistory, Trace, ValidIndex, Live, IsOutput, AddressesTold, CountsTold, Distinct;
    ToldIndexed(cfg, chain, pending);
    var m, t := Indexed(cfg, chain, pending).utxos, Trace(chain, pending);
    assert forall n: nat | Live(t, n, r) :: Entered(t, m, n, r);
  }

  /** The by-address table lists an output, spendable or not, exactly when a transaction made it under that
      script and height and no later one spends it. */
  lemma ListedOutputs(cfg: Config, chain: seq<Block>, pending: Pending, script: Script, height: nat, r: TxoRef)
    requires ValidIndex(cfg, chain, pending) && cfg.byAddress
    ensures AddressKey(script, height, r) in Indexed(cfg, chain, pending).kv
       <==> exists n: nat :: Listed(Trace(chain, pending), n, script, height, r)
  {
    hide Indexed, IndexedHistory, Trace, ValidIndex, Listed, UtxosTold, CountsTold, Distinct;
    ToldIndexed(cfg, chain, pending);
  }

  /** The stored count of a script is the number of transactions, on the chain and in the estimates, that
      spend from it or pay to it. */
  lemma Recount(cfg: Config, chain: seq<Block>, pending: Pending, script: Script)
    requires Premises(cfg) && ValidIndex(cfg, chain, pending) && cfg.txCount
    ensures NumAt(Indexed(cfg, chain, pending).kv, CountKey(script))
         == Min(|Spots(Trace(chain, pending), script)|, U128_MAX)
  {
    hide Indexed, IndexedHistory, Trace, Touched, Spots, ValidIndex, UtxosTold, AddressesTold, Distinct;
    TransactionCounts(cfg, chain, pending, script);
    ToldIndexed(cfg, chain, pending);
  }
}
