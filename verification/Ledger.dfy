/** The reference ledger: what the index should hold after a chain of blocks, applied one
    transaction at a time to a UTXO set and the tables beside it, with no task buffer, no resolver,
    no cache and no journal. */
module Ledger {
  import opened Wrappers
  import opened Types
  import opened RunesSpec

  datatype Config = Config(
    genesis: Hash,
    maxRollback: nat,
    txCount: bool,
    byAddress: bool,
    runes: Option<RunesConfig>)

  type Utxos = map<TxoRef, Utxo>

  datatype State = State(utxos: Utxos, kv: Kv)

  // --- resolving inputs

  const MISSING: Utxo := Utxo(0, [], 0, map[])

  function UtxoAt(m: Utxos, r: TxoRef): Utxo {
    if r in m then m[r] else MISSING
  }

  /** The outputs a transaction spends; a coinbase spends none. */
  function Resolve(m: Utxos, tx: Tx): (ins: seq<Utxo>)
    ensures |ins| == if IsCoinbase(tx) then 0 else |tx.inputs|
    ensures |ins| <= |tx.inputs|
  {
    if IsCoinbase(tx) then []
    else seq(|tx.inputs|, j requires 0 <= j < |tx.inputs| => UtxoAt(m, tx.inputs[j].prev))
  }

  // --- transaction counts

  function Scripts(tx: Tx, ins: seq<Utxo>): set<Script> {
    (set u | u in ins :: u.script) + (set o | o in tx.outputs :: o.script)
  }

  function CountScripts(kv: Kv, scripts: set<Script>): Kv {
    map k | k in kv.Keys + (set s | s in scripts :: CountKey(s)) ::
      if k.CountKey? && k.script in scripts then NumV(Min(NumAt(kv, k) + 1, U128_MAX)) else kv[k]
  }

  // --- outputs by address

  function SpendAddresses(kv: Kv, tx: Tx, ins: seq<Utxo>, k: nat): Kv
    requires k <= |ins| <= |tx.inputs|
  {
    if k == 0 then kv
    else SpendAddresses(kv, tx, ins, k - 1)
         - {AddressKey(ins[k - 1].script, ins[k - 1].height, tx.inputs[k - 1].prev)}
  }

  function RecordAddresses(kv: Kv, tx: Tx, h: nat, k: nat): Kv
    requires k <= |tx.outputs|
  {
    if k == 0 then kv
    else RecordAddresses(kv, tx, h, k - 1)[AddressKey(tx.outputs[k - 1].script, h, TxoRef(tx.id, k - 1)) := UnitV]
  }

  function AddressesTx(kv: Kv, tx: Tx, ins: seq<Utxo>, h: nat): Kv
    requires |ins| <= |tx.inputs|
  {
    RecordAddresses(SpendAddresses(kv, tx, ins, |ins|), tx, h, |tx.outputs|)
  }

  // --- the UTXO set

  function SpentFirst(tx: Tx, k: nat): set<TxoRef>
    requires k <= |tx.inputs|
  {
    set j | 0 <= j < k :: tx.inputs[j].prev
  }

  function Spent(tx: Tx): set<TxoRef> {
    SpentFirst(tx, |tx.inputs|)
  }

  function NewUtxo(tx: Tx, j: nat, h: nat, alloc: seq<Balances>): Utxo
    requires j < |tx.outputs| == |alloc|
  {
    Utxo(tx.outputs[j].satoshis, tx.outputs[j].script, h, alloc[j])
  }

  function Produce(m: Utxos, tx: Tx, h: nat, alloc: seq<Balances>, k: nat): Utxos
    requires k <= |tx.outputs| == |alloc|
  {
    if k == 0 then m
    else if IsOpReturn(tx.outputs[k - 1].script) then Produce(m, tx, h, alloc, k - 1)
    else Produce(m, tx, h, alloc, k - 1)[TxoRef(tx.id, k - 1) := NewUtxo(tx, k - 1, h, alloc)]
  }

  // --- transactions, blocks, chains

  predicate RunesActive(cfg: Config, h: nat) {
    cfg.runes.Some? && h >= cfg.runes.value.startHeight
  }

  function RunesPart(cfg: Config, kv: Kv, tx: Tx, ins: seq<Utxo>, h: nat, i: nat): (r: RunesResult)
    requires |ins| <= |tx.inputs|
    ensures |r.alloc.outputs| == |tx.outputs|
  {
    if RunesActive(cfg, h) then RunesTx(cfg.runes.value, kv, tx, ins, h, i)
    else RunesResult(kv, Allocation(Empties(|tx.outputs|), map[]))
  }

  /** The tables other than the UTXO set, before the rune indexer sees the transaction. */
  function PlainIndexes(cfg: Config, kv: Kv, tx: Tx, ins: seq<Utxo>, h: nat): Kv
    requires |ins| <= |tx.inputs|
  {
    var kv1 := if cfg.txCount then CountScripts(kv, Scripts(tx, ins)) else kv;
    if cfg.byAddress then AddressesTx(kv1, tx, ins, h) else kv1
  }

  function IndexTx(cfg: Config, kv: Kv, tx: Tx, ins: seq<Utxo>, h: nat, i: nat): (r: RunesResult)
    requires |ins| <= |tx.inputs|
    ensures |r.alloc.outputs| == |tx.outputs|
  {
    RunesPart(cfg, PlainIndexes(cfg, kv, tx, ins, h), tx, ins, h, i)
  }

  function ApplyTx(cfg: Config, s: State, tx: Tx, h: nat, i: nat): State {
    var r := IndexTx(cfg, s.kv, tx, Resolve(s.utxos, tx), h, i);
    State(Produce(s.utxos - Spent(tx), tx, h, r.alloc.outputs, |tx.outputs|), r.kv)
  }

  function ApplyTxs(cfg: Config, s: State, txs: seq<Tx>, h: nat, k: nat): State
    requires k <= |txs|
  {
    if k == 0 then s else ApplyTx(cfg, ApplyTxs(cfg, s, txs, h, k - 1), txs[k - 1], h, k - 1)
  }

  function ApplyBlock(cfg: Config, s: State, b: Block, h: nat): State {
    var s' := ApplyTxs(cfg, s, b.txs, h, |b.txs|);
    s'.(kv := s'.kv[InfoKey := InfoV(IndexerInfo(h, b.hash, false))][HashKey(h) := HashV(b.hash)])
  }

  /** The index of a chain of blocks at heights 1, 2, ..., built from nothing. */
  function Replay(cfg: Config, chain: seq<Block>): State {
    if chain == [] then State(map[], map[])
    else ApplyBlock(cfg, Replay(cfg, chain[..|chain| - 1]), chain[|chain| - 1], |chain|)
  }

  function Tip(cfg: Config, chain: seq<Block>): Point {
    Point(|chain|, if chain == [] then cfg.genesis else chain[|chain| - 1].hash)
  }

  /** Estimated blocks sit on the tip at successive heights, all under the tip's hash. */
  function ApplyMempool(cfg: Config, s: State, tip: Point, blocks: seq<seq<Tx>>, k: nat): State
    requires k <= |blocks|
  {
    if k == 0 then s else
    var s' := ApplyTxs(cfg, ApplyMempool(cfg, s, tip, blocks, k - 1), blocks[k - 1], tip.height + k, |blocks[k - 1]|);
    s'.(kv := s'.kv[InfoKey := InfoV(IndexerInfo(tip.height + k, tip.hash, true))])
  }

  type Pending = Option<seq<seq<Tx>>>

  /** The index of a chain with, possibly, estimated blocks on top. */
  function Indexed(cfg: Config, chain: seq<Block>, pending: Pending): State {
    var s := Replay(cfg, chain);
    if pending.None? then s
    else ApplyMempool(cfg, s, Tip(cfg, chain), pending.value, |pending.value|)
  }

  // --- what happened along the way

  /** What a chain has done, kept beside its index: the transaction ids it used, for every script the
      number of transactions that spent from it or paid to it, and the runes it burned. */
  datatype History = History(ids: set<Hash>, touched: map<Script, nat>, burned: Balances)

  function Touched(hist: History, script: Script): nat {
    if script in hist.touched then hist.touched[script] else 0
  }

  function Touch(hist: History, scripts: set<Script>): map<Script, nat> {
    map s | s in hist.touched.Keys + scripts :: Touched(hist, s) + if s in scripts then 1 else 0
  }

  /** Runes given to the OP_RETURN outputs among the first `k`, which nobody can spend. */
  function BurnedOutputs(tx: Tx, alloc: seq<Balances>, k: nat): Balances
    requires k <= |tx.outputs| == |alloc|
  {
    if k == 0 then map[]
    else if IsOpReturn(tx.outputs[k - 1].script) then Sum(BurnedOutputs(tx, alloc, k - 1), alloc[k - 1])
    else BurnedOutputs(tx, alloc, k - 1)
  }

  function BurnedBy(tx: Tx, a: Allocation): Balances
    requires |a.outputs| == |tx.outputs|
  {
    Sum(a.burned, BurnedOutputs(tx, a.outputs, |tx.outputs|))
  }

  function RecordTx(cfg: Config, hist: History, s: State, tx: Tx, h: nat, i: nat): History {
    var ins := Resolve(s.utxos, tx);
    History(hist.ids + {tx.id},
            Touch(hist, Scripts(tx, ins)),
            Sum(hist.burned, BurnedBy(tx, IndexTx(cfg, s.kv, tx, ins, h, i).alloc)))
  }

  function RecordTxs(cfg: Config, hist: History, s: State, txs: seq<Tx>, h: nat, k: nat): History
    requires k <= |txs|
  {
    if k == 0 then hist
    else RecordTx(cfg, RecordTxs(cfg, hist, s, txs, h, k - 1), ApplyTxs(cfg, s, txs, h, k - 1), txs[k - 1], h, k - 1)
  }

  function ChainHistory(cfg: Config, chain: seq<Block>): History {
    if chain == [] then History({}, map[], map[])
    else
      var prefix := chain[..|chain| - 1];
      var txs := chain[|chain| - 1].txs;
      RecordTxs(cfg, ChainHistory(cfg, prefix), Replay(cfg, prefix), txs, |chain|, |txs|)
  }

  function PendingHistory(cfg: Config, chain: seq<Block>, blocks: seq<seq<Tx>>, k: nat): History
    requires k <= |blocks|
  {
    if k == 0 then ChainHistory(cfg, chain)
    else RecordTxs(cfg, PendingHistory(cfg, chain, blocks, k - 1),
                   ApplyMempool(cfg, Replay(cfg, chain), Tip(cfg, chain), blocks, k - 1),
                   blocks[k - 1], |chain| + k, |blocks[k - 1]|)
  }

  function IndexedHistory(cfg: Config, chain: seq<Block>, pending: Pending): History {
    if pending.None? then ChainHistory(cfg, chain)
    else PendingHistory(cfg, chain, pending.value, |pending.value|)
  }

  // --- well-formed blocks

  /** Inputs are live and not spent twice, and the transaction id was never used before. */
  ghost predicate ValidTx(m: Utxos, tx: Tx, ids: set<Hash>) {
    && tx.id !in ids
    && tx.id != NULL_TXID
    && (!IsCoinbase(tx) ==>
          && (forall j | 0 <= j < |tx.inputs| :: tx.inputs[j].prev in m)
          && (forall i, j | 0 <= i < j < |tx.inputs| :: tx.inputs[i].prev != tx.inputs[j].prev))
  }

  /** The k-th transaction is valid where it stands; only the first may be a coinbase, and only if
      `coinbase` allows one. */
  ghost predicate ValidAt(cfg: Config, hist: History, s: State, txs: seq<Tx>, h: nat, coinbase: bool, k: nat)
    requires k < |txs|
  {
    && ValidTx(ApplyTxs(cfg, s, txs, h, k).utxos, txs[k], RecordTxs(cfg, hist, s, txs, h, k).ids)
    && (IsCoinbase(txs[k]) ==> coinbase && k == 0)
  }

  ghost predicate ValidTxs(cfg: Config, hist: History, s: State, txs: seq<Tx>, h: nat, coinbase: bool) {
    forall k | 0 <= k < |txs| :: ValidAt(cfg, hist, s, txs, h, coinbase, k)
  }

  ghost predicate ValidNext(cfg: Config, chain: seq<Block>, b: Block) {
    ValidTxs(cfg, ChainHistory(cfg, chain), Replay(cfg, chain), b.txs, |chain| + 1, true)
  }

  ghost predicate ValidChain(cfg: Config, chain: seq<Block>) {
    chain != [] ==>
      var prefix := chain[..|chain| - 1];
      var b := chain[|chain| - 1];
      && ValidChain(cfg, prefix)
      && b.prev == Tip(cfg, prefix).hash
      && ValidNext(cfg, prefix, b)
      && |chain| < U64_MAX
  }

  ghost predicate ValidPendingAt(cfg: Config, chain: seq<Block>, blocks: seq<seq<Tx>>, k: nat)
    requires k < |blocks|
  {
    ValidTxs(cfg, PendingHistory(cfg, chain, blocks, k),
             ApplyMempool(cfg, Replay(cfg, chain), Tip(cfg, chain), blocks, k), blocks[k],
             |chain| + k + 1, false)
  }

  ghost predicate ValidPending(cfg: Config, chain: seq<Block>, blocks: seq<seq<Tx>>) {
    && blocks != []
    && |chain| + |blocks| < U64_MAX
    && forall k | 0 <= k < |blocks| :: ValidPendingAt(cfg, chain, blocks, k)
  }

  ghost predicate ValidIndex(cfg: Config, chain: seq<Block>, pending: Pending) {
    && ValidChain(cfg, chain)
    && (pending.Some? ==> ValidPending(cfg, chain, pending.value))
  }
}
