/** What a reader of the store may rely on in every state the index stage can reach: after any events,
    rollbacks, estimated blocks and restarts, with the cache or without. */
module Guarantees {
  import opened Wrappers
  import opened Types
  import opened RunesSpec
  import opened RunesProofs
  import opened Ledger
  import opened LedgerProofs
  import opened Supply
  import opened Task
  import opened Storage
  import opened Context
  import opened Refinement
  import opened StageState
  import opened Positions
  import opened Core
  import opened Stage

  /** The output table of the store says that the output is live, under this script and height. */
  predicate LiveUnder(d: Kv, script: Script, height: nat, r: TxoRef) {
    match UtxoIn(d, r)
    case Some(u) => u.script == script && u.height == height
    case None => false
  }

  /** The secondary indexes of the stored data agree with its output table, entry by entry. */
  lemma StoredIndexesAgree(cfg: Config, log: Log, c: CoreState, script: Script, height: nat, r: TxoRef)
    requires CoreOk(cfg, log, c) && !IsOpReturn(script)
    ensures var d := Latest(log);
            && (cfg.byAddress ==> (AddressKey(script, height, r) in d <==> LiveUnder(d, script, height, r)))
            && (cfg.runes.Some? ==>
                  (RuneUtxoKey(script, height, r) in d
                   <==> LiveUnder(d, script, height, r) && UtxoIn(d, r).value.runes != map[]))
  {
    hide Replay, Indexed, CommitOk, BufferIs, ValidChain, ValidPending;
    var d, s := Latest(log), Indexed(cfg, c.model.chain, c.model.pending);
    IndexAgreement(cfg, c.model.chain, c.model.pending, script, height, r);
    TablesAt(d, AddressKey(script, height, r));
    TablesAt(d, RuneUtxoKey(script, height, r));
    assert Lookup(d, UtxoKey(r)) == if r in s.utxos then Some(UtxoV(s.utxos[r])) else None;
  }

  /** The output table of the store against the transactions of the current chain and the applied
      estimates: an entry is there exactly when one of them made the output, not as an OP_RETURN, and no later
      one spends it, and it holds that output's satoshis and script and that transaction's height. */
  lemma StoredOutputs(cfg: Config, log: Log, c: CoreState, r: TxoRef)
    requires CoreOk(cfg, log, c)
    ensures var u, t := UtxoIn(Latest(log), r), Trace(c.model.chain, c.model.pending);
            && (u.Some? <==> exists n: nat :: Live(t, n, r))
            && forall n: nat | Live(t, n, r) :: n < |t| && u.Some? && IsOutput(u.value, t[n], r)
  {
    hide Replay, Indexed, Trace, Live, IsOutput, CommitOk, BufferIs, ValidChain, ValidPending;
    var s := Indexed(cfg, c.model.chain, c.model.pending);
    LiveOutputs(cfg, c.model.chain, c.model.pending, r);
    assert Lookup(Latest(log), UtxoKey(r)) == if r in s.utxos then Some(UtxoV(s.utxos[r])) else None;
  }

  /** The by-address table of the store lists an output, spendable or not, exactly when one of those
      transactions made it under that script and height and no later one spends it. */
  lemma StoredListing(cfg: Config, log: Log, c: CoreState, script: Script, height: nat, r: TxoRef)
    requires CoreOk(cfg, log, c) && cfg.byAddress
    ensures AddressKey(script, height, r) in Latest(log)
       <==> exists n: nat :: Listed(Trace(c.model.chain, c.model.pending), n, script, height, r)
  {
    hide Replay, Indexed, Trace, Listed, CommitOk, BufferIs, ValidChain, ValidPending;
    ListedOutputs(cfg, c.model.chain, c.model.pending, script, height, r);
    TablesAt(Latest(log), AddressKey(script, height, r));
  }

  /** The stored count of a script is a recount: the number of those transactions that spend from it or pay
      to it. */
  lemma StoredCounts(cfg: Config, log: Log, c: CoreState, script: Script)
    requires CoreOk(cfg, log, c) && cfg.txCount
    ensures NumAt(Latest(log), CountKey(script))
         == Min(|Spots(Trace(c.model.chain, c.model.pending), script)|, U128_MAX)
  {
    hide Replay, Indexed, Trace, Spots, CommitOk, BufferIs, ValidChain, ValidPending;
    Recount(cfg, c.model.chain, c.model.pending, script);
    TablesAt(Latest(log), CountKey(script));
  }

  /** The rune tables of the store account for every unit: what its live outputs hold of a rune, with
      what the current chain and estimates burned, is the stored premine and the stored mints. */
  lemma StoredSupply(cfg: Config, log: Log, c: CoreState, id: RuneId)
    requires CoreOk(cfg, log, c) && cfg.runes.Some?
    ensures var d := Latest(log);
            var total := Held(Indexed(cfg, c.model.chain, c.model.pending).utxos, id)
                         + Get(IndexedHistory(cfg, c.model.chain, c.model.pending).burned, id);
            && total == Issued(d, id) <= U128_MAX
            && (InfoAt(d, id).Some? ==> NumAt(d, RuneMintsKey(id)) <= MintCap(InfoAt(d, id).value))
  {
    hide Replay, Indexed, IndexedHistory, CommitOk, BufferIs, ValidChain, ValidPending, Held;
    RuneSupply(cfg, c.model.chain, c.model.pending, id);
    TablesAt(Latest(log), RuneInfoKey(id));
    TablesAt(Latest(log), RuneMintsKey(id));
  }

  /** A cached output is never wrong: at any height of the current chain, now or after rolling back to
      it, a cached output that is live there has the value the store would give. */
  lemma CacheTransparent(cfg: Config, log: Log, c: CoreState, height: nat, r: TxoRef)
    requires CoreOk(cfg, log, c) && height <= |c.model.chain| && r in c.cache
    ensures var m := Replay(cfg, c.model.chain[..height]).utxos; r in m ==> c.cache[r] == m[r]
  {
    hide Replay, CommitOk, BufferIs, StoreOk;
    assert Agrees(c.cache, Replay(cfg, c.model.chain[..height]).utxos);
  }
}
