/** The keys that a store can hold are such that scanning their bytes is scanning the keys. */
module StoredKeys {
  import opened Wrappers
  import opened Types
  import opened RunesSpec
  import opened Ledger
  import opened LedgerProofs
  import opened Task
  import opened Storage
  import opened Refinement
  import opened Blocks
  import opened Worker
  import opened Rollback
  import opened StageState
  import opened Heights
  import opened BalanceQueries
  import opened Bytes
  import opened Encoding
  import opened KeyCodes

  // --- sizes

  /** Scripts are byte vectors, whose lengths fit a u64. */
  ghost predicate SizedTxs(txs: seq<Tx>) {
    forall tx, o | tx in txs && o in tx.outputs :: |o.script| <= U64_MAX
  }

  ghost predicate SizedIndex(chain: seq<Block>, pending: Pending) {
    && (forall b | b in chain :: SizedTxs(b.txs))
    && (pending.Some? ==> forall txs | txs in pending.value :: SizedTxs(txs))
  }

  /** The keys of the script tables, up to a height. */
  ghost predicate ScriptKeys(kv: Kv, h: nat) {
    forall k | k in kv && (k.RuneUtxoKey? || k.AddressKey?) :: |k.script| <= U64_MAX && k.height <= h
  }

  lemma ScriptKeysTx(cfg: Config, s: State, txs: seq<Tx>, h: nat, i: nat)
    requires ScriptKeys(s.kv, h) && SizedTxs(txs) && i < |txs|
    ensures ScriptKeys(ApplyTx(cfg, s, txs[i], h, i).kv, h)
  {
    hide RunesPart, PlainIndexes;
    var tx := txs[i];
    var next := ApplyTx(cfg, s, tx, h, i).kv;
    var ins := Resolve(s.utxos, tx);
    forall k | k in next && (k.RuneUtxoKey? || k.AddressKey?)
      ensures |k.script| <= U64_MAX && k.height <= h
    {
      NewScriptKey(cfg, s.kv, tx, ins, h, i, k);
    }
  }

  /** A script key after a transaction was there before or belongs to one of its outputs. */
  lemma NewScriptKey(cfg: Config, kv: Kv, tx: Tx, ins: seq<Utxo>, h: nat, i: nat, k: Key)
    requires |ins| <= |tx.inputs| && (k.RuneUtxoKey? || k.AddressKey?)
    requires k in RunesPart(cfg, PlainIndexes(cfg, kv, tx, ins, h), tx, ins, h, i).kv
    ensures k in kv || (k.height == h && exists o :: o in tx.outputs && o.script == k.script)
  {
    hide Gather, Allocated, SpendRuneKeys, RecordOutputs, SpendAddresses, RecordAddresses, PlainIndexes;
    var plain := PlainIndexes(cfg, kv, tx, ins, h);
    PlainFrame(cfg, kv, tx, ins, h, k);
    if k.AddressKey? {
      RunesPartFrame(cfg, plain, tx, ins, h, i, k);
      SpendAddressesIn(kv, tx, ins, |ins|, k);
      RecordAddressesIn(SpendAddresses(kv, tx, ins, |ins|), tx, h, |tx.outputs|, k);
    } else if RunesActive(cfg, h) {
      var g := Gather(cfg.runes.value, plain, tx, ins, h, i);
      GatherFrame(cfg.runes.value, plain, tx, ins, h, i, k);
      SpendRuneKeysIn(plain, tx, ins, |ins|, k);
      RecordOutputsIn(g.kv, tx, h, Allocated(tx, g).outputs, |tx.outputs|, k);
    }
  }

  lemma {:induction false} ScriptKeysTxs(cfg: Config, s: State, txs: seq<Tx>, h: nat, n: nat)
    requires ScriptKeys(s.kv, h) && SizedTxs(txs) && n <= |txs|
    ensures ScriptKeys(ApplyTxs(cfg, s, txs, h, n).kv, h)
    decreases n
  {
    hide ApplyTx, ScriptKeys, SizedTxs;
    if n > 0 {
      ScriptKeysTxs(cfg, s, txs, h, n - 1);
      ScriptKeysTx(cfg, ApplyTxs(cfg, s, txs, h, n - 1), txs, h, n - 1);
    }
  }

  lemma {:induction false} ScriptKeysChain(cfg: Config, chain: seq<Block>)
    requires SizedIndex(chain, None)
    ensures ScriptKeys(Replay(cfg, chain).kv, |chain|)
    decreases |chain|
  {
    hide ApplyTxs, RecordTxs, SizedTxs, Replay;
    if chain == [] {
      assert Replay(cfg, []).kv == map[] by { ReplayEmpty(cfg); }
    } else {
      var prefix, b := chain[..|chain| - 1], chain[|chain| - 1];
      assert prefix + [b] == chain;
      ScriptKeysChain(cfg, prefix);
      ScriptKeysTxs(cfg, Replay(cfg, prefix), b.txs, |chain|, |b.txs|);
      ReplayNext(cfg, prefix, b);
    }
  }

  lemma ReplayEmpty(cfg: Config)
    ensures Replay(cfg, []) == State(map[], map[])
  {
  }

  lemma {:induction false} ScriptKeysPending(cfg: Config, chain: seq<Block>, blocks: seq<seq<Tx>>, n: nat)
    requires SizedIndex(chain, Some(blocks)) && n <= |blocks|
    ensures ScriptKeys(PendingState(cfg, chain, blocks, n).kv, |chain| + n)
    decreases n
  {
    hide ApplyTxs, Replay, PendingState, Tip, ApplyMempool, RecordTxs, PendingHistory, SizedTxs;
    if n == 0 {
      PendingNone(cfg, chain, blocks);
      ScriptKeysChain(cfg, chain);
    } else {
      ScriptKeysPending(cfg, chain, blocks, n - 1);
      assert blocks[n - 1] in blocks;
      ScriptKeysTxs(cfg, PendingState(cfg, chain, blocks, n - 1), blocks[n - 1], |chain| + n, |blocks[n - 1]|);
      PendingStep(cfg, chain, blocks, n - 1);
    }
  }

  lemma ScriptKeysIndexed(cfg: Config, chain: seq<Block>, pending: Pending)
    requires SizedIndex(chain, pending)
    ensures ScriptKeys(Indexed(cfg, chain, pending).kv, |chain| + if pending.Some? then |pending.value| else 0)
  {
    hide ApplyTxs, Replay, SizedTxs;
    ScriptKeysChain(cfg, chain);
    if pending.Some? {
      ScriptKeysPending(cfg, chain, pending.value, |pending.value|);
      PendingIs(cfg, chain, pending.value, |pending.value|);
    }
  }

  // --- scans of a store

  /** In a store that shows an index, scanning the bytes from a script's first key to its last finds exactly
      the entries that the balance queries go through. */
  lemma StoredScriptScan(cfg: Config, d: Kv, chain: seq<Block>, pending: Pending, script: Script)
    requires ValidIndex(cfg, chain, pending) && |chain| < U64_MAX && SizedIndex(chain, pending)
    requires Shows(d, Indexed(cfg, chain, pending)) && |script| <= U64_MAX
    ensures ScriptRange(d, script) == set k | k in d && InRange(KeyCode(k), ScriptStart(script), ScriptEnd(script))
  {
    hide Replay, Indexed, ValidChain, ValidPendingAt, InRange, KeyCode, ScriptStart, ScriptEnd, SizedTxs;
    ScriptKeysIndexed(cfg, chain, pending);
    forall k | k in d
      ensures k in ScriptRange(d, script) <==> InRange(KeyCode(k), ScriptStart(script), ScriptEnd(script))
    {
      TablesKey(d, k);
      ScriptScanned(k, script);
    }
  }

  lemma TablesKey(d: Kv, k: Key)
    requires k in d
    ensures IsTable(k) ==> k in Tables(d)
  {
  }

  lemma ScriptScanned(k: Key, script: Script)
    requires ScriptReadable(k) && |script| <= U64_MAX
    ensures InRange(KeyCode(k), ScriptStart(script), ScriptEnd(script))
            <==> k.RuneUtxoKey? && k.script == script && k.height < U64_MAX
  {
    hide InRange, KeyCode, VarUInt, BytesVal, Encode;
    ScriptScan(k, RuneUtxoKey([], 0, NULL_REF), script);
  }

  /** Collecting the journal by its bytes removes exactly the entries below the height. */
  lemma StoredCollection(cfg: Config, d: Kv, snap: Snap, below: nat)
    requires StoreOk(cfg, d, snap) && below <= U64_MAX
    ensures var start := TablePrefix(JournalKey(0, [], InfoKey));
            ApplyBatchOp(d, DelJournalBelow(below))
            == map k | k in d && !InRange(KeyCode(k), start, start + VarUInt(below)) :: d[k]
  {
    hide Replay, Indexed, ValidChain, ValidPending, Shows, ConfirmedAt, PendingPoint, InRange, KeyCode, VarUInt, Reaches;
    BufferOrdered(cfg, snap.chain, snap.pending, snap.points);
    forall k | k in d
      ensures HeightReadable(k)
    {
      if k.JournalKey? {
        JournalHeight(cfg, d, snap, k);
      }
    }
    forall k | k in d
      ensures InRange(KeyCode(k), TablePrefix(JournalKey(0, [], InfoKey)), TablePrefix(JournalKey(0, [], InfoKey)) + VarUInt(below))
              <==> k.JournalKey? && k.height < below
    {
      CollectionScan(k, JournalKey(0, [], InfoKey), below);
    }
  }

  lemma JournalHeight(cfg: Config, d: Kv, snap: Snap, k: Key)
    requires StoreOk(cfg, d, snap) && k in d && k.JournalKey?
    ensures k.height <= U64_MAX
  {
    hide Replay, Indexed, ValidChain, ValidPending, Shows, ConfirmedAt, Reaches;
    BufferOrdered(cfg, snap.chain, snap.pending, snap.points);
    assert FromSome(snap.points, k, Journal(d)[k]);
    var p :| p in snap.points && RecordedAt(p, k, Journal(d)[k]);
    if snap.pending.Some? {
      PseudoPointAt(cfg, snap.chain, snap.pending.value, snap.points[0]);
    }
  }
}
