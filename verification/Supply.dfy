/** The whole-chain invariant of the reference ledger, and the rune supply equation in it. */
module Supply {
  import opened Wrappers
  import opened Types
  import opened RunesSpec
  import opened RunesProofs
  import opened Ledger
  import opened LedgerProofs

  // --- what live outputs hold

  /** The amount of a rune in all outputs of a set of UTXOs. */
  ghost function Held(m: Utxos, id: RuneId): nat {
    if m == map[] then 0 else
    var r :| r in m;
    Get(m[r].runes, id) + Held(m - {r}, id)
  }

  lemma {:induction false} HeldRemove(m: Utxos, r: TxoRef, id: RuneId)
    requires r in m
    ensures Held(m, id) == Get(m[r].runes, id) + Held(m - {r}, id)
    decreases |m|
  {
    var x :| x in m && Held(m, id) == Get(m[x].runes, id) + Held(m - {x}, id);
    if x != r {
      assert |m - {x}| < |m| && |m - {r}| < |m| by {
        assert (m - {x}).Keys == m.Keys - {x} && (m - {r}).Keys == m.Keys - {r};
      }
      HeldRemove(m - {x}, r, id);
      HeldRemove(m - {r}, x, id);
      assert m - {x} - {r} == m - {r} - {x};
    }
  }

  lemma HeldAdd(m: Utxos, r: TxoRef, u: Utxo, id: RuneId)
    requires r !in m
    ensures Held(m[r := u], id) == Held(m, id) + Get(u.runes, id)
  {
    HeldRemove(m[r := u], r, id);
    assert m[r := u] - {r} == m;
  }

  lemma {:induction false} HeldSpend(m: Utxos, tx: Tx, ids: set<Hash>, k: nat, id: RuneId)
    requires ValidTx(m, tx, ids) && k <= |Resolve(m, tx)|
    ensures Held(m, id) == Held(m - SpentFirst(tx, k), id) + InSum(Resolve(m, tx), k, id)
  {
    if k == 0 {
      assert m - SpentFirst(tx, 0) == m;
    } else {
      HeldSpend(m, tx, ids, k - 1, id);
      var r := tx.inputs[k - 1].prev;
      var m' := m - SpentFirst(tx, k - 1);
      assert SpentFirst(tx, k) == SpentFirst(tx, k - 1) + {r};
      assert r in m';
      HeldRemove(m', r, id);
      assert m' - {r} == m - SpentFirst(tx, k);
    }
  }

  lemma HeldSpendAll(m: Utxos, tx: Tx, ids: set<Hash>, h: nat, id: RuneId)
    requires ValidTx(m, tx, ids) && UtxoFacts(m, ids, h)
    ensures Held(m, id) == Held(m - Spent(tx), id) + InSum(Resolve(m, tx), |Resolve(m, tx)|, id)
  {
    if IsCoinbase(tx) {
      assert Spent(tx) == {NULL_REF};
      assert NULL_REF !in m;
      assert m - Spent(tx) == m;
    } else {
      HeldSpend(m, tx, ids, |tx.inputs|, id);
    }
  }

  lemma {:induction false} HeldProduce(m: Utxos, tx: Tx, h: nat, alloc: seq<Balances>, k: nat, id: RuneId)
    requires k <= |tx.outputs| == |alloc|
    requires forall r | r in m :: r.txid != tx.id
    ensures Held(Produce(m, tx, h, alloc, k), id) + Get(BurnedOutputs(tx, alloc, k), id)
         == Held(m, id) + Total(alloc[..k], id)
  {
    if k > 0 {
      HeldProduce(m, tx, h, alloc, k - 1, id);
      assert alloc[..k][..k - 1] == alloc[..k - 1];
      if !IsOpReturn(tx.outputs[k - 1].script) {
        var r := TxoRef(tx.id, k - 1);
        ProduceIn(m, tx, h, alloc, k - 1, r);
        HeldAdd(Produce(m, tx, h, alloc, k - 1), r, NewUtxo(tx, k - 1, h, alloc), id);
      }
    }
  }

  // --- the supply equation

  /** What live outputs hold and what was burned is what was issued. */
  ghost predicate Balanced(kv: Kv, m: Utxos, burned: Balances) {
    forall id :: Held(m, id) + Get(burned, id) == Issued(kv, id)
  }

  lemma BalancedStep(cfg: RunesConfig, kv: Kv, m: Utxos, hist: History, tx: Tx, h: nat, i: nat)
    requires ReservedNames(cfg) && RuneTables(cfg, kv, h, i)
    requires UtxoFacts(m, hist.ids, h) && ValidTx(m, tx, hist.ids) && Balanced(kv, m, hist.burned)
    ensures var r := RunesTx(cfg, kv, tx, Resolve(m, tx), h, i);
            && RuneTables(cfg, r.kv, h, i + 1)
            && Clean(r.alloc.outputs)
            && Balanced(r.kv, Produce(m - Spent(tx), tx, h, r.alloc.outputs, |tx.outputs|),
                        Sum(hist.burned, BurnedBy(tx, r.alloc)))
  {
    hide Gather, Allocated, RecordOutputs, Produce, Held, RuneTables, Issued, Total, ReservedNames;
    var ins := Resolve(m, tx);
    var g := Gather(cfg, kv, tx, ins, h, i);
    var a := Allocated(tx, g);
    var n := |tx.outputs|;
    var kv' := RecordOutputs(g.kv, tx, h, a.outputs, n);
    var p := Produce(m - Spent(tx), tx, h, a.outputs, n);
    GatherConserves(cfg, kv, tx, ins, h, i, DEFAULT_RUNE_ID);
    AllocatedConserves(tx, g, DEFAULT_RUNE_ID);
    RecordOutputsFrame(g.kv, tx, h, a.outputs, n);
    RuneTablesFrame(cfg, g.kv, kv', h, i + 1);
    forall id
      ensures Held(p, id) + Get(Sum(hist.burned, BurnedBy(tx, a)), id) == Issued(kv', id)
    {
      GatherConserves(cfg, kv, tx, ins, h, i, id);
      AllocatedConserves(tx, g, id);
      HeldSpendAll(m, tx, hist.ids, h, id);
      HeldProduce(m - Spent(tx), tx, h, a.outputs, n, id);
      assert a.outputs[..n] == a.outputs;
    }
  }

  // --- the invariant of a valid chain's index

  ghost predicate Premises(cfg: Config) {
    cfg.runes.Some? ==> ReservedNames(cfg.runes.value)
  }

  ghost predicate NoRunes(m: Utxos) {
    forall r | r in m :: m[r].runes == map[]
  }

  /** The index agrees with itself and with its history, all before position `(h, i)`. */
  ghost predicate Inv(cfg: Config, s: State, hist: History, h: nat, i: nat) {
    && UtxoFacts(s.utxos, hist.ids, h)
    && (cfg.byAddress ==> AddressAgree(s.kv, s.utxos, hist.ids))
    && (cfg.txCount ==> CountAgree(s.kv, hist))
    && (cfg.runes.Some? ==>
          && RuneAgree(s.kv, s.utxos, hist.ids)
          && RuneTables(cfg.runes.value, s.kv, h, i)
          && Balanced(s.kv, s.utxos, hist.burned))
    && (!RunesActive(cfg, h) ==> NoRunes(s.utxos))
  }

  /** Two stores with the same entries in every table the invariant reads. */
  ghost predicate SameTables(a: Kv, b: Kv) {
    forall k: Key | k.AddressKey? || k.CountKey? || IsRuneKey(k) :: Lookup(a, k) == Lookup(b, k)
  }

  lemma AddressTransfer(a: Kv, b: Kv, m: Utxos, ids: set<Hash>)
    requires AddressAgree(a, m, ids)
    requires forall k: Key | k.AddressKey? :: Lookup(a, k) == Lookup(b, k)
    ensures AddressAgree(b, m, ids)
  {
    forall s, h, r
      ensures AddressKey(s, h, r) in a <==> AddressKey(s, h, r) in b
    {
      assert Lookup(a, AddressKey(s, h, r)) == Lookup(b, AddressKey(s, h, r));
    }
  }

  lemma RuneTransfer(cfg: RunesConfig, a: Kv, b: Kv, m: Utxos, hist: History, h: nat, i: nat)
    requires RuneAgree(a, m, hist.ids) && RuneTables(cfg, a, h, i) && Balanced(a, m, hist.burned)
    requires forall k: Key | IsRuneKey(k) :: Lookup(a, k) == Lookup(b, k)
    ensures RuneAgree(b, m, hist.ids) && RuneTables(cfg, b, h, i) && Balanced(b, m, hist.burned)
  {
    assert SameRuneTables(a, b);
    RuneTablesFrame(cfg, a, b, h, i);
    forall s, hh, r
      ensures RuneUtxoKey(s, hh, r) in a <==> RuneUtxoKey(s, hh, r) in b
    {
      assert Lookup(a, RuneUtxoKey(s, hh, r)) == Lookup(b, RuneUtxoKey(s, hh, r));
    }
  }

  lemma CountTransfer(a: Kv, b: Kv, hist: History)
    requires CountAgree(a, hist)
    requires forall k: Key | k.CountKey? :: Lookup(a, k) == Lookup(b, k)
    ensures CountAgree(b, hist)
  {
    forall s
      ensures NumAt(b, CountKey(s)) == NumAt(a, CountKey(s))
    {
      assert Lookup(a, CountKey(s)) == Lookup(b, CountKey(s));
    }
  }

  lemma InvTransfer(cfg: Config, a: State, b: State, hist: History, h: nat, i: nat)
    requires Inv(cfg, a, hist, h, i) && a.utxos == b.utxos && SameTables(a.kv, b.kv)
    ensures Inv(cfg, b, hist, h, i)
  {
    if cfg.byAddress {
      AddressTransfer(a.kv, b.kv, a.utxos, hist.ids);
    }
    if cfg.txCount {
      CountTransfer(a.kv, b.kv, hist);
    }
    if cfg.runes.Some? {
      RuneTransfer(cfg.runes.value, a.kv, b.kv, a.utxos, hist, h, i);
    }
  }

  // --- one transaction keeps it

  lemma StepAddresses(cfg: Config, s: State, hist: History, tx: Tx, h: nat, i: nat)
    requires Inv(cfg, s, hist, h, i) && ValidTx(s.utxos, tx, hist.ids)
    ensures var s' := ApplyTx(cfg, s, tx, h, i);
            cfg.byAddress ==> AddressAgree(s'.kv, s'.utxos, hist.ids + {tx.id})
  {
    if cfg.byAddress {
      var ins := Resolve(s.utxos, tx);
      var r := IndexTx(cfg, s.kv, tx, ins, h, i);
      AddressStep(s.kv, s.utxos, tx, h, r.alloc.outputs, hist.ids);
      forall k: Key | k.AddressKey?
        ensures Lookup(AddressesTx(s.kv, tx, ins, h), k) == Lookup(r.kv, k)
      {
        PlainFrame(cfg, s.kv, tx, ins, h, k);
        RunesPartFrame(cfg, PlainIndexes(cfg, s.kv, tx, ins, h), tx, ins, h, i, k);
      }
      AddressTransfer(AddressesTx(s.kv, tx, ins, h), r.kv, ApplyTx(cfg, s, tx, h, i).utxos, hist.ids + {tx.id});
    }
  }

  lemma StepCounts(cfg: Config, s: State, hist: History, tx: Tx, h: nat, i: nat)
    requires Inv(cfg, s, hist, h, i)
    ensures cfg.txCount ==> CountAgree(ApplyTx(cfg, s, tx, h, i).kv, RecordTx(cfg, hist, s, tx, h, i))
  {
    if cfg.txCount {
      var ins := Resolve(s.utxos, tx);
      var scripts := Scripts(tx, ins);
      var kv' := IndexTx(cfg, s.kv, tx, ins, h, i).kv;
      forall c
        ensures NumAt(kv', CountKey(c)) == Min(Touched(RecordTx(cfg, hist, s, tx, h, i), c), U128_MAX)
      {
        CountStep(s.kv, hist, scripts, c);
        PlainFrame(cfg, s.kv, tx, ins, h, CountKey(c));
        RunesPartFrame(cfg, PlainIndexes(cfg, s.kv, tx, ins, h), tx, ins, h, i, CountKey(c));
        assert Lookup(kv', CountKey(c)) == Lookup(CountScripts(s.kv, scripts), CountKey(c));
      }
    }
  }

  lemma {:induction false} InSumZero(ins: seq<Utxo>, k: nat, id: RuneId)
    requires k <= |ins| && forall j | 0 <= j < |ins| :: ins[j].runes == map[]
    ensures InSum(ins, k, id) == 0
  {
    if k > 0 {
      InSumZero(ins, k - 1, id);
    }
  }

  lemma {:induction false} BurnedEmpties(tx: Tx, k: nat)
    requires k <= |tx.outputs|
    ensures BurnedOutputs(tx, Empties(|tx.outputs|), k) == map[]
  {
    if k > 0 {
      BurnedEmpties(tx, k - 1);
    }
  }

  /** Before the rune start height nothing holds runes, and a transaction moves none. */
  lemma IdleStep(kv: Kv, m: Utxos, hist: History, tx: Tx, h: nat)
    requires UtxoFacts(m, hist.ids, h) && ValidTx(m, tx, hist.ids) && NoRunes(m)
    requires RuneAgree(kv, m, hist.ids) && Balanced(kv, m, hist.burned)
    ensures var n := |tx.outputs|;
            var p := Produce(m - Spent(tx), tx, h, Empties(n), n);
            && RuneAgree(kv, p, hist.ids + {tx.id})
            && Balanced(kv, p, Sum(hist.burned, BurnedBy(tx, Allocation(Empties(n), map[]))))
  {
    hide Held, Produce, Issued, BurnedOutputs, Total, InSum;
    var n := |tx.outputs|;
    var p := Produce(m - Spent(tx), tx, h, Empties(n), n);
    BurnedEmpties(tx, n);
    forall id
      ensures Held(p, id) == Held(m, id)
    {
      HeldSpendAll(m, tx, hist.ids, h, id);
      HeldProduce(m - Spent(tx), tx, h, Empties(n), n, id);
      InSumZero(Resolve(m, tx), |Resolve(m, tx)|, id);
      assert Empties(n)[..n] == Empties(n);
      TotalEmpties(n, id);
    }
    forall s, hh, r | !IsOpReturn(s)
      ensures RuneUtxoKey(s, hh, r) in kv <==> Holds(p, s, hh, r) && p[r].runes != map[]
    {
      ProduceIn(m - Spent(tx), tx, h, Empties(n), n, r);
    }
  }

  lemma StepRunes(cfg: Config, s: State, hist: History, tx: Tx, h: nat, i: nat)
    requires Premises(cfg) && Inv(cfg, s, hist, h, i) && ValidTx(s.utxos, tx, hist.ids)
    requires cfg.runes.Some?
    ensures var s' := ApplyTx(cfg, s, tx, h, i);
            && RuneAgree(s'.kv, s'.utxos, hist.ids + {tx.id})
            && RuneTables(cfg.runes.value, s'.kv, h, i + 1)
            && Balanced(s'.kv, s'.utxos, RecordTx(cfg, hist, s, tx, h, i).burned)
  {
    var ins := Resolve(s.utxos, tx);
    var kv1 := PlainIndexes(cfg, s.kv, tx, ins, h);
    forall k: Key | IsRuneKey(k)
      ensures Lookup(s.kv, k) == Lookup(kv1, k)
    {
      PlainFrame(cfg, s.kv, tx, ins, h, k);
    }
    RuneTransfer(cfg.runes.value, s.kv, kv1, s.utxos, hist, h, i);
    if RunesActive(cfg, h) {
      RuneStep(cfg.runes.value, kv1, s.utxos, tx, h, i, hist.ids);
      BalancedStep(cfg.runes.value, kv1, s.utxos, hist, tx, h, i);
    } else {
      IdleStep(kv1, s.utxos, hist, tx, h);
      Later(cfg.runes.value, kv1, h, i);
    }
  }

  lemma StepUtxos(cfg: Config, s: State, hist: History, tx: Tx, h: nat, i: nat)
    requires Inv(cfg, s, hist, h, i) && ValidTx(s.utxos, tx, hist.ids)
    ensures var s' := ApplyTx(cfg, s, tx, h, i);
            && UtxoFacts(s'.utxos, hist.ids + {tx.id}, h)
            && (!RunesActive(cfg, h) ==> NoRunes(s'.utxos))
  {
    var r := IndexTx(cfg, s.kv, tx, Resolve(s.utxos, tx), h, i);
    assert Clean(r.alloc.outputs) by {
      if RunesActive(cfg, h) {
        var kv1 := PlainIndexes(cfg, s.kv, tx, Resolve(s.utxos, tx), h);
        AllocatedConserves(tx, Gather(cfg.runes.value, kv1, tx, Resolve(s.utxos, tx), h, i), DEFAULT_RUNE_ID);
      }
    }
    UtxoFactsStep(s.utxos, tx, h, r.alloc.outputs, hist.ids);
    if !RunesActive(cfg, h) {
      var p := ApplyTx(cfg, s, tx, h, i).utxos;
      forall x | x in p
        ensures p[x].runes == map[]
      {
        ProduceIn(s.utxos - Spent(tx), tx, h, r.alloc.outputs, |tx.outputs|, x);
      }
    }
  }

  /** Indexing a valid transaction keeps the whole invariant. */
  lemma InvStep(cfg: Config, s: State, hist: History, tx: Tx, h: nat, i: nat)
    requires Premises(cfg) && Inv(cfg, s, hist, h, i) && ValidTx(s.utxos, tx, hist.ids)
    ensures Inv(cfg, ApplyTx(cfg, s, tx, h, i), RecordTx(cfg, hist, s, tx, h, i), h, i + 1)
  {
    StepUtxos(cfg, s, hist, tx, h, i);
    StepAddresses(cfg, s, hist, tx, h, i);
    StepCounts(cfg, s, hist, tx, h, i);
    if cfg.runes.Some? {
      StepRunes(cfg, s, hist, tx, h, i);
    }
  }

  // --- blocks, chains and estimated blocks keep it

  lemma {:induction false} InvTxs(cfg: Config, s: State, hist: History, txs: seq<Tx>, h: nat, coinbase: bool, k: nat)
    requires Premises(cfg) && Inv(cfg, s, hist, h, 0) && ValidTxs(cfg, hist, s, txs, h, coinbase)
    requires k <= |txs|
    ensures Inv(cfg, ApplyTxs(cfg, s, txs, h, k), RecordTxs(cfg, hist, s, txs, h, k), h, k)
  {
    hide ApplyTx, RecordTx;
    if k > 0 {
      InvTxs(cfg, s, hist, txs, h, coinbase, k - 1);
      assert ValidAt(cfg, hist, s, txs, h, coinbase, k - 1);
      InvStep(cfg, ApplyTxs(cfg, s, txs, h, k - 1), RecordTxs(cfg, hist, s, txs, h, k - 1), txs[k - 1], h, k - 1);
    }
  }

  lemma InvNextHeight(cfg: Config, s: State, hist: History, h: nat, i: nat)
    requires Inv(cfg, s, hist, h, i)
    ensures Inv(cfg, s, hist, h + 1, 0)
  {
    if cfg.runes.Some? {
      Later(cfg.runes.value, s.kv, h, i);
    }
  }

  /** Recording the indexer's position and block hash touches none of the tables of the invariant. */
  lemma InvClose(cfg: Config, s: State, hist: History, h: nat, i: nat, info: Value, hash: Value)
    requires Inv(cfg, s, hist, h, i)
    ensures Inv(cfg, s.(kv := s.kv[InfoKey := info]), hist, h + 1, 0)
    ensures Inv(cfg, s.(kv := s.kv[InfoKey := info][HashKey(h) := hash]), hist, h + 1, 0)
  {
    var s1 := s.(kv := s.kv[InfoKey := info]);
    var s2 := s.(kv := s1.kv[HashKey(h) := hash]);
    InvTransfer(cfg, s, s1, hist, h, i);
    InvTransfer(cfg, s, s2, hist, h, i);
    InvNextHeight(cfg, s1, hist, h, i);
    InvNextHeight(cfg, s2, hist, h, i);
  }

  lemma {:induction false} InvChain(cfg: Config, chain: seq<Block>)
    requires Premises(cfg) && ValidChain(cfg, chain)
    ensures Inv(cfg, Replay(cfg, chain), ChainHistory(cfg, chain), |chain| + 1, 0)
    decreases |chain|
  {
    if chain == [] {
      assert forall id :: Issued(Replay(cfg, chain).kv, id) == 0;
    } else {
      hide Inv, ApplyTx, RecordTx;
      var n, b := |chain|, chain[|chain| - 1];
      var s, hist := Replay(cfg, chain[..n - 1]), ChainHistory(cfg, chain[..n - 1]);
      InvChain(cfg, chain[..n - 1]);
      InvTxs(cfg, s, hist, b.txs, n, true, |b.txs|);
      InvClose(cfg, ApplyTxs(cfg, s, b.txs, n, |b.txs|), ChainHistory(cfg, chain), n, |b.txs|,
               InfoV(IndexerInfo(n, b.hash, false)), HashV(b.hash));
    }
  }

  lemma {:induction false} InvPending(cfg: Config, chain: seq<Block>, blocks: seq<seq<Tx>>, k: nat)
    requires Premises(cfg) && ValidChain(cfg, chain) && ValidPending(cfg, chain, blocks) && k <= |blocks|
    ensures Inv(cfg, ApplyMempool(cfg, Replay(cfg, chain), Tip(cfg, chain), blocks, k),
                PendingHistory(cfg, chain, blocks, k), |chain| + k + 1, 0)
  {
    hide Inv, ApplyTx, RecordTx;
    if k == 0 {
      InvChain(cfg, chain);
    } else {
      var h, tip, txs := |chain| + k, Tip(cfg, chain), blocks[k - 1];
      var s := ApplyMempool(cfg, Replay(cfg, chain), tip, blocks, k - 1);
      var hist := PendingHistory(cfg, chain, blocks, k - 1);
      InvPending(cfg, chain, blocks, k - 1);
      assert ValidPendingAt(cfg, chain, blocks, k - 1);
      InvTxs(cfg, s, hist, txs, h, false, |txs|);
      InvClose(cfg, ApplyTxs(cfg, s, txs, h, |txs|), PendingHistory(cfg, chain, blocks, k), h, |txs|,
               InfoV(IndexerInfo(h, tip.hash, true)), UnitV);
    }
  }

  function NextHeight(chain: seq<Block>, pending: Pending): nat {
    |chain| + 1 + match pending case Some(blocks) => |blocks| case None => 0
  }

  lemma InvIndexed(cfg: Config, chain: seq<Block>, pending: Pending)
    requires Premises(cfg) && ValidIndex(cfg, chain, pending)
    ensures Inv(cfg, Indexed(cfg, chain, pending), IndexedHistory(cfg, chain, pending), NextHeight(chain, pending), 0)
  {
    hide Inv, Replay, ChainHistory, ApplyMempool, PendingHistory, ValidChain, ValidPending, Premises;
    if pending.Some? {
      InvPending(cfg, chain, pending.value, |pending.value|);
    } else {
      InvChain(cfg, chain);
    }
  }

  // --- main results

  /** For every valid chain, with or without estimated blocks on top, the by-address table and the
      rune table list exactly the live outputs of each spendable script. */
  lemma IndexAgreement(cfg: Config, chain: seq<Block>, pending: Pending, script: Script, height: nat, r: TxoRef)
    requires Premises(cfg) && ValidIndex(cfg, chain, pending) && !IsOpReturn(script)
    ensures var s := Indexed(cfg, chain, pending);
            && (cfg.byAddress ==> (AddressKey(script, height, r) in s.kv <==> Holds(s.utxos, script, height, r)))
            && (cfg.runes.Some? ==>
                  (RuneUtxoKey(script, height, r) in s.kv
                   <==> Holds(s.utxos, script, height, r) && s.utxos[r].runes != map[]))
  {
    InvIndexed(cfg, chain, pending);
  }

  /** The stored count of a script is the number of transactions that touched it. */
  lemma TransactionCounts(cfg: Config, chain: seq<Block>, pending: Pending, script: Script)
    requires Premises(cfg) && ValidIndex(cfg, chain, pending) && cfg.txCount
    ensures NumAt(Indexed(cfg, chain, pending).kv, CountKey(script))
         == Min(Touched(IndexedHistory(cfg, chain, pending), script), U128_MAX)
  {
    InvIndexed(cfg, chain, pending);
  }

  lemma IssuedWithinSupply(cfg: RunesConfig, kv: Kv, h: nat, i: nat, id: RuneId)
    requires RuneTables(cfg, kv, h, i)
    ensures Issued(kv, id) <= U128_MAX
    ensures InfoAt(kv, id).Some? ==>
      Issued(kv, id) <= MaxSupply(InfoAt(kv, id).value) <= U128_MAX
  {
    if InfoAt(kv, id).Some? {
      var info := InfoAt(kv, id).value;
      assert RuneInfoKey(id) in kv;
      MulMonotone(NumAt(kv, RuneMintsKey(id)), MintCap(info), MintYield(info));
    }
  }

  /** Whole-chain supply: what live outputs hold of a rune and what was burned of it add up to its
      premine and its mints, the mints stay within the cap, and all of it fits a u128. */
  lemma RuneSupply(cfg: Config, chain: seq<Block>, pending: Pending, id: RuneId)
    requires Premises(cfg) && ValidIndex(cfg, chain, pending) && cfg.runes.Some?
    ensures var s := Indexed(cfg, chain, pending);
            var total := Held(s.utxos, id) + Get(IndexedHistory(cfg, chain, pending).burned, id);
            && total <= U128_MAX
            && match InfoAt(s.kv, id)
               case Some(info) =>
                 var mints := NumAt(s.kv, RuneMintsKey(id));
                 && total == info.premine + mints * MintYield(info)
                 && mints <= MintCap(info)
               case None => total == 0
  {
    InvIndexed(cfg, chain, pending);
    IssuedWithinSupply(cfg.runes.value, Indexed(cfg, chain, pending).kv, NextHeight(chain, pending), 0, id);
  }

  /** In a chain whose index satisfies the invariant, no addition of rune amounts overflows: after any
      number of edicts, what a transaction still has plus all it has given out fits a u128. */
  lemma NoOverflow(cfg: RunesConfig, kv: Kv, m: Utxos, hist: History, tx: Tx, h: nat, i: nat, k: nat, id: RuneId)
    requires ReservedNames(cfg) && RuneTables(cfg, kv, h, i)
    requires UtxoFacts(m, hist.ids, h) && ValidTx(m, tx, hist.ids) && Balanced(kv, m, hist.burned)
    requires k <= |EdictsOf(tx)|
    ensures var g := Gather(cfg, kv, tx, Resolve(m, tx), h, i);
            var b := RunEdicts(tx, g.etched, EdictsOf(tx), Split(g.un, Empties(|tx.outputs|)), k);
            Get(g.un, id) == Get(b.un, id) + Total(b.alloc, id) <= U128_MAX
  {
    var ins := Resolve(m, tx);
    var g := Gather(cfg, kv, tx, ins, h, i);
    GatherConserves(cfg, kv, tx, ins, h, i, id);
    HeldSpendAll(m, tx, hist.ids, h, id);
    IssuedWithinSupply(cfg, g.kv, h, i + 1, id);
    TotalEmpties(|tx.outputs|, id);
    RunEdictsConserve(tx, g.etched, EdictsOf(tx), Split(g.un, Empties(|tx.outputs|)), k);
  }
}
