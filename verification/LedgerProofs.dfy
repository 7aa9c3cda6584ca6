/** What every valid chain's index satisfies: the tables agree with the UTXO set, counts with the
    transactions, and rune amounts with what was issued and burned. */
module LedgerProofs {
  import opened Wrappers
  import opened Types
  import opened RunesSpec
  import opened RunesProofs
  import opened Ledger

  // --- membership of the tables after one transaction

  lemma {:induction false} SpendAddressesIn(kv: Kv, tx: Tx, ins: seq<Utxo>, n: nat, key: Key)
    requires n <= |ins| <= |tx.inputs|
    ensures Lookup(SpendAddresses(kv, tx, ins, n), key) ==
            if exists j | 0 <= j < n :: key == AddressKey(ins[j].script, ins[j].height, tx.inputs[j].prev)
            then None else Lookup(kv, key)
  {
    if n > 0 {
      SpendAddressesIn(kv, tx, ins, n - 1, key);
    }
  }

  lemma {:induction false} RecordAddressesIn(kv: Kv, tx: Tx, h: nat, n: nat, key: Key)
    requires n <= |tx.outputs|
    ensures Lookup(RecordAddresses(kv, tx, h, n), key) ==
            if exists j | 0 <= j < n :: key == AddressKey(tx.outputs[j].script, h, TxoRef(tx.id, j))
            then Some(UnitV) else Lookup(kv, key)
  {
    if n > 0 {
      RecordAddressesIn(kv, tx, h, n - 1, key);
    }
  }

  lemma {:induction false} SpendRuneKeysIn(kv: Kv, tx: Tx, ins: seq<Utxo>, n: nat, key: Key)
    requires n <= |ins| <= |tx.inputs|
    ensures Lookup(SpendRuneKeys(kv, tx, ins, n), key) ==
            if exists j | 0 <= j < n ::
                 ins[j].runes != map[] && key == RuneUtxoKey(ins[j].script, ins[j].height, tx.inputs[j].prev)
            then None else Lookup(kv, key)
  {
    if n > 0 {
      SpendRuneKeysIn(kv, tx, ins, n - 1, key);
    }
  }

  lemma {:induction false} RecordOutputsIn(kv: Kv, tx: Tx, h: nat, alloc: seq<Balances>, n: nat, key: Key)
    requires n <= |tx.outputs| == |alloc|
    ensures Lookup(RecordOutputs(kv, tx, h, alloc, n), key) ==
            if exists j | 0 <= j < n ::
                 alloc[j] != map[] && key == RuneUtxoKey(tx.outputs[j].script, h, TxoRef(tx.id, j))
            then Some(UnitV) else Lookup(kv, key)
  {
    if n > 0 {
      RecordOutputsIn(kv, tx, h, alloc, n - 1, key);
    }
  }

  lemma {:induction false} ProduceIn(m: Utxos, tx: Tx, h: nat, alloc: seq<Balances>, n: nat, r: TxoRef)
    requires n <= |tx.outputs| == |alloc|
    ensures var p := Produce(m, tx, h, alloc, n);
            if r.txid == tx.id && r.vout < n && !IsOpReturn(tx.outputs[r.vout].script)
            then r in p && p[r] == Utxo(tx.outputs[r.vout].satoshis, tx.outputs[r.vout].script, h, alloc[r.vout])
            else (r in p <==> r in m) && (r in m ==> p[r] == m[r])
  {
    if n > 0 {
      ProduceIn(m, tx, h, alloc, n - 1, r);
    }
  }

  predicate IsRuneKey(k: Key) {
    k.RuneInfoKey? || k.RuneNameKey? || k.RuneMintsKey? || k.RuneUtxoKey?
  }

  lemma GatherFrame(cfg: RunesConfig, kv: Kv, tx: Tx, ins: seq<Utxo>, h: nat, i: nat, key: Key)
    requires |ins| <= |tx.inputs|
    ensures !IsRuneKey(key) ==> Lookup(Gather(cfg, kv, tx, ins, h, i).kv, key) == Lookup(kv, key)
    ensures key.RuneUtxoKey? ==>
      Lookup(Gather(cfg, kv, tx, ins, h, i).kv, key) == Lookup(SpendRuneKeys(kv, tx, ins, |ins|), key)
  {
    SpendRuneKeysIn(kv, tx, ins, |ins|, key);
  }

  lemma RunesPartFrame(cfg: Config, kv: Kv, tx: Tx, ins: seq<Utxo>, h: nat, i: nat, key: Key)
    requires |ins| <= |tx.inputs|
    ensures !IsRuneKey(key) ==> Lookup(RunesPart(cfg, kv, tx, ins, h, i).kv, key) == Lookup(kv, key)
  {
    if RunesActive(cfg, h) && !IsRuneKey(key) {
      var g := Gather(cfg.runes.value, kv, tx, ins, h, i);
      GatherFrame(cfg.runes.value, kv, tx, ins, h, i, key);
      RecordOutputsIn(g.kv, tx, h, Allocated(tx, g).outputs, |tx.outputs|, key);
    }
  }

  lemma PlainFrame(cfg: Config, kv: Kv, tx: Tx, ins: seq<Utxo>, h: nat, key: Key)
    requires |ins| <= |tx.inputs|
    ensures !key.CountKey? && !key.AddressKey? ==>
      Lookup(PlainIndexes(cfg, kv, tx, ins, h), key) == Lookup(kv, key)
    ensures key.CountKey? ==>
      Lookup(PlainIndexes(cfg, kv, tx, ins, h), key)
      == Lookup(if cfg.txCount then CountScripts(kv, Scripts(tx, ins)) else kv, key)
    ensures key.AddressKey? ==>
      Lookup(PlainIndexes(cfg, kv, tx, ins, h), key)
      == Lookup(if cfg.byAddress then AddressesTx(kv, tx, ins, h) else kv, key)
  {
    var kv1 := if cfg.txCount then CountScripts(kv, Scripts(tx, ins)) else kv;
    SpendAddressesIn(kv1, tx, ins, |ins|, key);
    SpendAddressesIn(kv, tx, ins, |ins|, key);
    RecordAddressesIn(SpendAddresses(kv1, tx, ins, |ins|), tx, h, |tx.outputs|, key);
    RecordAddressesIn(SpendAddresses(kv, tx, ins, |ins|), tx, h, |tx.outputs|, key);
  }

  // --- the invariant

  ghost predicate UtxoFacts(m: Utxos, ids: set<Hash>, h: nat) {
    forall r | r in m ::
      && r.txid in ids && r.txid != NULL_TXID
      && !IsOpReturn(m[r].script) && m[r].height <= h && NoZeros(m[r].runes)
  }

  predicate Holds(m: Utxos, script: Script, height: nat, r: TxoRef) {
    r in m && m[r].script == script && m[r].height == height
  }

  /** The by-address entries of spendable scripts are exactly the live outputs. */
  ghost predicate AddressAgree(kv: Kv, m: Utxos, ids: set<Hash>) {
    && (forall s, h, r | AddressKey(s, h, r) in kv :: r.txid in ids)
    && (forall s, h, r | !IsOpReturn(s) :: AddressKey(s, h, r) in kv <==> Holds(m, s, h, r))
  }

  /** The rune entries of spendable scripts are exactly the live outputs that carry runes. */
  ghost predicate RuneAgree(kv: Kv, m: Utxos, ids: set<Hash>) {
    && (forall s, h, r | RuneUtxoKey(s, h, r) in kv :: r.txid in ids)
    && (forall s, h, r | !IsOpReturn(s) ::
          RuneUtxoKey(s, h, r) in kv <==> Holds(m, s, h, r) && m[r].runes != map[])
  }

  ghost predicate CountAgree(kv: Kv, hist: History) {
    forall s :: NumAt(kv, CountKey(s)) == Min(Touched(hist, s), U128_MAX)
  }

  lemma SpentIn(m: Utxos, tx: Tx, ids: set<Hash>, r: TxoRef)
    requires ValidTx(m, tx, ids) && r in m && r.txid != NULL_TXID
    ensures r in m - Spent(tx) <==> r in m && !exists j :: 0 <= j < |Resolve(m, tx)| && tx.inputs[j].prev == r
    ensures forall j | 0 <= j < |Resolve(m, tx)| :: tx.inputs[j].prev in m && Resolve(m, tx)[j] == m[tx.inputs[j].prev]
  {
  }

  lemma UtxoFactsStep(m: Utxos, tx: Tx, h: nat, alloc: seq<Balances>, ids: set<Hash>)
    requires UtxoFacts(m, ids, h) && ValidTx(m, tx, ids)
    requires |alloc| == |tx.outputs| && Clean(alloc)
    ensures UtxoFacts(Produce(m - Spent(tx), tx, h, alloc, |tx.outputs|), ids + {tx.id}, h)
  {
    var p := Produce(m - Spent(tx), tx, h, alloc, |tx.outputs|);
    forall r | r in p
      ensures r.txid in ids + {tx.id} && r.txid != NULL_TXID
      ensures !IsOpReturn(p[r].script) && p[r].height <= h && NoZeros(p[r].runes)
    {
      ProduceIn(m - Spent(tx), tx, h, alloc, |tx.outputs|, r);
    }
  }

  lemma AddressStep(kv: Kv, m: Utxos, tx: Tx, h: nat, alloc: seq<Balances>, ids: set<Hash>)
    requires UtxoFacts(m, ids, h) && AddressAgree(kv, m, ids) && ValidTx(m, tx, ids)
    requires |alloc| == |tx.outputs|
    ensures AddressAgree(AddressesTx(kv, tx, Resolve(m, tx), h),
                         Produce(m - Spent(tx), tx, h, alloc, |tx.outputs|), ids + {tx.id})
  {
    var ins := Resolve(m, tx);
    var kv1 := SpendAddresses(kv, tx, ins, |ins|);
    var kv2 := RecordAddresses(kv1, tx, h, |tx.outputs|);
    var p := Produce(m - Spent(tx), tx, h, alloc, |tx.outputs|);
    forall s, hh, r
      ensures AddressKey(s, hh, r) in kv2 ==> r.txid in ids + {tx.id}
      ensures !IsOpReturn(s) ==> (AddressKey(s, hh, r) in kv2 <==> Holds(p, s, hh, r))
    {
      var key := AddressKey(s, hh, r);
      SpendAddressesIn(kv, tx, ins, |ins|, key);
      RecordAddressesIn(kv1, tx, h, |tx.outputs|, key);
      ProduceIn(m - Spent(tx), tx, h, alloc, |tx.outputs|, r);
      if r in m {
        SpentIn(m, tx, ids, r);
      }
      if r.txid == tx.id && r.vout < |tx.outputs| {
        assert AddressKey(tx.outputs[r.vout].script, h, TxoRef(tx.id, r.vout)).r == r;
      }
    }
  }

  lemma RuneStep(
    cfg: RunesConfig, kv: Kv, m: Utxos, tx: Tx, h: nat, i: nat, ids: set<Hash>)
    requires UtxoFacts(m, ids, h) && RuneAgree(kv, m, ids) && ValidTx(m, tx, ids)
    ensures var r := RunesTx(cfg, kv, tx, Resolve(m, tx), h, i);
            RuneAgree(r.kv, Produce(m - Spent(tx), tx, h, r.alloc.outputs, |tx.outputs|), ids + {tx.id})
  {
    var ins := Resolve(m, tx);
    var g := Gather(cfg, kv, tx, ins, h, i);
    var alloc := Allocated(tx, g).outputs;
    var kv2 := RecordOutputs(g.kv, tx, h, alloc, |tx.outputs|);
    var p := Produce(m - Spent(tx), tx, h, alloc, |tx.outputs|);
    forall s, hh, r
      ensures RuneUtxoKey(s, hh, r) in kv2 ==> r.txid in ids + {tx.id}
      ensures !IsOpReturn(s) ==>
        (RuneUtxoKey(s, hh, r) in kv2 <==> Holds(p, s, hh, r) && p[r].runes != map[])
    {
      var key := RuneUtxoKey(s, hh, r);
      SpendRuneKeysIn(kv, tx, ins, |ins|, key);
      GatherFrame(cfg, kv, tx, ins, h, i, key);
      RecordOutputsIn(g.kv, tx, h, alloc, |tx.outputs|, key);
      ProduceIn(m - Spent(tx), tx, h, alloc, |tx.outputs|, r);
      if r in m {
        SpentIn(m, tx, ids, r);
      }
      if r.txid == tx.id && r.vout < |tx.outputs| {
        assert RuneUtxoKey(tx.outputs[r.vout].script, h, TxoRef(tx.id, r.vout)).r == r;
      }
    }
  }

  lemma CountStep(kv: Kv, hist: History, scripts: set<Script>, s: Script)
    requires NumAt(kv, CountKey(s)) == Min(Touched(hist, s), U128_MAX)
    ensures NumAt(CountScripts(kv, scripts), CountKey(s))
         == Min(Touched(hist.(touched := Touch(hist, scripts)), s), U128_MAX)
  {
  }
}
