/** The transaction-count and by-address indexers, as the loops over a task that they are. */
module Indexers {
  import opened Wrappers
  import opened Types
  import opened MergeOps
  import opened Ledger
  import opened Task
  import opened Context

  /** All inputs of a transaction, a coinbase aside, are in the resolver. */
  ghost predicate Resolvable(resolver: Utxos, tx: Tx) {
    !IsCoinbase(tx) ==> forall j | 0 <= j < |tx.inputs| :: tx.inputs[j].prev in resolver
  }

  // --- transactions by script

  lemma CountOneMore(kv: Kv, done: set<Script>, s: Script)
    requires s !in done
    ensures CountScripts(kv, done + {s})
         == CountScripts(kv, done)[CountKey(s) := NumV(SatAdd(Base(Lookup(CountScripts(kv, done), CountKey(s))), 1))]
  {
    var left := CountScripts(kv, done + {s});
    var right := CountScripts(kv, done)[CountKey(s) := NumV(SatAdd(Base(Lookup(CountScripts(kv, done), CountKey(s))), 1))];
    forall k
      ensures Lookup(left, k) == Lookup(right, k)
    {
    }
    SameLookups(left, right);
  }

  predicate PaysTo(tx: Tx, s: Script) {
    exists j | 0 <= j < |tx.outputs| :: tx.outputs[j].script == s
  }

  /** Some input, a coinbase's aside, resolves to an output of the script. */
  predicate SpendsFrom(tx: Tx, resolver: Utxos, s: Script)
    requires Resolvable(resolver, tx)
  {
    !IsCoinbase(tx) && exists j | 0 <= j < |tx.inputs| :: resolver[tx.inputs[j].prev].script == s
  }

  lemma ScriptsAre(tx: Tx, resolver: Utxos, s: Script)
    requires Resolvable(resolver, tx)
    ensures s in Scripts(tx, Resolve(resolver, tx)) <==> PaysTo(tx, s) || SpendsFrom(tx, resolver, s)
  {
    var ins := Resolve(resolver, tx);
    if j :| 0 <= j < |tx.outputs| && tx.outputs[j].script == s {
      assert tx.outputs[j] in tx.outputs;
    }
    if SpendsFrom(tx, resolver, s) {
      var j :| 0 <= j < |tx.inputs| && resolver[tx.inputs[j].prev].script == s;
      assert ins[j] in ins && ins[j].script == s;
    }
    if j :| 0 <= j < |ins| && ins[j].script == s {
      assert resolver[tx.inputs[j].prev].script == s;
    }
  }

  /** The scripts a transaction touches, each once. */
  method SeenScripts(tx: Tx, resolver: Utxos) returns (seen: set<Script>)
    requires Resolvable(resolver, tx)
    ensures seen == Scripts(tx, Resolve(resolver, tx))
    ensures forall s :: s in seen <==> PaysTo(tx, s) || SpendsFrom(tx, resolver, s)
  {
    hide PaysTo, SpendsFrom;
    seen := {};
    ghost var ins := Resolve(resolver, tx);
    if !IsCoinbase(tx) {
      for j := 0 to |tx.inputs|
        invariant seen == set i | 0 <= i < j :: ins[i].script
      {
        assert ins[j] == resolver[tx.inputs[j].prev];
        assert (set i | 0 <= i < j + 1 :: ins[i].script) == (set i | 0 <= i < j :: ins[i].script) + {ins[j].script};
        seen := seen + {resolver[tx.inputs[j].prev].script};
      }
    }
    assert seen == set u | u in ins :: u.script;
    for j := 0 to |tx.outputs|
      invariant seen == (set u | u in ins :: u.script) + set i | 0 <= i < j :: tx.outputs[i].script
    {
      seen := seen + {tx.outputs[j].script};
    }
    assert seen == Scripts(tx, ins);
    forall s
      ensures s in seen <==> PaysTo(tx, s) || SpendsFrom(tx, resolver, s)
    {
      ScriptsAre(tx, resolver, s);
    }
  }

  method CountTransaction(task: IndexingTask, tx: Tx, ctx: IndexingContext)
    requires task.Valid() && task.CountersClean() && Resolvable(ctx.resolver, tx)
    modifies task
    ensures task.Valid() && task.CountersClean() && task.originals.Some? == old(task.originals).Some?
    ensures Tables(task.View())
         == CountScripts(Tables(old(task.View())), Scripts(tx, Resolve(ctx.resolver, tx)))
    ensures SameUtxos(task.View(), old(task.View()))
  {
    hide Resolved, Tables;
    var seen := SeenScripts(tx, ctx.resolver);
    var todo := seen;
    ghost var done: set<Script> := {};
    ghost var kv := Tables(task.View());
    SameLookups(CountScripts(kv, {}), kv);
    while todo != {}
      invariant done + todo == seen && done !! todo
      invariant task.Valid() && task.CountersClean() && task.originals.Some? == old(task.originals).Some?
      invariant Tables(task.View()) == CountScripts(kv, done)
      invariant SameUtxos(task.View(), old(task.View()))
      decreases todo
    {
      var s :| s in todo;
      CountOneMore(kv, done, s);
      TablesAt(task.View(), CountKey(s));
      task.Increment(CountKey(s), 1);
      todo, done := todo - {s}, done + {s};
    }
    assert done == seen;
  }

  // --- outputs by address

  method IndexAddresses(task: IndexingTask, tx: Tx, ctx: IndexingContext)
    requires task.Valid() && Resolvable(ctx.resolver, tx)
    modifies task
    ensures task.Valid() && task.originals.Some? == old(task.originals).Some?
    ensures old(task.CountersClean()) ==> task.CountersClean()
    ensures Tables(task.View())
         == AddressesTx(Tables(old(task.View())), tx, Resolve(ctx.resolver, tx), ctx.point.height)
    ensures SameUtxos(task.View(), old(task.View()))
  {
    hide Resolved, Tables;
    ghost var kv := Tables(task.View());
    ghost var ins := Resolve(ctx.resolver, tx);
    if !IsCoinbase(tx) {
      for j := 0 to |tx.inputs|
        invariant task.Valid() && task.originals.Some? == old(task.originals).Some?
        invariant old(task.CountersClean()) ==> task.CountersClean()
        invariant Tables(task.View()) == SpendAddresses(kv, tx, ins, j)
        invariant SameUtxos(task.View(), old(task.View()))
      {
        var r := tx.inputs[j].prev;
        var utxo := ctx.resolver[r];
        task.Delete(AddressKey(utxo.script, utxo.height, r));
      }
    }
    ghost var spent := SpendAddresses(kv, tx, ins, |ins|);
    for j := 0 to |tx.outputs|
      invariant task.Valid() && task.originals.Some? == old(task.originals).Some?
      invariant old(task.CountersClean()) ==> task.CountersClean()
      invariant Tables(task.View()) == RecordAddresses(spent, tx, ctx.point.height, j)
      invariant SameUtxos(task.View(), old(task.View()))
    {
      task.Set(AddressKey(tx.outputs[j].script, ctx.point.height, TxoRef(tx.id, j)), UnitV);
    }
  }
}
