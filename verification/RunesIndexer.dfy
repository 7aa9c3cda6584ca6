/** The rune indexer's `process_tx`, step by step over a task, proved against the rune rules. */
module RunesIndexer {
  import opened Wrappers
  import opened Types
  import opened RunesSpec
  import opened Edicts
  import opened Ledger
  import opened LedgerProofs
  import opened Task
  import opened Context
  import opened Indexers
  import opened Issuance

  // --- inputs

  method AddRunes(un: Balances, runes: Balances) returns (r: Balances)
    ensures r == Sum(un, runes)
  {
    r := un;
    var todo := runes.Keys;
    ghost var done: set<RuneId> := {};
    while todo != {}
      invariant done + todo == runes.Keys && done !! todo
      invariant r == Sum(un, Restrict(runes, done))
      decreases todo
    {
      var id :| id in todo;
      r := Credit(r, id, runes[id]);
      todo, done := todo - {id}, done + {id};
    }
    assert Restrict(runes, done) == runes;
  }

  /** The by-script entry of an input that carries runes. */
  predicate ListsInput(tx: Tx, resolver: Utxos, key: Key)
    requires Resolvable(resolver, tx)
  {
    !IsCoinbase(tx) && exists j | 0 <= j < |tx.inputs| ::
      var u := resolver[tx.inputs[j].prev];
      u.runes != map[] && key == RuneUtxoKey(u.script, u.height, tx.inputs[j].prev)
  }

  /** The entries of the inputs that carry runes are gone, and no others. */
  ghost predicate Unlisted(before: Kv, after: Kv, tx: Tx, resolver: Utxos)
    requires Resolvable(resolver, tx)
  {
    forall key :: Lookup(after, key) == (if ListsInput(tx, resolver, key) then None else Lookup(before, key))
  }

  lemma InputsUnlisted(kv: Kv, tx: Tx, resolver: Utxos)
    requires Resolvable(resolver, tx)
    ensures var ins := Resolve(resolver, tx); Unlisted(kv, SpendRuneKeys(kv, tx, ins, |ins|), tx, resolver)
  {
    var ins := Resolve(resolver, tx);
    forall key
      ensures Lookup(SpendRuneKeys(kv, tx, ins, |ins|), key)
           == if ListsInput(tx, resolver, key) then None else Lookup(kv, key)
    {
      InputUnlisted(kv, tx, resolver, key);
    }
  }

  lemma InputUnlisted(kv: Kv, tx: Tx, resolver: Utxos, key: Key)
    requires Resolvable(resolver, tx)
    ensures var ins := Resolve(resolver, tx);
            Lookup(SpendRuneKeys(kv, tx, ins, |ins|), key)
            == if ListsInput(tx, resolver, key) then None else Lookup(kv, key)
  {
    var ins := Resolve(resolver, tx);
    SpendRuneKeysIn(kv, tx, ins, |ins|, key);
    if ListsInput(tx, resolver, key) {
      var j :| 0 <= j < |tx.inputs| && resolver[tx.inputs[j].prev].runes != map[]
               && key == RuneUtxoKey(resolver[tx.inputs[j].prev].script, resolver[tx.inputs[j].prev].height, tx.inputs[j].prev);
      assert ins[j] == resolver[tx.inputs[j].prev];
    }
  }

  /** Collect the runes of the inputs and take the inputs out of the by-script table. */
  method CollectInputs(task: IndexingTask, tx: Tx, resolver: Utxos) returns (un: Balances)
    requires task.Valid() && Resolvable(resolver, tx)
    modifies task
    ensures task.Valid() && task.originals.Some? == old(task.originals).Some?
    ensures old(task.CountersClean()) ==> task.CountersClean()
    ensures SameUtxos(task.View(), old(task.View()))
    ensures var ins := Resolve(resolver, tx);
            && Tables(task.View()) == SpendRuneKeys(Tables(old(task.View())), tx, ins, |ins|)
            && un == Unallocated(ins, |ins|)
    ensures Unlisted(Tables(old(task.View())), Tables(task.View()), tx, resolver)
  {
    hide Resolved, Tables, Sum, IsTable, ListsInput, Unlisted;
    InputsUnlisted(Tables(task.View()), tx, resolver);
    un := map[];
    ghost var ins := Resolve(resolver, tx);
    if !IsCoinbase(tx) {
      for j := 0 to |tx.inputs|
        invariant task.Valid() && task.originals.Some? == old(task.originals).Some?
        invariant old(task.CountersClean()) ==> task.CountersClean()
        invariant SameUtxos(task.View(), old(task.View()))
        invariant Tables(task.View()) == SpendRuneKeys(Tables(old(task.View())), tx, ins, j)
        invariant un == Unallocated(ins, j)
      {
        var r := tx.inputs[j].prev;
        var utxo := resolver[r];
        if utxo.runes != map[] {
          task.Delete(RuneUtxoKey(utxo.script, utxo.height, r));
        }
        un := AddRunes(un, utxo.runes);
      }
    }
  }

  // --- mint

  method MintRune(task: IndexingTask, id: RuneId, h: nat) returns (amount: Option<nat>)
    requires task.Valid()
    modifies task
    ensures task.Valid() && task.originals.Some? == old(task.originals).Some?
    ensures old(task.CountersClean()) ==> task.CountersClean()
    ensures SameUtxos(task.View(), old(task.View()))
    ensures amount == MintAmount(Tables(old(task.View())), id, h)
    ensures Tables(task.View()) ==
      if amount.Some? then CountMint(Tables(old(task.View())), id) else Tables(old(task.View()))
    ensures var info, mints := InfoAt(Tables(old(task.View())), id), NumAt(Tables(old(task.View())), RuneMintsKey(id));
            && (amount.Some? <==> info.Some? && info.value.terms.Some? && CanMint(info.value.terms.value, mints, h))
            && (amount.Some? ==>
                  && amount.value == info.value.terms.value.amount.UnwrapOr(0)
                  && NumAt(Tables(task.View()), RuneMintsKey(id)) == mints + 1)
  {
    hide Resolved, Tables;
    TablesAt(task.View(), RuneInfoKey(id));
    TablesAt(task.View(), RuneMintsKey(id));
    var info := task.Get(RuneInfoKey(id));
    match info {
      case Some(RuneInfoV(RuneInfo(_, Some(terms), _, _, _, _, _, _))) =>
        if terms.start.Some? && h < terms.start.value {
          return None;
        }
        if terms.end.Some? && h >= terms.end.value {
          return None;
        }
        var cap := terms.cap.UnwrapOr(0);
        var stored := task.Get(RuneMintsKey(id));
        var currentMints := match stored { case Some(NumV(n)) => n case _ => 0 };
        if currentMints >= cap {
          return None;
        }
        task.Set(RuneMintsKey(id), NumV(currentMints + 1));
        return Some(terms.amount.UnwrapOr(0));
      case _ =>
        return None;
    }
  }

  // --- etching

  method CommitsToRune(cfg: RunesConfig, tx: Tx, rune: nat, h: nat, resolver: Utxos) returns (found: bool)
    requires Resolvable(resolver, tx)
    ensures found == Commits(cfg, tx, Resolve(resolver, tx), rune, h)
    ensures found <==> Committed(cfg, tx, resolver, rune, h)
  {
    hide Committed;
    CommitsAlike(cfg, tx, resolver, rune, h);
    ghost var ins := Resolve(resolver, tx);
    if IsCoinbase(tx) {
      return false;
    }
    for j := 0 to |tx.inputs|
      invariant forall i | 0 <= i < j ::
        !(rune in tx.inputs[i].pushes && IsP2tr(ins[i].script) && h - ins[i].height + 1 >= cfg.commitConfirmations)
    {
      var utxo := resolver[tx.inputs[j].prev];
      assert utxo == ins[j];
      var pushes := tx.inputs[j].pushes;
      for p := 0 to |pushes|
        invariant rune in pushes[..p] ==>
          !(IsP2tr(ins[j].script) && h - ins[j].height + 1 >= cfg.commitConfirmations)
      {
        if pushes[p] == rune && IsP2tr(utxo.script) {
          var confirmations := h - utxo.height + 1;
          if confirmations >= cfg.commitConfirmations {
            return true;
          }
        }
      }
    }
    return false;
  }

  method EtchRune(cfg: RunesConfig, task: IndexingTask, tx: Tx, a: Artifact, h: nat, i: nat, resolver: Utxos)
    returns (etched: Option<Etched>)
    requires Resolvable(resolver, tx)
    ensures etched == EtchedBy(cfg, Tables(task.View()), tx, Resolve(resolver, tx), a, h, i)
    ensures Grants(cfg, Tables(task.View()), tx, resolver, a, h, i, etched)
  {
    hide Committed, Commits, Resolve, Tables, Resolved;
    var asked: Option<nat>;
    match a {
      case Runestone(_, etching, _, _) =>
        if etching.None? {
          return None;
        }
        asked := etching.value.rune;
      case Cenotaph(name, _) =>
        if name.None? {
          return None;
        }
        asked := name;
    }
    if asked.Some? {
      var name := asked.value;
      TablesAt(task.View(), RuneNameKey(name));
      var taken := task.Get(RuneNameKey(name));
      var commits := CommitsToRune(cfg, tx, name, h, resolver);
      if name < cfg.minimum(h) || name >= cfg.reservedFrom || taken.Some? || !commits {
        return None;
      }
      return Some(Etched(RuneId(h, i), name));
    }
    return Some(Etched(RuneId(h, i), cfg.reservedName(h, i)));
  }

  method FixTerms(t: Terms, h: nat) returns (stored: RuneTerms)
    ensures stored == TermsFrom(t, h) && TermsStored(t, h, stored)
  {
    var start, end := t.heightStart, t.heightEnd;
    if t.offsetStart.Some? {
      var relative := Min(h + t.offsetStart.value, U64_MAX);
      start := Some(if start.Some? then Max(relative, start.value) else relative);
    }
    if t.offsetEnd.Some? {
      var relative := Min(h + t.offsetEnd.value, U64_MAX);
      end := Some(if end.Some? then Min(relative, end.value) else relative);
    }
    stored := RuneTerms(t.amount, t.cap, start, end);
  }

  /** Write the name and the entry of a new rune. */
  method CreateRuneEntry(task: IndexingTask, a: Artifact, txid: Hash, e: Etched, h: nat)
    requires task.Valid() && (a.Runestone? ==> a.etching.Some?)
    modifies task
    ensures task.Valid() && task.originals.Some? == old(task.originals).Some?
    ensures old(task.CountersClean()) ==> task.CountersClean()
    ensures SameUtxos(task.View(), old(task.View()))
    ensures Tables(task.View()) == CreateEntry(Tables(old(task.View())), a, e, txid, h)
    ensures var kv := Tables(task.View());
            && Lookup(kv, RuneNameKey(e.name)) == Some(RuneIdV(e.id))
            && InfoAt(kv, e.id).Some? && EntryStored(a, e.name, h, txid, InfoAt(kv, e.id).value)
  {
    hide Resolved, Tables;
    task.Set(RuneNameKey(e.name), RuneIdV(e.id));
    var info: RuneInfo;
    match a {
      case Cenotaph(_, _) =>
        info := RuneInfo(e.name, None, None, 0, h, txid, 0, 0);
      case Runestone(_, etching, _, _) =>
        var ask := etching.value;
        var terms := None;
        if ask.terms.Some? {
          var fixed := FixTerms(ask.terms.value, h);
          terms := Some(fixed);
        }
        info := RuneInfo(e.name, terms, ask.symbol, ask.divisibility.UnwrapOr(0), h, txid,
                         ask.premine.UnwrapOr(0), ask.spacers.UnwrapOr(0));
    }
    task.Set(RuneInfoKey(e.id), RuneInfoV(info));
  }

  /** Everything before the edicts, with the entry of a new rune written along. */
  method GatherRunes(cfg: RunesConfig, task: IndexingTask, tx: Tx, h: nat, i: nat, resolver: Utxos)
    returns (un: Balances, etched: Option<Etched>)
    requires task.Valid() && Resolvable(resolver, tx)
    modifies task
    ensures task.Valid() && task.originals.Some? == old(task.originals).Some?
    ensures old(task.CountersClean()) ==> task.CountersClean()
    ensures SameUtxos(task.View(), old(task.View()))
    ensures Gathered(Tables(task.View()), un, etched)
         == Gather(cfg, Tables(old(task.View())), tx, Resolve(resolver, tx), h, i)
    ensures GatheredOf(cfg, Tables(old(task.View())), tx, resolver, h, i, Tables(task.View()), un, etched)
  {
    hide GatheredOf, EntryStored, Grants, Unlisted;
    GatherExact(cfg, Tables(task.View()), tx, resolver, h, i);
    un := CollectInputs(task, tx, resolver);
    etched := None;
    match tx.artifact {
      case None =>
      case Some(a) =>
        if a.mint.Some? {
          var amount := MintRune(task, a.mint.value, h);
          if amount.Some? {
            un := Credit(un, a.mint.value, amount.value);
          }
        }
        etched := EtchRune(cfg, task, tx, a, h, i, resolver);
        if etched.Some? {
          if a.Runestone? {
            un := Credit(un, etched.value.id, Premine(a));
          }
          CreateRuneEntry(task, a, tx.id, etched.value, h);
        }
    }
  }

  // --- edicts

  /** The indices of the outputs that are not OP_RETURN. */
  method EligibleOutputs(tx: Tx) returns (dests: seq<nat>)
    ensures dests == Destinations(tx.outputs, |tx.outputs|)
  {
    dests := [];
    for o := 0 to |tx.outputs|
      invariant dests == Destinations(tx.outputs, o)
    {
      if !IsOpReturn(tx.outputs[o].script) {
        dests := dests + [o];
      }
    }
  }

  /** Move an amount of a rune from what remains to an output. */
  method AllocateTo(un: Balances, alloc: seq<Balances>, id: RuneId, amount: nat, output: nat)
    returns (un': Balances, alloc': seq<Balances>)
    requires id in un && amount <= un[id] && output < |alloc|
    ensures Split(un', alloc') == Allocate(Split(un, alloc), id, amount, output)
  {
    un', alloc' := un, alloc;
    if amount > 0 {
      un' := un[id := un[id] - amount];
      alloc' := alloc[output := Credit(alloc[output], id, amount)];
    }
  }

  /** The next even share fits what the earlier ones left. */
  lemma NextShare(b: Split, id: RuneId, dests: seq<nat>, i: nat)
    requires id in b.un && i < |dests| && Fits(b, dests)
    ensures var r := EvenShares(b, id, dests, i);
            && id in r.un && |r.alloc| == |b.alloc| && Share(b.un[id], |dests|, i) <= r.un[id]
            && EvenShares(b, id, dests, i + 1) == Allocate(r, id, Share(b.un[id], |dests|, i), dests[i])
  {
    ShareFits(b.un[id], |dests|, i);
  }

  lemma NextCapped(b: Split, id: RuneId, amount: nat, dests: seq<nat>, i: nat)
    requires id in b.un && i < |dests| && Fits(b, dests)
    ensures var r := CappedShares(b, id, amount, dests, i);
            && id in r.un && |r.alloc| == |b.alloc|
            && CappedShares(b, id, amount, dests, i + 1) == Allocate(r, id, Min(amount, r.un[id]), dests[i])
  {
  }

  lemma NoShares(b: Split, id: RuneId, amount: nat, dests: seq<nat>)
    requires id in b.un && Fits(b, dests)
    ensures EvenShares(b, id, dests, 0) == b == CappedShares(b, id, amount, dests, 0)
  {
  }

  /** Divide a balance evenly over the destinations, the remainder one each to the first of them. */
  method DivideEvenly(un: Balances, alloc: seq<Balances>, id: RuneId, dests: seq<nat>)
    returns (un': Balances, alloc': seq<Balances>)
    requires id in un && dests != [] && Fits(Split(un, alloc), dests)
    ensures Split(un', alloc') == EvenShares(Split(un, alloc), id, dests, |dests|)
  {
    hide EvenShares, Allocate;
    un', alloc' := un, alloc;
    assert Split(un', alloc') == EvenShares(Split(un, alloc), id, dests, 0) by { NoShares(Split(un, alloc), id, 0, dests); }
    var amount := un[id] / |dests|;
    var remainder := un[id] % |dests|;
    for i := 0 to |dests|
      invariant Split(un', alloc') == EvenShares(Split(un, alloc), id, dests, i)
    {
      NextShare(Split(un, alloc), id, dests, i);
      un', alloc' := AllocateTo(un', alloc', id, if i < remainder then amount + 1 else amount, dests[i]);
    }
  }

  /** Give each destination the amount, or what is left of the balance. */
  method GiveEach(un: Balances, alloc: seq<Balances>, id: RuneId, amount: nat, dests: seq<nat>)
    returns (un': Balances, alloc': seq<Balances>)
    requires id in un && Fits(Split(un, alloc), dests)
    ensures Split(un', alloc') == CappedShares(Split(un, alloc), id, amount, dests, |dests|)
  {
    hide CappedShares, Allocate;
    un', alloc' := un, alloc;
    NoShares(Split(un, alloc), id, amount, dests);
    for i := 0 to |dests|
      invariant Split(un', alloc') == CappedShares(Split(un, alloc), id, amount, dests, i)
    {
      NextCapped(Split(un, alloc), id, amount, dests, i);
      un', alloc' := AllocateTo(un', alloc', id, Min(amount, un'[id]), dests[i]);
    }
  }

  method RunEdict(tx: Tx, etched: Option<Etched>, e: Edict, un: Balances, alloc: seq<Balances>)
    returns (un': Balances, alloc': seq<Balances>)
    requires |alloc| == |tx.outputs| && e.output <= |tx.outputs|
    ensures Split(un', alloc') == EdictStep(tx, etched, e, Split(un, alloc))
    ensures Edicted(tx, etched, e, Split(un, alloc), Split(un', alloc'))
  {
    hide Edicted;
    StepEdicted(tx, etched, e, Split(un, alloc));
    un', alloc' := un, alloc;
    var id := e.id;
    if e.id == DEFAULT_RUNE_ID {
      if etched.None? {
        return;
      }
      id := etched.value.id;
    }
    if id !in un {
      return;
    }
    if e.output == |tx.outputs| {
      var dests := EligibleOutputs(tx);
      if e.amount > 0 {
        un', alloc' := GiveEach(un, alloc, id, e.amount, dests);
      } else if dests != [] {
        un', alloc' := DivideEvenly(un, alloc, id, dests);
      }
    } else {
      var amount := if e.amount == 0 then un[id] else Min(e.amount, un[id]);
      un', alloc' := AllocateTo(un, alloc, id, amount, e.output);
    }
  }

  /** All edicts in order; `steps` are the splits between them. */
  method RunAllEdicts(tx: Tx, etched: Option<Etched>, edicts: seq<Edict>, un: Balances)
    returns (un': Balances, alloc: seq<Balances>, ghost steps: seq<Split>)
    requires EdictsInBounds(edicts, |tx.outputs|)
    ensures Split(un', alloc) == RunEdicts(tx, etched, edicts, Split(un, Empties(|tx.outputs|)), |edicts|)
    ensures EdictsFollowed(tx, etched, edicts, un, steps) && steps[|edicts|] == Split(un', alloc)
  {
    hide Edicted, EdictStep;
    un', alloc := un, Empties(|tx.outputs|);
    steps := [Split(un', alloc)];
    for k := 0 to |edicts|
      invariant Split(un', alloc) == RunEdicts(tx, etched, edicts, Split(un, Empties(|tx.outputs|)), k)
      invariant EdictsFollowed(tx, etched, edicts[..k], un, steps) && steps[k] == Split(un', alloc)
    {
      un', alloc := RunEdict(tx, etched, edicts[k], un', alloc);
      steps := steps + [Split(un', alloc)];
    }
    assert edicts[..|edicts|] == edicts;
  }

  // --- leftovers and outputs

  method AddLeftovers(given: Balances, un: Balances) returns (r: Balances)
    ensures r == AddPositive(given, un)
  {
    r := given;
    var todo := un.Keys;
    ghost var done: set<RuneId> := {};
    while todo != {}
      invariant done + todo == un.Keys && done !! todo
      invariant r == AddPositive(given, Restrict(un, done))
      decreases todo
    {
      var id :| id in todo;
      if un[id] > 0 {
        r := Credit(r, id, un[id]);
      }
      todo, done := todo - {id}, done + {id};
    }
    assert Restrict(un, done) == un;
  }

  /** Distribute what was gathered: edicts first, then the rest to the default output or nowhere. `steps` are
      the splits between the edicts; the last is what they left. */
  method Distribute(tx: Tx, etched: Option<Etched>, un: Balances, ghost kv: Kv)
    returns (alloc: seq<Balances>, ghost steps: seq<Split>)
    ensures alloc == Allocated(tx, Gathered(kv, un, etched)).outputs
    ensures EdictsFollowed(
      tx, etched, if tx.artifact.Some? && tx.artifact.value.Runestone? then tx.artifact.value.edicts else [], un, steps)
    ensures forall v: nat | Receives(tx, v) :: LeftTo(steps[|steps| - 1], alloc, v)
    ensures (forall v: nat :: !Receives(tx, v)) ==> alloc == steps[|steps| - 1].alloc
  {
    hide Edicted, RunEdicts, Destinations, DefaultOutput, LeftTo, AddPositive;
    var left: Balances;
    var edicts: seq<Edict> := [];
    if tx.artifact.Some? && tx.artifact.value.Runestone? {
      edicts := tx.artifact.value.edicts;
    }
    left, alloc, steps := RunAllEdicts(tx, etched, edicts, un);
    forall v: nat
      ensures DefaultOutput(tx) == Some(v) <==> Receives(tx, v)
    {
      DefaultReceives(tx, v);
    }
    if tx.artifact.Some? && tx.artifact.value.Cenotaph? {
      return;
    }
    var v := 0;
    if tx.artifact.Some? && tx.artifact.value.pointer.Some? {
      v := tx.artifact.value.pointer.value;
    } else {
      while v < |tx.outputs| && IsOpReturn(tx.outputs[v].script)
        invariant v <= |tx.outputs| && forall o | 0 <= o < v :: IsOpReturn(tx.outputs[o].script)
      {
        v := v + 1;
      }
    }
    if v < |tx.outputs| {
      assert Receives(tx, v);
      LeftAdded(Split(left, alloc), v);
      var more := AddLeftovers(alloc[v], left);
      alloc := alloc[v := more];
    }
  }

  /** The by-script entry of an output that is given runes. */
  predicate ListsOutput(tx: Tx, h: nat, alloc: seq<Balances>, key: Key)
    requires |alloc| == |tx.outputs|
  {
    exists j | 0 <= j < |tx.outputs| ::
      alloc[j] != map[] && key == RuneUtxoKey(tx.outputs[j].script, h, TxoRef(tx.id, j))
  }

  /** The entries of the outputs that are given runes are there, and no others came or went. */
  ghost predicate ListedTo(before: Kv, after: Kv, tx: Tx, h: nat, alloc: seq<Balances>)
    requires |alloc| == |tx.outputs|
  {
    forall key :: Lookup(after, key) == (if ListsOutput(tx, h, alloc, key) then Some(UnitV) else Lookup(before, key))
  }

  lemma OutputsListed(kv: Kv, tx: Tx, h: nat, alloc: seq<Balances>)
    requires |alloc| == |tx.outputs|
    ensures ListedTo(kv, RecordOutputs(kv, tx, h, alloc, |tx.outputs|), tx, h, alloc)
  {
    forall key
      ensures Lookup(RecordOutputs(kv, tx, h, alloc, |tx.outputs|), key)
           == if ListsOutput(tx, h, alloc, key) then Some(UnitV) else Lookup(kv, key)
    {
      RecordOutputsIn(kv, tx, h, alloc, |tx.outputs|, key);
    }
  }

  /** List the outputs with runes by script, spendable or not, and attach the runes to them. */
  method RecordRunes(task: IndexingTask, ctx: IndexingContext, tx: Tx, alloc: seq<Balances>)
    requires task.Valid() && |alloc| == |tx.outputs|
    requires forall r | r in ctx.metadata :: r.txid != tx.id
    modifies task, ctx`metadata
    ensures task.Valid() && task.originals.Some? == old(task.originals).Some?
    ensures old(task.CountersClean()) ==> task.CountersClean()
    ensures SameUtxos(task.View(), old(task.View()))
    ensures Tables(task.View()) == RecordOutputs(Tables(old(task.View())), tx, ctx.point.height, alloc, |tx.outputs|)
    ensures ListedTo(Tables(old(task.View())), Tables(task.View()), tx, ctx.point.height, alloc)
    ensures ctx.AttachedFrom(tx, alloc, 0)
    ensures forall r | r in ctx.metadata :: r in old(ctx.metadata) || r.txid == tx.id
  {
    hide Resolved, Tables, IsTable, ListedTo, ListsOutput;
    ghost var kv := Tables(task.View());
    for j := 0 to |tx.outputs|
      invariant task.Valid() && task.originals.Some? == old(task.originals).Some?
      invariant old(task.CountersClean()) ==> task.CountersClean()
      invariant SameUtxos(task.View(), old(task.View()))
      invariant Tables(task.View()) == RecordOutputs(kv, tx, ctx.point.height, alloc, j)
      invariant forall i | 0 <= i < |tx.outputs| ::
        ctx.RunesOf(TxoRef(tx.id, i)) == if i < j then alloc[i] else map[]
      invariant forall r | r in ctx.metadata :: r in old(ctx.metadata) || r.txid == tx.id
    {
      if alloc[j] != map[] {
        ctx.AttachMetadata(TxoRef(tx.id, j), alloc[j]);
        task.Set(RuneUtxoKey(tx.outputs[j].script, ctx.point.height, TxoRef(tx.id, j)), UnitV);
      }
    }
    OutputsListed(kv, tx, ctx.point.height, alloc);
  }

  /** Index the runes of one transaction, or do nothing below the start height. */
  method IndexRunes(cfg: Config, task: IndexingTask, tx: Tx, i: nat, ctx: IndexingContext)
    returns (ghost alloc: seq<Balances>)
    requires task.Valid() && Resolvable(ctx.resolver, tx) && cfg.runes.Some?
    requires forall r | r in ctx.metadata :: r.txid != tx.id
    modifies task, ctx`metadata
    ensures task.Valid() && task.originals.Some? == old(task.originals).Some?
    ensures old(task.CountersClean()) ==> task.CountersClean()
    ensures SameUtxos(task.View(), old(task.View()))
    ensures var r := RunesPart(cfg, Tables(old(task.View())), tx, Resolve(ctx.resolver, tx), ctx.point.height, i);
            Tables(task.View()) == r.kv && alloc == r.alloc.outputs
    ensures ctx.point.height < cfg.runes.value.startHeight ==>
      Tables(task.View()) == Tables(old(task.View())) && alloc == Empties(|tx.outputs|)
    ensures ctx.point.height >= cfg.runes.value.startHeight ==>
      var r := RunesTx(cfg.runes.value, Tables(old(task.View())), tx, Resolve(ctx.resolver, tx), ctx.point.height, i);
      Tables(task.View()) == r.kv && alloc == r.alloc.outputs
    ensures |alloc| == |tx.outputs| && ctx.AttachedFrom(tx, alloc, 0)
    ensures forall r | r in ctx.metadata :: r in old(ctx.metadata) || r.txid == tx.id
  {
    var h := ctx.point.height;
    if h < cfg.runes.value.startHeight {
      alloc := Empties(|tx.outputs|);
      return;
    }
    var un, etched := GatherRunes(cfg.runes.value, task, tx, h, i, ctx.resolver);
    var outputs, _ := Distribute(tx, etched, un, Tables(task.View()));
    RecordRunes(task, ctx, tx, outputs);
    alloc := outputs;
  }
}
