/** What a transaction may mint and etch, and what it gathers, said in terms of the transaction, the outputs
    it spends and the stored entries. */
module Issuance {
  import opened Wrappers
  import opened Types
  import opened RunesSpec
  import opened RunesProofs
  import opened Ledger
  import opened Indexers

  // --- mint

  /** From the start height on, below the end height, and below the cap, which must be given. */
  predicate CanMint(t: RuneTerms, mints: nat, h: nat) {
    && (t.start.Some? ==> h >= t.start.value)
    && (t.end.Some? ==> h < t.end.value)
    && t.cap.Some? && mints < t.cap.value
  }

  // --- etching

  /** The j-th input pushes the name and spends a taproot output that is old enough. */
  predicate Confirms(cfg: RunesConfig, tx: Tx, resolver: Utxos, name: nat, h: nat, j: nat) {
    && j < |tx.inputs| && tx.inputs[j].prev in resolver
    && name in tx.inputs[j].pushes
    && IsP2tr(resolver[tx.inputs[j].prev].script)
    && h + 1 >= resolver[tx.inputs[j].prev].height + cfg.commitConfirmations
  }

  ghost predicate Committed(cfg: RunesConfig, tx: Tx, resolver: Utxos, name: nat, h: nat) {
    !IsCoinbase(tx) && exists j: nat :: Confirms(cfg, tx, resolver, name, h, j)
  }

  lemma CommitsAlike(cfg: RunesConfig, tx: Tx, resolver: Utxos, name: nat, h: nat)
    requires Resolvable(resolver, tx)
    ensures Commits(cfg, tx, Resolve(resolver, tx), name, h) <==> Committed(cfg, tx, resolver, name, h)
  {
    var ins := Resolve(resolver, tx);
    if j: nat :| j < |ins| && name in tx.inputs[j].pushes && IsP2tr(ins[j].script)
                 && h - ins[j].height + 1 >= cfg.commitConfirmations {
      assert Confirms(cfg, tx, resolver, name, h, j);
    }
    if j: nat :| !IsCoinbase(tx) && Confirms(cfg, tx, resolver, name, h, j) {
      assert ins[j] == resolver[tx.inputs[j].prev];
    }
  }

  /** The artifact asks to etch a rune of this name. */
  predicate Names(a: Artifact, name: nat) {
    match a
    case Runestone(_, etching, _, _) => etching.Some? && etching.value.rune == Some(name)
    case Cenotaph(asked, _) => asked == Some(name)
  }

  /** Nothing is etched without an etching; a nameless one gets the reserved name of its position; a named one
      is granted exactly when the name is long enough by now, not reserved, not taken and committed to. */
  ghost predicate Grants(
    cfg: RunesConfig, kv: Kv, tx: Tx, resolver: Utxos, a: Artifact, h: nat, i: nat, etched: Option<Etched>)
  {
    && ((a.Runestone? && a.etching.None?) || (a.Cenotaph? && a.name.None?) ==> etched.None?)
    && (a.Runestone? && a.etching.Some? && a.etching.value.rune.None? ==>
          etched == Some(Etched(RuneId(h, i), cfg.reservedName(h, i))))
    && forall name: nat | Names(a, name) ::
         etched ==
         if name >= cfg.minimum(h) && name < cfg.reservedFrom && RuneNameKey(name) !in kv
            && Committed(cfg, tx, resolver, name, h)
         then Some(Etched(RuneId(h, i), name)) else None
  }

  // --- the entry of a new rune

  /** The greatest of two optional heights, nothing if neither is given. */
  predicate Greatest(r: Option<nat>, a: Option<nat>, b: Option<nat>) {
    && (r == a || r == b)
    && (a.Some? ==> r.Some? && a.value <= r.value)
    && (b.Some? ==> r.Some? && b.value <= r.value)
  }

  /** The least of two optional heights, nothing if neither is given. */
  predicate Least(r: Option<nat>, a: Option<nat>, b: Option<nat>) {
    && (r == a || r == b)
    && (a.Some? ==> r.Some? && r.value <= a.value)
    && (b.Some? ==> r.Some? && r.value <= b.value)
  }

  /** Stored terms against the terms of the runestone: the same amount and cap, and the mint opens at the
      last of the given starts and closes at the first of the given ends. */
  predicate TermsStored(t: Terms, h: nat, stored: RuneTerms) {
    && stored.amount == t.amount && stored.cap == t.cap
    && Greatest(stored.start, t.heightStart, Relative(h, t.offsetStart))
    && Least(stored.end, t.heightEnd, Relative(h, t.offsetEnd))
  }

  /** A stored entry against the artifact that etched it; a cenotaph's has nothing but the name. */
  predicate EntryStored(a: Artifact, name: nat, h: nat, txid: Hash, info: RuneInfo) {
    && info.name == name && info.etchingHeight == h && info.etchingTx == txid
    && match a
       case Cenotaph(_, _) =>
         info.terms.None? && info.symbol.None? && info.divisibility == info.premine == info.spacers == 0
       case Runestone(_, etching, _, _) => etching.Some? ==>
         var e := etching.value;
         && info.premine == e.premine.UnwrapOr(0) && info.symbol == e.symbol
         && info.divisibility == e.divisibility.UnwrapOr(0) && info.spacers == e.spacers.UnwrapOr(0)
         && (info.terms.Some? <==> e.terms.Some?)
         && (info.terms.Some? ==> TermsStored(e.terms.value, h, info.terms.value))
  }

  /** The mint of stored terms is open at the heights at which every given bound allows it. */
  lemma WindowOf(t: Terms, h: nat, stored: RuneTerms, x: nat)
    requires TermsStored(t, h, stored) && x < U64_MAX
    ensures InWindow(stored, x) <==>
      && (t.heightStart.Some? ==> x >= t.heightStart.value)
      && (t.offsetStart.Some? ==> x >= h + t.offsetStart.value)
      && (t.heightEnd.Some? ==> x < t.heightEnd.value)
      && (t.offsetEnd.Some? ==> x < h + t.offsetEnd.value)
  {
  }

  // --- everything gathered

  /** The transaction mints this rune: it asks for it, and the stored entry allows it. */
  predicate Mints(tx: Tx, kv: Kv, h: nat, id: RuneId) {
    && tx.artifact.Some? && tx.artifact.value.mint == Some(id)
    && InfoAt(kv, id).Some? && InfoAt(kv, id).value.terms.Some?
    && CanMint(InfoAt(kv, id).value.terms.value, NumAt(kv, RuneMintsKey(id)), h)
  }

  /** What its mint adds to a rune. */
  function Minted(tx: Tx, kv: Kv, h: nat, id: RuneId): nat {
    if Mints(tx, kv, h, id) then InfoAt(kv, id).value.terms.value.amount.UnwrapOr(0) else 0
  }

  /** What its etching adds to a rune; a cenotaph's adds nothing. */
  function Premined(tx: Tx, etched: Option<Etched>, id: RuneId): nat {
    match tx.artifact
    case Some(Runestone(_, Some(e), _, _)) =>
      if etched.Some? && etched.value.id == id then e.premine.UnwrapOr(0) else 0
    case _ => 0
  }

  /** Inputs, mint and premine make up what is gathered, and the mint and the new entry are all that the rune
      tables gain. */
  ghost predicate GatheredOf(
    cfg: RunesConfig, kv: Kv, tx: Tx, resolver: Utxos, h: nat, i: nat, after: Kv, un: Balances, etched: Option<Etched>)
  {
    && (tx.artifact.None? ==> etched.None?)
    && (tx.artifact.Some? ==> Grants(cfg, kv, tx, resolver, tx.artifact.value, h, i, etched))
    && forall id :: GatheredAt(kv, tx, resolver, h, after, un, etched, id)
  }

  ghost predicate GatheredAt(
    kv: Kv, tx: Tx, resolver: Utxos, h: nat, after: Kv, un: Balances, etched: Option<Etched>, id: RuneId)
  {
    var ins := Resolve(resolver, tx);
    && Get(un, id) == InSum(ins, |ins|, id) + Minted(tx, kv, h, id) + Premined(tx, etched, id)
    && NumAt(after, RuneMintsKey(id)) == NumAt(kv, RuneMintsKey(id)) + (if Mints(tx, kv, h, id) then 1 else 0)
    && if etched.Some? && etched.value.id == id
       then
         && InfoAt(after, id).Some? && tx.artifact.Some?
         && EntryStored(tx.artifact.value, etched.value.name, h, tx.id, InfoAt(after, id).value)
         && Lookup(after, RuneNameKey(etched.value.name)) == Some(RuneIdV(id))
       else InfoAt(after, id) == InfoAt(kv, id)
  }

  lemma MintGathered(kv: Kv, un: Balances, tx: Tx, a: Artifact, h: nat, id: RuneId)
    requires tx.artifact == Some(a)
    ensures var r := GatherMint(kv, un, a, h);
            && Get(r.1, id) == Get(un, id) + Minted(tx, kv, h, id)
            && NumAt(r.0, RuneMintsKey(id)) == NumAt(kv, RuneMintsKey(id)) + (if Mints(tx, kv, h, id) then 1 else 0)
            && InfoAt(r.0, id) == InfoAt(kv, id)
  {
  }

  lemma EtchGranted(cfg: RunesConfig, kv: Kv, tx: Tx, resolver: Utxos, a: Artifact, h: nat, i: nat)
    requires Resolvable(resolver, tx)
    ensures Grants(cfg, kv, tx, resolver, a, h, i, EtchedBy(cfg, kv, tx, Resolve(resolver, tx), a, h, i))
  {
    hide Committed, Commits, Resolve;
    forall name: nat | Names(a, name)
      ensures Commits(cfg, tx, Resolve(resolver, tx), name, h) <==> Committed(cfg, tx, resolver, name, h)
    {
      CommitsAlike(cfg, tx, resolver, name, h);
    }
  }

  /** A grant depends on the names taken only. */
  lemma GrantsFrame(
    cfg: RunesConfig, a: Kv, b: Kv, tx: Tx, resolver: Utxos, art: Artifact, h: nat, i: nat, etched: Option<Etched>)
    requires Grants(cfg, a, tx, resolver, art, h, i, etched)
    requires forall n :: RuneNameKey(n) in a <==> RuneNameKey(n) in b
    ensures Grants(cfg, b, tx, resolver, art, h, i, etched)
  {
    hide Committed;
  }

  lemma EntryGathered(kv: Kv, a: Artifact, e: Etched, tx: Tx, h: nat, id: RuneId)
    ensures var kv' := CreateEntry(kv, a, e, tx.id, h);
            && NumAt(kv', RuneMintsKey(id)) == NumAt(kv, RuneMintsKey(id))
            && (id != e.id ==> InfoAt(kv', id) == InfoAt(kv, id))
            && InfoAt(kv', e.id).Some? && EntryStored(a, e.name, h, tx.id, InfoAt(kv', e.id).value)
            && Lookup(kv', RuneNameKey(e.name)) == Some(RuneIdV(e.id))
  {
  }

  lemma InputsGathered(kv: Kv, tx: Tx, ins: seq<Utxo>, id: RuneId)
    requires |ins| <= |tx.inputs|
    ensures var kv' := SpendRuneKeys(kv, tx, ins, |ins|);
            && InfoAt(kv', id) == InfoAt(kv, id) && NumAt(kv', RuneMintsKey(id)) == NumAt(kv, RuneMintsKey(id))
            && forall n :: RuneNameKey(n) in kv' <==> RuneNameKey(n) in kv
    ensures Get(Unallocated(ins, |ins|), id) == InSum(ins, |ins|, id)
  {
    var kv' := SpendRuneKeys(kv, tx, ins, |ins|);
    SpendRuneKeysFrame(kv, tx, ins, |ins|);
    UnallocatedSum(ins, |ins|, id);
    assert Lookup(kv', RuneInfoKey(id)) == Lookup(kv, RuneInfoKey(id));
    assert Lookup(kv', RuneMintsKey(id)) == Lookup(kv, RuneMintsKey(id));
    forall n
      ensures RuneNameKey(n) in kv' <==> RuneNameKey(n) in kv
    {
      assert Lookup(kv', RuneNameKey(n)) == Lookup(kv, RuneNameKey(n));
    }
  }

  lemma GatherAt(cfg: RunesConfig, kv: Kv, tx: Tx, resolver: Utxos, h: nat, i: nat, id: RuneId)
    requires Resolvable(resolver, tx)
    ensures var g := Gather(cfg, kv, tx, Resolve(resolver, tx), h, i);
            GatheredAt(kv, tx, resolver, h, g.kv, g.un, g.etched, id)
  {
    hide Resolve, EtchedBy, CreateEntry, EntryStored, CanMint, SpendRuneKeys, Unallocated, GatherMint, MintAmount, CountMint;
    var ins := Resolve(resolver, tx);
    var kv1, un1 := SpendRuneKeys(kv, tx, ins, |ins|), Unallocated(ins, |ins|);
    InputsGathered(kv, tx, ins, id);
    match tx.artifact {
      case None =>
      case Some(a) =>
        MintGathered(kv1, un1, tx, a, h, id);
        var (kv2, un2) := GatherMint(kv1, un1, a, h);
        match EtchedBy(cfg, kv2, tx, ins, a, h, i) {
          case None =>
          case Some(e) =>
            EntryGathered(kv2, a, e, tx, h, id);
            EtchedAsked(cfg, kv2, tx, ins, a, h, i);
        }
    }
  }

  lemma EtchedAsked(cfg: RunesConfig, kv: Kv, tx: Tx, ins: seq<Utxo>, a: Artifact, h: nat, i: nat)
    requires |ins| <= |tx.inputs| && EtchedBy(cfg, kv, tx, ins, a, h, i).Some?
    ensures a.Runestone? ==> a.etching.Some?
  {
  }

  lemma GatherExact(cfg: RunesConfig, kv: Kv, tx: Tx, resolver: Utxos, h: nat, i: nat)
    requires Resolvable(resolver, tx)
    ensures var g := Gather(cfg, kv, tx, Resolve(resolver, tx), h, i);
            GatheredOf(cfg, kv, tx, resolver, h, i, g.kv, g.un, g.etched)
  {
    hide Resolve, GatheredAt, Grants, EtchedBy, CreateEntry, SpendRuneKeys, Unallocated, MintAmount;
    var ins := Resolve(resolver, tx);
    var g := Gather(cfg, kv, tx, ins, h, i);
    forall id
      ensures GatheredAt(kv, tx, resolver, h, g.kv, g.un, g.etched, id)
    {
      GatherAt(cfg, kv, tx, resolver, h, i, id);
    }
    if tx.artifact.Some? {
      var a := tx.artifact.value;
      var kv1, un1 := SpendRuneKeys(kv, tx, ins, |ins|), Unallocated(ins, |ins|);
      InputsGathered(kv, tx, ins, DEFAULT_RUNE_ID);
      var kv2 := GatherMint(kv1, un1, a, h).0;
      EtchGranted(cfg, kv2, tx, resolver, a, h, i);
      GrantsFrame(cfg, kv2, kv, tx, resolver, a, h, i, EtchedBy(cfg, kv2, tx, ins, a, h, i));
    }
  }
}
