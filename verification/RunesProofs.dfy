/** Conservation of runes within one transaction, and the exact effect of the dividing edicts. */
module RunesProofs {
  import opened Wrappers
  import opened Types
  import opened RunesSpec

  ghost predicate Conserves(b: Split, r: Split) {
    forall id :: Get(b.un, id) + Total(b.alloc, id) == Get(r.un, id) + Total(r.alloc, id)
  }

  ghost predicate Clean(alloc: seq<Balances>) {
    forall j | 0 <= j < |alloc| :: NoZeros(alloc[j])
  }

  lemma {:induction false} TotalUpdate(alloc: seq<Balances>, o: nat, m: Balances, id: RuneId)
    requires o < |alloc|
    ensures Total(alloc[o := m], id) + Get(alloc[o], id) == Total(alloc, id) + Get(m, id)
  {
    var n := |alloc| - 1;
    if o == n {
      assert alloc[o := m][..n] == alloc[..n];
    } else {
      assert alloc[o := m][..n] == alloc[..n][o := m];
      TotalUpdate(alloc[..n], o, m, id);
    }
  }

  lemma {:induction false} TotalEmpties(n: nat, id: RuneId)
    ensures Total(Empties(n), id) == 0
  {
    if n > 0 {
      assert Empties(n)[..n - 1] == Empties(n - 1);
      TotalEmpties(n - 1, id);
    }
  }

  lemma AllocateConserves(b: Split, id: RuneId, amount: nat, output: nat)
    requires output < |b.alloc| && amount <= Get(b.un, id)
    ensures Conserves(b, Allocate(b, id, amount, output))
    ensures Clean(b.alloc) ==> Clean(Allocate(b, id, amount, output).alloc)
  {
    if amount > 0 {
      forall x {
        TotalUpdate(b.alloc, output, Credit(b.alloc[output], id, amount), x);
      }
    }
  }

  lemma {:induction false} EvenSharesConserve(b: Split, id: RuneId, dests: seq<nat>, k: nat)
    requires k <= |dests| && Fits(b, dests) && id in b.un
    ensures Conserves(b, EvenShares(b, id, dests, k))
    ensures Clean(b.alloc) ==> Clean(EvenShares(b, id, dests, k).alloc)
  {
    if k > 0 {
      EvenSharesConserve(b, id, dests, k - 1);
      ShareFits(b.un[id], |dests|, k - 1);
      AllocateConserves(EvenShares(b, id, dests, k - 1), id, Share(b.un[id], |dests|, k - 1), dests[k - 1]);
    }
  }

  lemma {:induction false} CappedSharesConserve(b: Split, id: RuneId, amount: nat, dests: seq<nat>, k: nat)
    requires k <= |dests| && Fits(b, dests) && id in b.un
    ensures Conserves(b, CappedShares(b, id, amount, dests, k))
    ensures Clean(b.alloc) ==> Clean(CappedShares(b, id, amount, dests, k).alloc)
  {
    if k > 0 {
      CappedSharesConserve(b, id, amount, dests, k - 1);
      var r := CappedShares(b, id, amount, dests, k - 1);
      AllocateConserves(r, id, Min(amount, r.un[id]), dests[k - 1]);
    }
  }

  lemma EdictStepConserves(tx: Tx, etched: Option<Etched>, e: Edict, b: Split)
    requires |b.alloc| == |tx.outputs| && e.output <= |tx.outputs|
    ensures Conserves(b, EdictStep(tx, etched, e, b))
    ensures Clean(b.alloc) ==> Clean(EdictStep(tx, etched, e, b).alloc)
  {
    var rune := EdictRune(e, etched);
    if rune.Some? && rune.value in b.un {
      var id := rune.value;
      var dests := Destinations(tx.outputs, |tx.outputs|);
      if e.output == |tx.outputs| {
        EvenSharesConserve(b, id, dests, |dests|);
        CappedSharesConserve(b, id, e.amount, dests, |dests|);
      } else {
        AllocateConserves(b, id, if e.amount == 0 then b.un[id] else Min(e.amount, b.un[id]), e.output);
      }
    }
  }

  /** After every edict, what is allocated plus what remains is what the transaction started with,
      rune by rune, and no output ever holds a zero entry. */
  lemma {:induction false} RunEdictsConserve(
    tx: Tx, etched: Option<Etched>, edicts: seq<Edict>, b: Split, k: nat)
    requires k <= |edicts| && EdictsInBounds(edicts, |tx.outputs|) && |b.alloc| == |tx.outputs|
    ensures Conserves(b, RunEdicts(tx, etched, edicts, b, k))
    ensures Clean(b.alloc) ==> Clean(RunEdicts(tx, etched, edicts, b, k).alloc)
  {
    if k > 0 {
      RunEdictsConserve(tx, etched, edicts, b, k - 1);
      EdictStepConserves(tx, etched, edicts[k - 1], RunEdicts(tx, etched, edicts, b, k - 1));
    }
  }

  // --- exact effect of the dividing edicts

  /** The balances of output `o` when each of the first `k` destinations gets `share(i)` of `id`. */
  ghost predicate SharedOut(
    b: Split, r: Split, id: RuneId, dests: seq<nat>, k: nat, share: nat -> nat)
    requires k <= |dests| && Fits(b, dests) && |r.alloc| == |b.alloc|
  {
    && (forall i | 0 <= i < k :: Get(r.alloc[dests[i]], id) == Get(b.alloc[dests[i]], id) + share(i))
    && (forall o | 0 <= o < |b.alloc| && o !in dests[..k] :: r.alloc[o] == b.alloc[o])
    && (forall o, x | 0 <= o < |b.alloc| && x != id :: Get(r.alloc[o], x) == Get(b.alloc[o], x))
    && (forall x | x != id :: Get(r.un, x) == Get(b.un, x))
  }

  lemma SharedOutStep(b: Split, r: Split, id: RuneId, dests: seq<nat>, k: nat, share: nat -> nat)
    requires k < |dests| && Fits(b, dests) && |r.alloc| == |b.alloc|
    requires forall i, j | 0 <= i < j < |dests| :: dests[i] < dests[j]
    requires SharedOut(b, r, id, dests, k, share) && share(k) <= Get(r.un, id)
    ensures SharedOut(b, Allocate(r, id, share(k), dests[k]), id, dests, k + 1, share)
  {
    assert dests[..k + 1] == dests[..k] + [dests[k]];
    assert dests[k] !in dests[..k];
  }

  function EvenShare(balance: nat, n: nat): nat -> nat
    requires n > 0
  {
    i => Share(balance, n, i)
  }

  /** The shares of a balance differ by at most one, the larger ones first. */
  ghost predicate LargerFirst(balance: nat, n: nat)
    requires n > 0
  {
    forall i: nat, j: nat | i <= j < n :: Share(balance, n, j) <= Share(balance, n, i) <= Share(balance, n, j) + 1
  }

  lemma SharesLargerFirst(balance: nat, n: nat)
    requires n > 0
    ensures LargerFirst(balance, n)
  {
  }

  lemma {:induction false} EvenSharesExact(b: Split, id: RuneId, dests: seq<nat>, k: nat)
    requires 0 < k <= |dests| && Fits(b, dests) && id in b.un
    requires forall i, j | 0 <= i < j < |dests| :: dests[i] < dests[j]
    ensures SharedOut(b, EvenShares(b, id, dests, k), id, dests, k, EvenShare(b.un[id], |dests|))
  {
    var share := EvenShare(b.un[id], |dests|);
    var r := EvenShares(b, id, dests, k - 1);
    if k > 1 {
      EvenSharesExact(b, id, dests, k - 1);
    }
    ShareFits(b.un[id], |dests|, k - 1);
    SharedOutStep(b, r, id, dests, k - 1, share);
  }

  /** Dividing a balance evenly: nothing is left, every eligible output gets its share, the shares
      add up to the balance, differ by at most one, and the larger ones come first. */
  lemma EvenSplit(tx: Tx, b: Split, id: RuneId)
    requires |b.alloc| == |tx.outputs| && id in b.un
    ensures var dests := Destinations(tx.outputs, |tx.outputs|);
            var r := EvenShares(b, id, dests, |dests|);
            dests != [] ==>
              && r.un[id] == 0
              && SharedOut(b, r, id, dests, |dests|, EvenShare(b.un[id], |dests|))
              && LargerFirst(b.un[id], |dests|)
  {
    var dests := Destinations(tx.outputs, |tx.outputs|);
    if dests != [] {
      EvenSharesExact(b, id, dests, |dests|);
      ShareFits(b.un[id], |dests|, |dests| - 1);
      SharesLargerFirst(b.un[id], |dests|);
    }
  }

  /** What is left of a balance once `i` takers have had up to `amount` each. */
  function Left(balance: nat, amount: nat, i: nat): nat {
    if i == 0 then balance else Left(balance, amount, i - 1) - Min(amount, Left(balance, amount, i - 1))
  }

  lemma {:induction false} LeftClosed(balance: nat, amount: nat, i: nat)
    ensures Left(balance, amount, i) == Max(0, balance - i * amount)
  {
    if i > 0 {
      LeftClosed(balance, amount, i - 1);
      assert i * amount == (i - 1) * amount + amount;
    }
  }

  function CappedShare(balance: nat, amount: nat): nat -> nat {
    i => Min(amount, Left(balance, amount, i))
  }

  lemma {:induction false} CappedLeft(b: Split, id: RuneId, amount: nat, dests: seq<nat>, k: nat)
    requires k <= |dests| && Fits(b, dests) && id in b.un
    ensures CappedShares(b, id, amount, dests, k).un[id] == Left(b.un[id], amount, k)
  {
    if k > 0 {
      CappedLeft(b, id, amount, dests, k - 1);
    }
  }

  /** Asking for a fixed amount at every eligible output serves them in order until the balance runs
      out: the i-th output gets the lesser of the amount and what its predecessors left. */
  lemma {:induction false} CappedSplit(b: Split, id: RuneId, amount: nat, dests: seq<nat>, k: nat)
    requires 0 < k <= |dests| && Fits(b, dests) && id in b.un
    requires forall i, j | 0 <= i < j < |dests| :: dests[i] < dests[j]
    ensures SharedOut(b, CappedShares(b, id, amount, dests, k), id, dests, k, CappedShare(b.un[id], amount))
  {
    var share := CappedShare(b.un[id], amount);
    var r := CappedShares(b, id, amount, dests, k - 1);
    if k > 1 {
      CappedSplit(b, id, amount, dests, k - 1);
    }
    CappedLeft(b, id, amount, dests, k - 1);
    assert share(k - 1) == Min(amount, r.un[id]);
    SharedOutStep(b, r, id, dests, k - 1, share);
  }

  // --- a whole transaction

  lemma TotalAddPositive(alloc: seq<Balances>, v: nat, un: Balances, id: RuneId)
    requires v < |alloc|
    ensures Total(alloc[v := AddPositive(alloc[v], un)], id) == Total(alloc, id) + Get(un, id)
  {
    TotalUpdate(alloc, v, AddPositive(alloc[v], un), id);
  }

  /** Everything gathered is either given to an output or burned; outputs hold no zero entries. */
  lemma AllocatedConserves(tx: Tx, g: Gathered, id: RuneId)
    ensures var a := Allocated(tx, g);
            Get(g.un, id) == Total(a.outputs, id) + Get(a.burned, id)
    ensures Clean(Allocated(tx, g).outputs)
  {
    var b0 := Split(g.un, Empties(|tx.outputs|));
    var b := RunEdicts(tx, g.etched, EdictsOf(tx), b0, |EdictsOf(tx)|);
    TotalEmpties(|tx.outputs|, id);
    RunEdictsConserve(tx, g.etched, EdictsOf(tx), b0, |EdictsOf(tx)|);
    if DefaultOutput(tx).Some? {
      TotalAddPositive(b.alloc, DefaultOutput(tx).value, b.un, id);
    }
  }

  function InSum(ins: seq<Utxo>, k: nat, id: RuneId): nat
    requires k <= |ins|
  {
    if k == 0 then 0 else InSum(ins, k - 1, id) + Get(ins[k - 1].runes, id)
  }

  lemma {:induction false} UnallocatedSum(ins: seq<Utxo>, k: nat, id: RuneId)
    requires k <= |ins|
    ensures Get(Unallocated(ins, k), id) == InSum(ins, k, id)
  {
    if k > 0 {
      UnallocatedSum(ins, k - 1, id);
    }
  }

  // --- the rune tables

  /** Etching positions are ordered as the chain is: by block, then by place in the block. */
  predicate Before(id: RuneId, h: nat, i: nat) {
    id.block < h || (id.block == h && id.tx < i)
  }

  ghost predicate ReservedNames(cfg: RunesConfig) {
    && (forall h: nat, i: nat :: cfg.reservedName(h, i) >= cfg.reservedFrom)
    && (forall h: nat, i: nat, h': nat, i': nat ::
          cfg.reservedName(h, i) == cfg.reservedName(h', i') ==> h == h' && i == i')
  }

  function MaxSupply(info: RuneInfo): nat {
    info.premine +
    match info.terms
    case Some(t) => t.cap.UnwrapOr(0) * t.amount.UnwrapOr(0)
    case None => 0
  }

  function MintCap(info: RuneInfo): nat {
    if info.terms.Some? then info.terms.value.cap.UnwrapOr(0) else 0
  }

  function MintYield(info: RuneInfo): nat {
    if info.terms.Some? then info.terms.value.amount.UnwrapOr(0) else 0
  }

  /** The rune tables before position `(h, i)`: entries only for earlier etchings, mint counts within
      the cap, supplies within a u128, and names and ids naming each other. */
  ghost predicate RuneTables(cfg: RunesConfig, kv: Kv, h: nat, i: nat) {
    && (forall id | RuneInfoKey(id) in kv :: kv[RuneInfoKey(id)].RuneInfoV? && Before(id, h, i))
    && (forall id | RuneInfoKey(id) in kv ::
          var info := kv[RuneInfoKey(id)].rune;
          && MaxSupply(info) <= U128_MAX
          && NumAt(kv, RuneMintsKey(id)) <= MintCap(info)
          && info.etchingHeight == id.block
          && (info.name >= cfg.reservedFrom ==> info.name == cfg.reservedName(id.block, id.tx))
          && Lookup(kv, RuneNameKey(info.name)) == Some(RuneIdV(id)))
    && (forall id | RuneMintsKey(id) in kv :: RuneInfoKey(id) in kv)
    && (forall n | RuneNameKey(n) in kv ::
          && kv[RuneNameKey(n)].RuneIdV?
          && InfoAt(kv, kv[RuneNameKey(n)].id).Some?
          && InfoAt(kv, kv[RuneNameKey(n)].id).value.name == n)
  }

  /** All that the tables say was ever issued of a rune: its premine and its counted mints. */
  function Issued(kv: Kv, id: RuneId): nat {
    match InfoAt(kv, id)
    case Some(info) => info.premine + NumAt(kv, RuneMintsKey(id)) * MintYield(info)
    case None => 0
  }

  lemma {:induction false} SpendRuneKeysFrame(kv: Kv, tx: Tx, ins: seq<Utxo>, k: nat)
    requires k <= |ins| <= |tx.inputs|
    ensures forall key: Key | !key.RuneUtxoKey? :: Lookup(SpendRuneKeys(kv, tx, ins, k), key) == Lookup(kv, key)
  {
    if k > 0 {
      SpendRuneKeysFrame(kv, tx, ins, k - 1);
    }
  }

  lemma {:induction false} RecordOutputsFrame(kv: Kv, tx: Tx, h: nat, alloc: seq<Balances>, k: nat)
    requires k <= |tx.outputs| == |alloc|
    ensures forall key: Key | !key.RuneUtxoKey? :: Lookup(RecordOutputs(kv, tx, h, alloc, k), key) == Lookup(kv, key)
  {
    if k > 0 {
      RecordOutputsFrame(kv, tx, h, alloc, k - 1);
    }
  }

  /** Two stores with the same rune tables. */
  ghost predicate SameRuneTables(a: Kv, b: Kv) {
    forall k: Key | k.RuneInfoKey? || k.RuneNameKey? || k.RuneMintsKey? :: Lookup(a, k) == Lookup(b, k)
  }

  lemma RuneTablesFrame(cfg: RunesConfig, a: Kv, b: Kv, h: nat, i: nat)
    requires RuneTables(cfg, a, h, i) && SameRuneTables(a, b)
    ensures RuneTables(cfg, b, h, i)
    ensures forall id :: Issued(b, id) == Issued(a, id)
  {
    forall id
      ensures InfoAt(b, id) == InfoAt(a, id) && NumAt(b, RuneMintsKey(id)) == NumAt(a, RuneMintsKey(id))
      ensures RuneInfoKey(id) in a <==> RuneInfoKey(id) in b
      ensures RuneMintsKey(id) in a <==> RuneMintsKey(id) in b
    {
      assert Lookup(a, RuneInfoKey(id)) == Lookup(b, RuneInfoKey(id));
      assert Lookup(a, RuneMintsKey(id)) == Lookup(b, RuneMintsKey(id));
    }
    forall id | RuneInfoKey(id) in b
      ensures b[RuneInfoKey(id)] == a[RuneInfoKey(id)]
    {
      assert Lookup(a, RuneInfoKey(id)) == Lookup(b, RuneInfoKey(id));
    }
    forall n | RuneNameKey(n) in b
      ensures RuneNameKey(n) in a && b[RuneNameKey(n)] == a[RuneNameKey(n)]
    {
      assert Lookup(a, RuneNameKey(n)) == Lookup(b, RuneNameKey(n));
    }
    forall id | RuneInfoKey(id) in b
      ensures Lookup(b, RuneNameKey(b[RuneInfoKey(id)].rune.name)) == Some(RuneIdV(id))
    {
      assert Lookup(a, RuneNameKey(a[RuneInfoKey(id)].rune.name)) == Some(RuneIdV(id));
    }
  }

  lemma GatherMintTables(cfg: RunesConfig, kv: Kv, un: Balances, a: Artifact, h: nat, i: nat, id: RuneId)
    requires RuneTables(cfg, kv, h, i)
    ensures var r := GatherMint(kv, un, a, h);
            && RuneTables(cfg, r.0, h, i)
            && Get(r.1, id) + Issued(kv, id) == Get(un, id) + Issued(r.0, id)
  {
    if a.mint.Some? && MintAmount(kv, a.mint.value, h).Some? {
      var m := a.mint.value;
      var kv' := CountMint(kv, m);
      var info := InfoAt(kv, m).value;
      assert forall x :: InfoAt(kv', x) == InfoAt(kv, x);
      assert (NumAt(kv, RuneMintsKey(m)) + 1) * MintYield(info)
          == NumAt(kv, RuneMintsKey(m)) * MintYield(info) + MintYield(info);
    }
  }

  lemma CreateEntryTables(cfg: RunesConfig, kv: Kv, a: Artifact, e: Etched, tx: Tx, h: nat, i: nat)
    requires RuneTables(cfg, kv, h, i)
    requires e.id == RuneId(h, i) && RuneNameKey(e.name) !in kv
    requires e.name >= cfg.reservedFrom ==> e.name == cfg.reservedName(h, i)
    requires tx.artifact == Some(a)
    ensures var kv' := CreateEntry(kv, a, e, tx.id, h);
            && RuneTables(cfg, kv', h, i + 1)
            && Issued(kv, e.id) == 0
            && Issued(kv', e.id) == Premine(a)
            && forall x | x != e.id :: Issued(kv', x) == Issued(kv, x)
  {
    var kv' := CreateEntry(kv, a, e, tx.id, h);
    assert RuneInfoKey(e.id) !in kv && RuneMintsKey(e.id) !in kv;
    assert forall x | x != e.id :: InfoAt(kv', x) == InfoAt(kv, x);
    assert MaxSupply(InfoOf(a, e.name, h, tx.id)) <= U128_MAX;
  }

  lemma EtchedByIsNew(
    cfg: RunesConfig, kv: Kv, tx: Tx, ins: seq<Utxo>, a: Artifact, h: nat, i: nat)
    requires |ins| <= |tx.inputs|
    requires ReservedNames(cfg) && RuneTables(cfg, kv, h, i)
    requires EtchedBy(cfg, kv, tx, ins, a, h, i).Some?
    ensures var e := EtchedBy(cfg, kv, tx, ins, a, h, i).value;
            && e.id == RuneId(h, i) && RuneNameKey(e.name) !in kv
            && (e.name >= cfg.reservedFrom ==> e.name == cfg.reservedName(h, i))
  {
    var e := EtchedBy(cfg, kv, tx, ins, a, h, i).value;
    if RuneNameKey(e.name) in kv {
      assert false;
    }
  }

  lemma EtchTables(
    cfg: RunesConfig, kv: Kv, tx: Tx, ins: seq<Utxo>, a: Artifact, h: nat, i: nat, un: Balances, id: RuneId)
    requires |ins| <= |tx.inputs|
    requires ReservedNames(cfg) && RuneTables(cfg, kv, h, i) && tx.artifact == Some(a)
    requires EtchedBy(cfg, kv, tx, ins, a, h, i).Some?
    ensures var e := EtchedBy(cfg, kv, tx, ins, a, h, i).value;
            var kv' := CreateEntry(kv, a, e, tx.id, h);
            var un' := if a.Runestone? then Credit(un, e.id, Premine(a)) else un;
            && RuneTables(cfg, kv', h, i + 1)
            && Get(un', id) + Issued(kv, id) == Get(un, id) + Issued(kv', id)
  {
    var e := EtchedBy(cfg, kv, tx, ins, a, h, i).value;
    EtchedByIsNew(cfg, kv, tx, ins, a, h, i);
    CreateEntryTables(cfg, kv, a, e, tx, h, i);
  }

  /** Gathering balances its books: what a transaction has to give out beyond its inputs is exactly
      what the rune tables say was newly issued, and the tables stay well formed. */
  lemma GatherConserves(cfg: RunesConfig, kv: Kv, tx: Tx, ins: seq<Utxo>, h: nat, i: nat, id: RuneId)
    requires |ins| <= |tx.inputs|
    requires ReservedNames(cfg) && RuneTables(cfg, kv, h, i)
    ensures RuneTables(cfg, Gather(cfg, kv, tx, ins, h, i).kv, h, i + 1)
    ensures Get(Gather(cfg, kv, tx, ins, h, i).un, id) + Issued(kv, id)
         == InSum(ins, |ins|, id) + Issued(Gather(cfg, kv, tx, ins, h, i).kv, id)
  {
    var kv1 := SpendRuneKeys(kv, tx, ins, |ins|);
    var un1 := Unallocated(ins, |ins|);
    assert RuneTables(cfg, kv1, h, i) && Issued(kv1, id) == Issued(kv, id) by {
      SpendRuneKeysFrame(kv, tx, ins, |ins|);
      RuneTablesFrame(cfg, kv, kv1, h, i);
    }
    assert Get(un1, id) == InSum(ins, |ins|, id) by { UnallocatedSum(ins, |ins|, id); }
    match tx.artifact {
      case None => Later(cfg, kv1, h, i);
      case Some(a) =>
        GatherMintTables(cfg, kv1, un1, a, h, i, id);
        var (kv2, un2) := GatherMint(kv1, un1, a, h);
        match EtchedBy(cfg, kv2, tx, ins, a, h, i) {
          case None => Later(cfg, kv2, h, i);
          case Some(e) => EtchTables(cfg, kv2, tx, ins, a, h, i, un2, id);
        }
    }
  }

  lemma Later(cfg: RunesConfig, kv: Kv, h: nat, i: nat)
    requires RuneTables(cfg, kv, h, i)
    ensures RuneTables(cfg, kv, h, i + 1)
    ensures RuneTables(cfg, kv, h + 1, 0)
  {
  }
}
