/** The rune rules for one transaction, as functions on values: what `RunesIndexer::process_tx`
    computes from the resolved inputs, the stored rune tables and the deciphered artifact. */
module RunesSpec {
  import opened Wrappers
  import opened Types

  /** The indexer's settings, with the facts the rune library supplies: the shortest name allowed
      at a height, where reserved names start, and the reserved name of an etching position. */
  datatype RunesConfig = RunesConfig(
    startHeight: nat,
    commitConfirmations: nat,
    minimum: nat -> nat,
    reservedFrom: nat,
    reservedName: (nat, nat) -> nat)

  // --- balances

  function Get(m: Balances, id: RuneId): nat {
    if id in m then m[id] else 0
  }

  function Credit(m: Balances, id: RuneId, amount: nat): Balances {
    m[id := Get(m, id) + amount]
  }

  function Sum(a: Balances, b: Balances): Balances {
    map id | id in a.Keys + b.Keys :: Get(a, id) + Get(b, id)
  }

  /** Add the entries of `b` that are not zero. */
  function AddPositive(a: Balances, b: Balances): Balances {
    map id | id in a.Keys + (set id | id in b && b[id] > 0) :: Get(a, id) + Get(b, id)
  }

  ghost predicate NoZeros(m: Balances) {
    forall id | id in m :: m[id] > 0
  }

  function Total(alloc: seq<Balances>, id: RuneId): nat {
    if alloc == [] then 0 else Total(alloc[..|alloc| - 1], id) + Get(alloc[|alloc| - 1], id)
  }

  function Empties(n: nat): seq<Balances> {
    seq(n, _ => map[])
  }

  // --- inputs, mint and etching

  function Unallocated(ins: seq<Utxo>, k: nat): Balances
    requires k <= |ins|
  {
    if k == 0 then map[] else Sum(Unallocated(ins, k - 1), ins[k - 1].runes)
  }

  function SpendRuneKeys(kv: Kv, tx: Tx, ins: seq<Utxo>, k: nat): Kv
    requires k <= |ins| <= |tx.inputs|
  {
    if k == 0 then kv else
    var kv' := SpendRuneKeys(kv, tx, ins, k - 1);
    var u := ins[k - 1];
    if u.runes == map[] then kv' else kv' - {RuneUtxoKey(u.script, u.height, tx.inputs[k - 1].prev)}
  }

  function InfoAt(kv: Kv, id: RuneId): Option<RuneInfo> {
    var k := RuneInfoKey(id);
    if k in kv && kv[k].RuneInfoV? then Some(kv[k].rune) else None
  }

  predicate InWindow(t: RuneTerms, h: nat) {
    && (t.start.Some? ==> t.start.value <= h)
    && (t.end.Some? ==> h < t.end.value)
  }

  /** The amount one mint yields, if the rune can be minted at this height. */
  function MintAmount(kv: Kv, id: RuneId, h: nat): Option<nat> {
    match InfoAt(kv, id)
    case Some(RuneInfo(_, Some(t), _, _, _, _, _, _)) =>
      if InWindow(t, h) && NumAt(kv, RuneMintsKey(id)) < t.cap.UnwrapOr(0)
      then Some(t.amount.UnwrapOr(0)) else None
    case _ => None
  }

  function CountMint(kv: Kv, id: RuneId): Kv {
    kv[RuneMintsKey(id) := NumV(NumAt(kv, RuneMintsKey(id)) + 1)]
  }

  predicate Commits(cfg: RunesConfig, tx: Tx, ins: seq<Utxo>, rune: nat, h: nat)
    requires |ins| <= |tx.inputs|
  {
    exists j | 0 <= j < |ins| ::
      && rune in tx.inputs[j].pushes
      && IsP2tr(ins[j].script)
      && h - ins[j].height + 1 >= cfg.commitConfirmations
  }

  /** The rune name an etching asks for: nothing, a reserved name, or a chosen one. */
  function Requested(a: Artifact): Option<Option<nat>> {
    match a
    case Runestone(_, Some(e), _, _) => Some(e.rune)
    case Cenotaph(Some(n), _) => Some(Some(n))
    case _ => None
  }

  datatype Etched = Etched(id: RuneId, name: nat)

  function EtchedBy(cfg: RunesConfig, kv: Kv, tx: Tx, ins: seq<Utxo>, a: Artifact, h: nat, i: nat): Option<Etched>
    requires |ins| <= |tx.inputs|
  {
    match Requested(a)
    case None => None
    case Some(None) => Some(Etched(RuneId(h, i), cfg.reservedName(h, i)))
    case Some(Some(name)) =>
      if name < cfg.minimum(h) || name >= cfg.reservedFrom || RuneNameKey(name) in kv
         || !Commits(cfg, tx, ins, name, h)
      then None else Some(Etched(RuneId(h, i), name))
  }

  function Premine(a: Artifact): nat {
    match a
    case Runestone(_, Some(e), _, _) => e.premine.UnwrapOr(0)
    case _ => 0
  }

  /** The later of two optional starts. */
  function LaterOf(a: Option<nat>, b: Option<nat>): Option<nat> {
    if a.Some? && b.Some? then Some(Max(a.value, b.value)) else if a.Some? then a else b
  }

  /** The earlier of two optional ends. */
  function EarlierOf(a: Option<nat>, b: Option<nat>): Option<nat> {
    if a.Some? && b.Some? then Some(Min(a.value, b.value)) else if a.Some? then a else b
  }

  function Relative(h: nat, offset: Option<nat>): Option<nat> {
    if offset.Some? then Some(Min(h + offset.value, U64_MAX)) else None
  }

  function TermsFrom(t: Terms, h: nat): RuneTerms {
    RuneTerms(t.amount, t.cap,
      LaterOf(Relative(h, t.offsetStart), t.heightStart),
      EarlierOf(Relative(h, t.offsetEnd), t.heightEnd))
  }

  /** The entry of a new rune: what its runestone says, with the mint window fixed to heights, or
      nothing but the name for a cenotaph. */
  function InfoOf(a: Artifact, name: nat, h: nat, txid: Hash): RuneInfo {
    match a
    case Runestone(_, Some(e), _, _) =>
      RuneInfo(name, if e.terms.Some? then Some(TermsFrom(e.terms.value, h)) else None,
               e.symbol, e.divisibility.UnwrapOr(0), h, txid, e.premine.UnwrapOr(0), e.spacers.UnwrapOr(0))
    case _ => RuneInfo(name, None, None, 0, h, txid, 0, 0)
  }

  function CreateEntry(kv: Kv, a: Artifact, e: Etched, txid: Hash, h: nat): Kv {
    kv[RuneNameKey(e.name) := RuneIdV(e.id)][RuneInfoKey(e.id) := RuneInfoV(InfoOf(a, e.name, h, txid))]
  }

  /** What a transaction has to give out, and the tables once inputs, mint and etching are recorded. */
  datatype Gathered = Gathered(kv: Kv, un: Balances, etched: Option<Etched>)

  function GatherMint(kv: Kv, un: Balances, a: Artifact, h: nat): (Kv, Balances) {
    if a.mint.Some? && MintAmount(kv, a.mint.value, h).Some? then
      (CountMint(kv, a.mint.value), Credit(un, a.mint.value, MintAmount(kv, a.mint.value, h).value))
    else (kv, un)
  }

  function Gather(cfg: RunesConfig, kv: Kv, tx: Tx, ins: seq<Utxo>, h: nat, i: nat): Gathered
    requires |ins| <= |tx.inputs|
  {
    var kv1 := SpendRuneKeys(kv, tx, ins, |ins|);
    var un1 := Unallocated(ins, |ins|);
    match tx.artifact
    case None => Gathered(kv1, un1, None)
    case Some(a) =>
      var (kv2, un2) := GatherMint(kv1, un1, a, h);
      match EtchedBy(cfg, kv2, tx, ins, a, h, i)
      case None => Gathered(kv2, un2, None)
      case Some(e) =>
        var un3 := if a.Runestone? then Credit(un2, e.id, Premine(a)) else un2;
        Gathered(CreateEntry(kv2, a, e, tx.id, h), un3, Some(e))
  }

  // --- edicts

  /** Balances still held by the transaction, and what each output has been given. */
  datatype Split = Split(un: Balances, alloc: seq<Balances>)

  function Allocate(b: Split, id: RuneId, amount: nat, output: nat): Split
    requires output < |b.alloc| && amount <= Get(b.un, id)
  {
    if amount == 0 then b
    else Split(b.un[id := b.un[id] - amount], b.alloc[output := Credit(b.alloc[output], id, amount)])
  }

  /** The outputs that are not OP_RETURN, in order, among the first `k`. */
  function Destinations(outputs: seq<Output>, k: nat): (r: seq<nat>)
    requires k <= |outputs|
    ensures forall i | 0 <= i < |r| :: r[i] < k && !IsOpReturn(outputs[r[i]].script)
    ensures forall o | 0 <= o < k && !IsOpReturn(outputs[o].script) :: o in r
    ensures forall i, j | 0 <= i < j < |r| :: r[i] < r[j]
  {
    if k == 0 then []
    else if IsOpReturn(outputs[k - 1].script) then Destinations(outputs, k - 1)
    else Destinations(outputs, k - 1) + [k - 1]
  }

  ghost predicate Fits(b: Split, dests: seq<nat>) {
    forall i | 0 <= i < |dests| :: dests[i] < |b.alloc|
  }

  /** The i-th part of `balance` split over n: the first `balance % n` parts are one larger. */
  function Share(balance: nat, n: nat, i: nat): nat
    requires n > 0
  {
    balance / n + if i < balance % n then 1 else 0
  }

  lemma ShareFits(balance: nat, n: nat, i: nat)
    requires i < n
    ensures balance == n * (balance / n) + balance % n
    ensures i * (balance / n) + Min(i, balance % n) + Share(balance, n, i) <= balance
    ensures i * (balance / n) + Min(i, balance % n) + Share(balance, n, i)
         == (i + 1) * (balance / n) + Min(i + 1, balance % n)
  {
    var q := balance / n;
    MulMonotone(i + 1, n, q);
    assert (i + 1) * q == i * q + q;
  }

  lemma MulMonotone(a: nat, b: nat, c: nat)
    requires a <= b
    ensures a * c <= b * c
  {
  }

  /** Give the first `k` destinations their share of what the balance was before the first one. */
  function EvenShares(b: Split, id: RuneId, dests: seq<nat>, k: nat): (r: Split)
    requires k <= |dests| && Fits(b, dests) && id in b.un
    ensures |r.alloc| == |b.alloc| && r.un.Keys == b.un.Keys
    ensures k > 0 ==> r.un[id] == b.un[id] - (k * (b.un[id] / |dests|) + Min(k, b.un[id] % |dests|))
    ensures k == 0 ==> r == b
  {
    if k == 0 then b else
    var r := EvenShares(b, id, dests, k - 1);
    ShareFits(b.un[id], |dests|, k - 1);
    Allocate(r, id, Share(b.un[id], |dests|, k - 1), dests[k - 1])
  }

  /** Give each of the first `k` destinations the amount, or what is left if that is less. */
  function CappedShares(b: Split, id: RuneId, amount: nat, dests: seq<nat>, k: nat): (r: Split)
    requires k <= |dests| && Fits(b, dests) && id in b.un
    ensures |r.alloc| == |b.alloc| && r.un.Keys == b.un.Keys
  {
    if k == 0 then b else
    var r := CappedShares(b, id, amount, dests, k - 1);
    Allocate(r, id, Min(amount, r.un[id]), dests[k - 1])
  }

  /** The rune an edict speaks of: the default id stands for the rune etched here, if any. */
  function EdictRune(e: Edict, etched: Option<Etched>): Option<RuneId> {
    if e.id != DEFAULT_RUNE_ID then Some(e.id)
    else if etched.Some? then Some(etched.value.id) else None
  }

  function EdictStep(tx: Tx, etched: Option<Etched>, e: Edict, b: Split): (r: Split)
    requires |b.alloc| == |tx.outputs| && e.output <= |tx.outputs|
    ensures |r.alloc| == |b.alloc|
  {
    var rune := EdictRune(e, etched);
    if rune.None? || rune.value !in b.un then b else
    var id := rune.value;
    if e.output == |tx.outputs| then
      var dests := Destinations(tx.outputs, |tx.outputs|);
      if e.amount == 0 then EvenShares(b, id, dests, |dests|)
      else CappedShares(b, id, e.amount, dests, |dests|)
    else
      Allocate(b, id, if e.amount == 0 then b.un[id] else Min(e.amount, b.un[id]), e.output)
  }

  function EdictsOf(tx: Tx): (r: seq<Edict>)
    ensures EdictsInBounds(r, |tx.outputs|)
  {
    match tx.artifact
    case Some(Runestone(edicts, _, _, _)) => edicts
    case _ => []
  }

  function RunEdicts(tx: Tx, etched: Option<Etched>, edicts: seq<Edict>, b: Split, k: nat): (r: Split)
    requires k <= |edicts| && EdictsInBounds(edicts, |tx.outputs|) && |b.alloc| == |tx.outputs|
    ensures |r.alloc| == |b.alloc|
  {
    if k == 0 then b else EdictStep(tx, etched, edicts[k - 1], RunEdicts(tx, etched, edicts, b, k - 1))
  }

  // --- leftovers

  /** Where the leftovers go: the default output if the runestone names one, else the first output that
      is not OP_RETURN. A cenotaph burns them. */
  function DefaultOutput(tx: Tx): (r: Option<nat>)
    ensures r.Some? ==> r.value < |tx.outputs|
  {
    if tx.artifact.Some? && tx.artifact.value.Cenotaph? then None
    else if tx.artifact.Some? && tx.artifact.value.pointer.Some? then tx.artifact.value.pointer
    else
      var dests := Destinations(tx.outputs, |tx.outputs|);
      if dests == [] then None else Some(dests[0])
  }

  /** What each output ends up with, and what no output was given. */
  datatype Allocation = Allocation(outputs: seq<Balances>, burned: Balances)

  function Allocated(tx: Tx, g: Gathered): (r: Allocation)
    ensures |r.outputs| == |tx.outputs|
  {
    var b0 := Split(g.un, Empties(|tx.outputs|));
    var b := RunEdicts(tx, g.etched, EdictsOf(tx), b0, |EdictsOf(tx)|);
    match DefaultOutput(tx)
    case Some(v) => Allocation(b.alloc[v := AddPositive(b.alloc[v], b.un)], map[])
    case None => Allocation(b.alloc, b.un)
  }

  /** Enter the first `k` outputs that carry runes into the by-script table. */
  function RecordOutputs(kv: Kv, tx: Tx, h: nat, alloc: seq<Balances>, k: nat): Kv
    requires k <= |tx.outputs| == |alloc|
  {
    if k == 0 then kv else
    var kv' := RecordOutputs(kv, tx, h, alloc, k - 1);
    if alloc[k - 1] == map[] then kv'
    else kv'[RuneUtxoKey(tx.outputs[k - 1].script, h, TxoRef(tx.id, k - 1)) := UnitV]
  }

  datatype RunesResult = RunesResult(kv: Kv, alloc: Allocation)

  function RunesTx(cfg: RunesConfig, kv: Kv, tx: Tx, ins: seq<Utxo>, h: nat, i: nat): (r: RunesResult)
    requires |ins| <= |tx.inputs|
    ensures |r.alloc.outputs| == |tx.outputs|
  {
    var g := Gather(cfg, kv, tx, ins, h, i);
    var a := Allocated(tx, g);
    RunesResult(RecordOutputs(g.kv, tx, h, a.outputs, |tx.outputs|), a)
  }
}
