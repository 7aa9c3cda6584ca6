/** The option type used wherever the source returns an `Option`. */
module Wrappers {
  datatype Option<+T> = None | Some(value: T) {
    function UnwrapOr(default: T): T {
      match this
      case Some(v) => v
      case None => default
    }
  }

  /** The entries of a map under some keys. */
  function Restrict<K, V>(m: map<K, V>, keys: set<K>): map<K, V> {
    map k | k in m && k in keys :: m[k]
  }

  lemma RestrictAll<K, V>(m: map<K, V>)
    ensures Restrict(m, {}) == map[]
    ensures Restrict(m, m.Keys) == m
  {
  }
}

/** Chain data, the typed key space of the store and the events the index stage receives. */
module Types {
  import opened Wrappers

  type byte = x: int | 0 <= x < 256
  type Hash = seq<byte>
  type Script = seq<byte>

  const U64_MAX: nat := 0xFFFF_FFFF_FFFF_FFFF
  const U128_MAX: nat := 0xFFFF_FFFF_FFFF_FFFF_FFFF_FFFF_FFFF_FFFF

  function Min(a: int, b: int): int { if a <= b then a else b }

  function Max(a: int, b: int): int { if a <= b then b else a }

  // --- transactions and blocks

  datatype TxoRef = TxoRef(txid: Hash, vout: nat)

  /** The all-zero transaction id of a coinbase input. */
  const NULL_TXID: Hash :=
    [0, 0, 0, 0, 0, 0, 0, 0, 0, 0, 0, 0, 0, 0, 0, 0, 0, 0, 0, 0, 0, 0, 0, 0, 0, 0, 0, 0, 0, 0, 0, 0]

  const NULL_REF: TxoRef := TxoRef(NULL_TXID, 0xFFFF_FFFF)

  datatype RuneId = RuneId(block: nat, tx: nat)

  const DEFAULT_RUNE_ID: RuneId := RuneId(0, 0)

  /** `pushes` are the rune names whose commitments the input's tapscript pushes. */
  datatype Input = Input(prev: TxoRef, pushes: seq<nat>)

  datatype Output = Output(satoshis: nat, script: Script)

  datatype Edict = Edict(id: RuneId, amount: nat, output: nat)

  datatype Terms = Terms(
    amount: Option<nat>, cap: Option<nat>,
    heightStart: Option<nat>, heightEnd: Option<nat>,
    offsetStart: Option<nat>, offsetEnd: Option<nat>)

  datatype Etching = Etching(
    rune: Option<nat>, premine: Option<nat>, terms: Option<Terms>,
    symbol: Option<nat>, divisibility: Option<nat>, spacers: Option<nat>)

  /** What `Runestone::decipher` makes of a transaction. */
  datatype Artifact =
    | Runestone(edicts: seq<Edict>, etching: Option<Etching>, mint: Option<RuneId>, pointer: Option<nat>)
    | Cenotaph(name: Option<nat>, mint: Option<RuneId>)

  datatype TxData = TxData(id: Hash, inputs: seq<Input>, outputs: seq<Output>, artifact: Option<Artifact>)

  function Supply(e: Etching): nat {
    e.premine.UnwrapOr(0) +
    match e.terms
    case Some(t) => t.cap.UnwrapOr(0) * t.amount.UnwrapOr(0)
    case None => 0
  }

  /** The documented guarantees of the rune parser: edicts name an output or the output count,
      a default output is one of the outputs, and the whole supply of an etching fits a u128. */
  predicate DecipherBounds(tx: TxData) {
    match tx.artifact
    case Some(Runestone(edicts, etching, _, pointer)) =>
      && EdictsInBounds(edicts, |tx.outputs|)
      && (pointer.Some? ==> pointer.value < |tx.outputs|)
      && (etching.Some? ==> Supply(etching.value) <= U128_MAX)
    case _ => true
  }

  predicate EdictsInBounds(edicts: seq<Edict>, outputs: nat) {
    forall i | 0 <= i < |edicts| :: edicts[i].output <= outputs
  }

  type Tx = tx: TxData | DecipherBounds(tx) witness TxData([], [], [], None)

  datatype Block = Block(hash: Hash, prev: Hash, txs: seq<Tx>)

  datatype Point = Point(height: nat, hash: Hash)

  predicate IsOpReturn(script: Script) {
    |script| > 0 && script[0] == 0x6a
  }

  predicate IsP2tr(script: Script) {
    |script| == 34 && script[0] == 0x51 && script[1] == 0x20
  }

  predicate IsCoinbase(tx: Tx) {
    |tx.inputs| == 1 && tx.inputs[0].prev == NULL_REF
  }

  // --- store contents

  type Balances = map<RuneId, nat>

  /** `runes` is the rune entry of the source's extended data; the empty map means no such entry. */
  datatype Utxo = Utxo(satoshis: nat, script: Script, height: nat, runes: Balances)

  datatype RuneTerms = RuneTerms(amount: Option<nat>, cap: Option<nat>, start: Option<nat>, end: Option<nat>)

  datatype RuneInfo = RuneInfo(
    name: nat, terms: Option<RuneTerms>, symbol: Option<nat>, divisibility: nat,
    etchingHeight: nat, etchingTx: Hash, premine: nat, spacers: nat)

  datatype IndexerInfo = IndexerInfo(height: nat, hash: Hash, mempool: bool)

  datatype PointKind = Confirmed | Mempool

  datatype TimestampEntry = TimestampEntry(tipHeight: nat, tipHash: Hash, ts: nat, mempoolTime: Option<nat>)

  datatype Key =
    | UtxoKey(r: TxoRef)
    | AddressKey(script: Script, height: nat, r: TxoRef)
    | CountKey(script: Script)
    | RuneInfoKey(id: RuneId)
    | RuneNameKey(name: nat)
    | RuneMintsKey(id: RuneId)
    | RuneUtxoKey(script: Script, height: nat, r: TxoRef)
    | HashKey(height: nat)
    | InfoKey
    | TimestampKey(kind: PointKind)
    | JournalKey(height: nat, hash: Hash, key: Key)

  datatype Value =
    | UtxoV(utxo: Utxo)
    | UnitV
    | NumV(n: nat)
    | RuneInfoV(rune: RuneInfo)
    | RuneIdV(id: RuneId)
    | HashV(hash: Hash)
    | InfoV(info: IndexerInfo)
    | TimestampV(entry: TimestampEntry)
    | PreviousV(previous: Option<Value>)

  type Kv = map<Key, Value>

  function Lookup(kv: Kv, k: Key): Option<Value> {
    if k in kv then Some(kv[k]) else None
  }

  /** The counter stored under a key, a missing or foreign entry counting as zero. */
  function NumAt(kv: Kv, k: Key): nat {
    if k in kv && kv[k].NumV? then kv[k].n else 0
  }

  /** The journal and the timestamps are written beside the indexed data and are not journaled. */
  predicate IsData(k: Key) {
    !k.JournalKey? && !k.TimestampKey?
  }

  // --- events

  datatype Event =
    | RollForward(point: Point, block: Block, tip: Point)
    | RollBack(to: Point)
    | MempoolBlocks(time: nat, tipHash: Hash, blocks: seq<seq<Tx>>)

  datatype Outcome = Done | Skipped | Panic
}
