/** The two balance queries over a snapshot: scans of a script's rune entries, folded into amounts. */
module BalanceQueries {
  import opened Wrappers
  import opened Types
  import opened RunesSpec
  import opened RunesProofs
  import opened Ledger
  import opened LedgerProofs
  import opened Supply
  import opened Task
  import opened Refinement
  import opened Heights
  import RunesIndexer

  datatype Served<T> = Served(value: T) | NotFound | Internal

  datatype RuneIdentifier = ById(id: RuneId) | ByName(name: nat)

  function OfScript(m: Utxos, script: Script): Utxos {
    map r | r in m && m[r].script == script :: m[r]
  }

  /** What the live outputs of a script hold of a rune. */
  ghost function HeldBy(m: Utxos, script: Script, id: RuneId): nat {
    Held(OfScript(m, script), id)
  }

  // --- what a snapshot promises the scans

  ghost predicate RunesListed(d: Kv, m: Utxos, script: Script) {
    forall h, r :: RuneUtxoKey(script, h, r) in d <==> Holds(m, script, h, r) && m[r].runes != map[]
  }

  /** A snapshot's rune entries of the script are its live outputs with runes, below the greatest height;
      every output can be read; no amount overflows; and every rune held is known. */
  ghost predicate Listed(d: Kv, m: Utxos, script: Script) {
    && RunesListed(d, m, script)
    && (forall r | r in m :: Lookup(d, UtxoKey(r)) == Some(UtxoV(m[r])))
    && (forall r | r in m :: m[r].height < U64_MAX && NoZeros(m[r].runes))
    && (forall id :: Held(m, id) <= U128_MAX)
    && (forall id | Held(m, id) > 0 :: InfoAt(d, id).Some?)
  }

  lemma {:induction false} HeldWithin(m: Utxos, sub: Utxos, id: RuneId)
    requires forall r | r in sub :: r in m && m[r] == sub[r]
    ensures Held(sub, id) <= Held(m, id)
    decreases |sub|
  {
    if sub != map[] {
      var r :| r in sub;
      HeldRemove(sub, r, id);
      HeldRemove(m, r, id);
      assert |sub - {r}| < |sub| by {
        assert (sub - {r}).Keys == sub.Keys - {r};
      }
      HeldWithin(m - {r}, sub - {r}, id);
    }
  }

  lemma SnapshotListed(cfg: Config, d: Kv, chain: seq<Block>, pending: Pending, script: Script)
    requires Premises(cfg) && cfg.runes.Some? && ValidIndex(cfg, chain, pending) && |chain| < U64_MAX
    requires Shows(d, Indexed(cfg, chain, pending)) && !IsOpReturn(script)
    ensures Listed(d, Indexed(cfg, chain, pending).utxos, script)
  {
    hide Replay, Indexed, ValidChain, ValidPendingAt, Held, IndexedHistory, RuneTables;
    var s := Indexed(cfg, chain, pending);
    InvIndexed(cfg, chain, pending);
    IndexedCreated(cfg, chain, pending);
    forall h, r
      ensures RuneUtxoKey(script, h, r) in d <==> Holds(s.utxos, script, h, r) && s.utxos[r].runes != map[]
    {
      TablesAt(d, RuneUtxoKey(script, h, r));
    }
    forall id
      ensures Held(s.utxos, id) <= U128_MAX && (Held(s.utxos, id) > 0 ==> InfoAt(d, id).Some?)
    {
      TablesAt(d, RuneInfoKey(id));
      RuneSupply(cfg, chain, pending, id);
    }
  }

  lemma SnapshotInfos(d: Kv, s: State)
    requires Shows(d, s)
    ensures forall id :: InfoAt(d, id) == InfoAt(s.kv, id)
  {
    forall id
      ensures InfoAt(d, id) == InfoAt(s.kv, id)
    {
      TablesAt(d, RuneInfoKey(id));
    }
  }

  lemma SnapshotNames(cfg: Config, d: Kv, chain: seq<Block>, pending: Pending)
    requires Premises(cfg) && cfg.runes.Some? && ValidIndex(cfg, chain, pending)
    requires Shows(d, Indexed(cfg, chain, pending))
    ensures forall n | RuneNameKey(n) in d :: d[RuneNameKey(n)].RuneIdV?
  {
    hide Replay, Indexed, ValidChain, ValidPendingAt, Held, IndexedHistory;
    InvIndexed(cfg, chain, pending);
    forall n | RuneNameKey(n) in d
      ensures d[RuneNameKey(n)].RuneIdV?
    {
      TablesAt(d, RuneNameKey(n));
    }
  }

  // --- the scans

  /** The entries of a script from height zero up to, not including, the greatest height. */
  function ScriptRange(d: Kv, script: Script): set<Key> {
    set k | k in d && k.RuneUtxoKey? && k.script == script && k.height < U64_MAX
  }

  function Refs(keys: set<Key>): set<TxoRef> {
    set k | k in keys && k.RuneUtxoKey? :: k.r
  }

  function Part(m: Utxos, refs: set<TxoRef>): Utxos {
    map r | r in m && r in refs :: m[r]
  }

  /** One more output in the scanned part. */
  lemma PartStep(m: Utxos, done: set<TxoRef>, r: TxoRef, id: RuneId)
    requires r in m && r !in done
    ensures Held(Part(m, done + {r}), id) == Held(Part(m, done), id) + Get(m[r].runes, id) <= Held(m, id)
  {
    HeldAdd(Part(m, done), r, m[r], id);
    assert Part(m, done + {r}) == Part(m, done)[r := m[r]];
    HeldWithin(m, Part(m, done + {r}), id);
  }

  lemma PartNone(m: Utxos)
    ensures forall id :: Held(Part(m, {}), id) == 0
  {
    assert Part(m, {}) == map[];
  }

  /** Outputs without runes do not matter. */
  lemma {:induction false} HeldRuneless(m: Utxos, sub: Utxos, id: RuneId)
    requires forall r | r in sub :: r in m && m[r] == sub[r]
    requires forall r | r in m && r !in sub :: m[r].runes == map[]
    ensures Held(m, id) == Held(sub, id)
    decreases |m|
  {
    if m == map[] {
      assert sub == map[];
    } else {
      var r :| r in m;
      HeldRemove(m, r, id);
      assert |m - {r}| < |m| by {
        assert (m - {r}).Keys == m.Keys - {r};
      }
      if r in sub {
        HeldRemove(sub, r, id);
        HeldRuneless(m - {r}, sub - {r}, id);
      } else {
        HeldRuneless(m - {r}, sub, id);
      }
    }
  }

  lemma ScanDone(d: Kv, m: Utxos, script: Script, id: RuneId)
    requires Listed(d, m, script)
    ensures Held(Part(m, Refs(ScriptRange(d, script))), id) == HeldBy(m, script, id)
  {
    hide Held;
    var refs := Refs(ScriptRange(d, script));
    forall r | r in m
      ensures r in refs <==> m[r].script == script && m[r].runes != map[]
    {
      var k := RuneUtxoKey(script, m[r].height, r);
      assert k in d <==> Holds(m, script, m[r].height, r) && m[r].runes != map[];
      assert k in ScriptRange(d, script) <==> k in d;
      if r in refs {
        var x :| x in ScriptRange(d, script) && x.r == r;
        assert Holds(m, script, x.height, r);
      }
    }
    HeldRuneless(OfScript(m, script), Part(m, refs), id);
  }

  /** A scanned entry names a live output of the script that was not seen under another entry. */
  lemma ScanEntry(d: Kv, m: Utxos, script: Script, todo: set<Key>, k: Key)
    requires Listed(d, m, script) && k in todo && todo <= ScriptRange(d, script)
    ensures k.r in m && m[k.r].runes != map[] && Lookup(d, UtxoKey(k.r)) == Some(UtxoV(m[k.r]))
    ensures k.r !in Refs(ScriptRange(d, script) - todo)
    ensures Refs(ScriptRange(d, script) - (todo - {k})) == Refs(ScriptRange(d, script) - todo) + {k.r}
  {
    hide Held;
    var all := ScriptRange(d, script);
    assert Holds(m, script, k.height, k.r);
    forall x | x in all && x.r == k.r
      ensures x == k
    {
      assert Holds(m, script, x.height, x.r);
    }
    assert all - (todo - {k}) == (all - todo) + {k};
  }

  /** All rune balances of a script. A rune entry without its output, or an output without runes, would
      be an internal error. */
  method AllRuneBalances(d: Kv, script: Script, includeInfo: bool, ghost m: Utxos)
    returns (r: Served<Balances>, infos: map<RuneId, RuneInfo>)
    requires Listed(d, m, script)
    ensures r.Served?
    ensures forall id :: Get(r.value, id) == HeldBy(m, script, id)
    ensures forall id :: id in r.value <==> HeldBy(m, script, id) > 0
    ensures infos.Keys == if includeInfo then r.value.Keys else {}
    ensures forall id | id in infos :: InfoAt(d, id) == Some(infos[id])
  {
    hide Held, Listed;
    infos := map[];
    var balances: Balances := map[];
    var todo := ScriptRange(d, script);
    PartNone(m);
    ListedFacts(d, m, script);
    assert Refs(ScriptRange(d, script) - todo) == {};
    while todo != {}
      invariant todo <= ScriptRange(d, script)
      invariant forall id :: Get(balances, id) == Held(Part(m, Refs(ScriptRange(d, script) - todo)), id)
      invariant NoZeros(balances)
      decreases todo
    {
      var k :| k in todo;
      ScanEntry(d, m, script, todo, k);
      var utxo := Lookup(d, UtxoKey(k.r));
      if utxo.None? || utxo.value.utxo.runes == map[] {
        return Internal, infos;
      }
      ghost var done := Refs(ScriptRange(d, script) - todo);
      forall id
        ensures Held(Part(m, done + {k.r}), id) == Held(Part(m, done), id) + Get(m[k.r].runes, id) <= U128_MAX
      {
        PartStep(m, done, k.r, id);
      }
      assert forall id :: Get(balances, id) + Get(utxo.value.utxo.runes, id) <= U128_MAX;
      balances := RunesIndexer.AddRunes(balances, utxo.value.utxo.runes);
      todo := todo - {k};
    }
    assert ScriptRange(d, script) - todo == ScriptRange(d, script);
    forall id
      ensures Get(balances, id) == HeldBy(m, script, id) <= Held(m, id)
    {
      ScanDone(d, m, script, id);
      HeldWithin(m, OfScript(m, script), id);
    }
    if includeInfo {
      var ids := balances.Keys;
      while ids != {}
        invariant ids <= balances.Keys
        invariant infos.Keys == balances.Keys - ids
        invariant forall id | id in infos :: InfoAt(d, id) == Some(infos[id])
        decreases ids
      {
        var id :| id in ids;
        if InfoAt(d, id).None? {
          return Internal, infos;
        }
        infos := infos[id := InfoAt(d, id).value];
        ids := ids - {id};
      }
    }
    return Served(balances), infos;
  }

  lemma ListedFacts(d: Kv, m: Utxos, script: Script)
    requires Listed(d, m, script)
    ensures forall r | r in m :: NoZeros(m[r].runes)
    ensures forall id :: Held(m, id) <= U128_MAX
    ensures forall id | Held(m, id) > 0 :: InfoAt(d, id).Some?
  {
  }

  /** The amount of one rune among an output's runes, found by a scan that stops at the first match. */
  method FirstMatch(runes: Balances, id: RuneId) returns (amount: nat)
    ensures amount == Get(runes, id)
  {
    var todo := runes.Keys;
    while todo != {}
      invariant todo <= runes.Keys && (id in runes ==> id in todo)
      decreases todo
    {
      var x :| x in todo;
      if x == id {
        return runes[x];
      }
      todo := todo - {x};
    }
    return 0;
  }

  /** The balance of one rune, named by id or by name. */
  method SpecificRuneBalance(d: Kv, script: Script, rune: RuneIdentifier, ghost m: Utxos) returns (r: Served<nat>)
    requires Listed(d, m, script)
    requires forall n | RuneNameKey(n) in d :: d[RuneNameKey(n)].RuneIdV?
    ensures match rune
            case ById(id) => r == Served(HeldBy(m, script, id))
            case ByName(n) =>
              r == if RuneNameKey(n) in d then Served(HeldBy(m, script, d[RuneNameKey(n)].id)) else NotFound
  {
    hide Held, Listed;
    var id: RuneId;
    match rune {
      case ById(x) => id := x;
      case ByName(n) =>
        if RuneNameKey(n) !in d {
          return NotFound;
        }
        id := d[RuneNameKey(n)].id;
    }
    var balance: nat := 0;
    var todo := ScriptRange(d, script);
    PartNone(m);
    ListedFacts(d, m, script);
    assert Refs(ScriptRange(d, script) - todo) == {};
    while todo != {}
      invariant todo <= ScriptRange(d, script)
      invariant balance == Held(Part(m, Refs(ScriptRange(d, script) - todo)), id)
      decreases todo
    {
      var k :| k in todo;
      ScanEntry(d, m, script, todo, k);
      var utxo := Lookup(d, UtxoKey(k.r));
      if utxo.None? || utxo.value.utxo.runes == map[] {
        return Internal;
      }
      PartStep(m, Refs(ScriptRange(d, script) - todo), k.r, id);
      var quantity := FirstMatch(utxo.value.utxo.runes, id);
      assert balance + quantity <= U128_MAX;
      balance := balance + quantity;
      todo := todo - {k};
    }
    assert ScriptRange(d, script) - todo == ScriptRange(d, script);
    ScanDone(d, m, script, id);
    return Served(balance);
  }
}
