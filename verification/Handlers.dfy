/** The balance requests from end to end: choose a snapshot, then scan it, while commits go on. */
module Handlers {
  import opened Wrappers
  import opened Types
  import opened RunesSpec
  import opened Ledger
  import opened Supply
  import opened Storage
  import opened Refinement
  import opened StageState
  import opened BalanceQueries
  import opened Snapshots

  /** The outputs that were live in what commit `j` left. */
  ghost function LiveAt(cfg: Config, snaps: seq<Snap>, j: nat): Utxos
    requires j < |snaps|
  {
    Indexed(cfg, snaps[j].chain, snaps[j].pending).utxos
  }

  lemma SnapshotFacts(
    cfg: Config, log: Log, snaps: seq<Snap>, later: Log, mempool: bool, s: Snapshot, script: Script) returns (j: nat)
    requires Premises(cfg) && cfg.runes.Some? && !IsOpReturn(script)
    requires Sorted(later) && log <= later && RunOk(cfg, log, snaps)
    requires exists j: nat :: Serves(cfg, log, snaps, j, mempool, s)
    ensures Serves(cfg, log, snaps, j, mempool, s)
    ensures Listed(ReadAt(later, s.readTs), LiveAt(cfg, snaps, j), script)
    ensures var d := ReadAt(later, s.readTs); forall n | RuneNameKey(n) in d :: d[RuneNameKey(n)].RuneIdV?
    ensures forall id ::
      InfoAt(ReadAt(later, s.readTs), id) == InfoAt(Indexed(cfg, snaps[j].chain, snaps[j].pending).kv, id)
  {
    hide RunOk, ReadAt, Listed, Indexed, Shows, InfoAt, ValidChain, ValidPending, Premises, Sorted;
    j :| Serves(cfg, log, snaps, j, mempool, s);
    SnapshotReads(cfg, log, snaps, later, j, mempool, s);
    ShortChain(cfg, snaps[j].chain, snaps[j].pending);
    SnapshotListed(cfg, ReadAt(later, s.readTs), snaps[j].chain, snaps[j].pending, script);
    SnapshotInfos(ReadAt(later, s.readTs), Indexed(cfg, snaps[j].chain, snaps[j].pending));
    SnapshotNames(cfg, ReadAt(later, s.readTs), snaps[j].chain, snaps[j].pending);
  }

  lemma ShortChain(cfg: Config, chain: seq<Block>, pending: Pending)
    requires ValidIndex(cfg, chain, pending)
    ensures |chain| < U64_MAX
  {
  }

  /** The response to an all-balances request is, for one commit's whole data and with that commit's tip,
      what the ledger says the script's live outputs held, and, if asked for, the ledger's entry of every
      rune held; a store without commits gives an error. */
  method AllBalancesRequest(
    cfg: Config, first: Log, second: Log, later: Log, mempool: bool, script: Script, includeInfo: bool,
    ghost snaps: seq<Snap>)
    returns (r: Served<Balances>, infos: map<RuneId, RuneInfo>, snapshot: Option<Snapshot>)
    requires Premises(cfg) && cfg.runes.Some? && !IsOpReturn(script)
    requires first <= second <= later && Sorted(later) && RunOk(cfg, second, snaps)
    ensures snapshot.None? ==> r.Internal? && StampAt(Latest(first), Confirmed).None?
    ensures snapshot.Some? ==> r.Served? && exists j: nat ::
      && Serves(cfg, second, snaps, j, mempool, snapshot.value)
      && (forall id :: Get(r.value, id) == HeldBy(LiveAt(cfg, snaps, j), script, id))
      && infos.Keys == (if includeInfo then r.value.Keys else {})
      && forall id | id in infos :: InfoAt(Indexed(cfg, snaps[j].chain, snaps[j].pending).kv, id) == Some(infos[id])
  {
    hide RunOk, InfoAt, Indexed, ReadAt, Listed, Held, Premises, Sorted, Latest;
    snapshot := StartReader(cfg, first, second, mempool, snaps);
    if snapshot.None? {
      return Internal, map[], None;
    }
    ghost var j := SnapshotFacts(cfg, second, snaps, later, mempool, snapshot.value, script);
    r, infos := AllRuneBalances(ReadAt(later, snapshot.value.readTs), script, includeInfo, LiveAt(cfg, snaps, j));
  }

  /** Likewise for one rune; by name it must be in the name table of the snapshot. */
  method SpecificBalanceRequest(
    cfg: Config, first: Log, second: Log, later: Log, mempool: bool, script: Script, rune: RuneIdentifier,
    ghost snaps: seq<Snap>)
    returns (r: Served<nat>, snapshot: Option<Snapshot>)
    requires Premises(cfg) && cfg.runes.Some? && !IsOpReturn(script)
    requires first <= second <= later && Sorted(later) && RunOk(cfg, second, snaps)
    ensures snapshot.None? ==> r.Internal? && StampAt(Latest(first), Confirmed).None?
    ensures snapshot.Some? ==> exists j: nat ::
      && Serves(cfg, second, snaps, j, mempool, snapshot.value)
      && match rune
         case ById(id) => r == Served(HeldBy(LiveAt(cfg, snaps, j), script, id))
         case ByName(n) =>
           var d := ReadAt(later, snapshot.value.readTs);
           if RuneNameKey(n) in d && d[RuneNameKey(n)].RuneIdV?
           then r == Served(HeldBy(LiveAt(cfg, snaps, j), script, d[RuneNameKey(n)].id))
           else r == NotFound
  {
    hide RunOk, ReadAt, Listed, Held, Premises, Sorted, Latest;
    snapshot := StartReader(cfg, first, second, mempool, snaps);
    if snapshot.None? {
      return Internal, None;
    }
    ghost var j := SnapshotFacts(cfg, second, snaps, later, mempool, snapshot.value, script);
    r := SpecificRuneBalance(ReadAt(later, snapshot.value.readTs), script, rune, LiveAt(cfg, snaps, j));
  }
}
