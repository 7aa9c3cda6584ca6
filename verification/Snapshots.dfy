/** Which snapshot a request reads, while commits go on beside it. */
module Snapshots {
  import opened Wrappers
  import opened Types
  import opened Ledger
  import opened Storage
  import opened Refinement
  import opened StageState

  datatype ServedInfo = ServedInfo(tip: Point, mempoolTime: Option<nat>, estimated: seq<nat>)

  datatype Snapshot = Snapshot(readTs: nat, info: ServedInfo)

  /** The heights `n + 1 .. m`, none if `m` is not above `n`. */
  function HeightsAbove(n: nat, m: nat): (r: seq<nat>)
    ensures |r| == if m > n then m - n else 0
    ensures forall i | 0 <= i < |r| :: r[i] == n + 1 + i
    decreases m
  {
    if m <= n then [] else HeightsAbove(n, m - 1) + [m]
  }

  /** The snapshot is what commit `j` left: the reported tip with nothing on it, or, when estimates were
      asked for, a complete list of estimated blocks on a tip of the reported hash. */
  ghost predicate Serves(cfg: Config, log: Log, snaps: seq<Snap>, j: nat, mempool: bool, s: Snapshot) {
    && j < |log| == |snaps|
    && s.readTs == log[j].ts
    && match snaps[j].pending
       case None =>
         s.info.tip == Tip(cfg, snaps[j].chain) && s.info.estimated == [] && s.info.mempoolTime == None
       case Some(blocks) =>
         && mempool
         && s.info.tip.hash == Tip(cfg, snaps[j].chain).hash
         && s.info.estimated == HeightsAbove(s.info.tip.height, |snaps[j].chain| + |blocks|)
  }

  /** How the entries decide: the mempool one is taken when asked for and built on the same tip. */
  ghost predicate Selected(c: TimestampEntry, m: Option<TimestampEntry>, mempool: bool, s: Snapshot) {
    && s.info.tip == Point(c.tipHeight, c.tipHash)
    && if mempool && m.Some? && m.value.tipHash == c.tipHash
       then s.readTs == m.value.ts && s.info.mempoolTime == m.value.mempoolTime
       else s.readTs == c.ts && s.info.mempoolTime == None
  }

  lemma ConfirmedFrom(cfg: Config, log: Log, snaps: seq<Snap>, first: Log, e: TimestampEntry) returns (j: nat)
    requires RunOk(cfg, log, snaps) && first <= log && StampAt(Latest(first), Confirmed) == Some(e)
    ensures j < |log| == |snaps| && e.ts == log[j].ts && snaps[j].pending.None?
    ensures Tip(cfg, snaps[j].chain) == Point(e.tipHeight, e.tipHash)
  {
    hide StoreOk, Tip;
    assert first != [];
    assert CommitOk(cfg, log, snaps, |first| - 1);
    assert log[..|first| - 1 + 1] == first;
    j :| ConfirmedStamp(cfg, log, snaps, |first| - 1, j, e);
  }

  lemma MempoolFrom(cfg: Config, log: Log, snaps: seq<Snap>, e: TimestampEntry) returns (j: nat)
    requires RunOk(cfg, log, snaps) && StampAt(Latest(log), Mempool) == Some(e)
    ensures j < |log| == |snaps| && e.ts == log[j].ts && snaps[j].pending.Some?
    ensures Tip(cfg, snaps[j].chain).hash == e.tipHash
    ensures e.tipHeight == |snaps[j].chain| + |snaps[j].pending.value|
  {
    hide StoreOk, Tip;
    assert log != [];
    assert CommitOk(cfg, log, snaps, |log| - 1);
    assert log[..|log| - 1 + 1] == log;
    j :| MempoolStamp(cfg, log, snaps, |log| - 1, j, e);
  }

  /** Choose the snapshot of a request: the entries of the confirmed and of the mempool point are looked
      up one after the other, and commits may land in between. */
  method StartReader(cfg: Config, first: Log, second: Log, mempool: bool, ghost snaps: seq<Snap>)
    returns (r: Option<Snapshot>)
    requires first <= second && RunOk(cfg, second, snaps)
    ensures r.None? <==> StampAt(Latest(first), Confirmed).None?
    ensures r.Some? ==> exists j: nat :: Serves(cfg, second, snaps, j, mempool, r.value)
    ensures r.Some? ==> Selected(StampAt(Latest(first), Confirmed).value, StampAt(Latest(second), Mempool), mempool, r.value)
  {
    hide RunOk, Latest, ReadAt, StampAt, Tip;
    var confirmed := StampAt(Latest(first), Confirmed);
    if confirmed.None? {
      return None;
    }
    var c := confirmed.value;
    ghost var i := ConfirmedFrom(cfg, second, snaps, first, c);
    var tip := Point(c.tipHeight, c.tipHash);
    var plain := Snapshot(c.ts, ServedInfo(tip, None, []));
    assert Serves(cfg, second, snaps, i, mempool, plain);
    if mempool {
      var point := StampAt(Latest(second), Mempool);
      if point.Some? && point.value.tipHash == c.tipHash {
        var p := point.value;
        ghost var j := MempoolFrom(cfg, second, snaps, p);
        var estimated: seq<nat> := [];
        for k := 0 to Max(0, p.tipHeight - c.tipHeight)
          invariant estimated == HeightsAbove(c.tipHeight, c.tipHeight + k)
        {
          estimated := estimated + [c.tipHeight + k + 1];
        }
        assert p.tipHeight <= c.tipHeight ==> HeightsAbove(c.tipHeight, p.tipHeight) == [];
        var s := Snapshot(p.ts, ServedInfo(tip, p.mempoolTime, estimated));
        assert Serves(cfg, second, snaps, j, mempool, s);
        return Some(s);
      }
    }
    return Some(plain);
  }

  /** Snapshot reads: however many commits follow, reading at the chosen timestamp gives the data that
      one commit left, whole. */
  lemma SnapshotReads(
    cfg: Config, log: Log, snaps: seq<Snap>, later: Log, j: nat, mempool: bool, s: Snapshot)
    requires Sorted(later) && log <= later && RunOk(cfg, log, snaps) && Serves(cfg, log, snaps, j, mempool, s)
    ensures Shows(ReadAt(later, s.readTs), Indexed(cfg, snaps[j].chain, snaps[j].pending))
    ensures ValidIndex(cfg, snaps[j].chain, snaps[j].pending)
  {
    hide Shows, Tip, ValidIndex, Indexed, BufferIs, Reaches;
    assert CommitOk(cfg, log, snaps, j);
    assert log[..j + 1] == later[..j + 1];
    ReadAtStable(later, j + 1, s.readTs);
  }
}
