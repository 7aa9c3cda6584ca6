/** Starting the index stage again from whatever commits survived. */
module Recovery {
  import opened Wrappers
  import opened Types
  import opened Ledger
  import opened Supply
  import opened Task
  import opened Storage
  import opened Context
  import opened Refinement
  import opened Rollback
  import opened Reload
  import opened StageState
  import opened Commits
  import opened Core
  import opened Machine
  import opened Heights
  import opened Stage

  lemma Survives(cfg: Config, log: Log, snaps: seq<Snap>)
    requires RunOk(cfg, log, snaps)
    ensures StoreOk(cfg, Latest(log), LastSnap(snaps))
  {
    if snaps != [] {
      assert CommitOk(cfg, log, snaps, |log| - 1);
      assert log[..|log|] == log;
    } else {
      assert Replay(cfg, []) == State(map[], map[]);
    }
  }

  /** The run up to any of its commits is a run: a crash may lose the newest commits. */
  lemma RunPrefix(cfg: Config, log: Log, snaps: seq<Snap>, n: nat)
    requires RunOk(cfg, log, snaps) && n <= |log|
    ensures RunOk(cfg, log[..n], snaps[..n])
  {
    hide StoreOk;
    forall i | 0 <= i < n
      ensures CommitOk(cfg, log[..n], snaps[..n], i)
    {
      assert CommitOk(cfg, log, snaps, i);
      CommitCut(cfg, log, snaps, n, i);
    }
  }

  lemma CommitCut(cfg: Config, log: Log, snaps: seq<Snap>, n: nat, i: nat)
    requires i < n <= |log| == |snaps| && CommitOk(cfg, log, snaps, i)
    ensures CommitOk(cfg, log[..n], snaps[..n], i)
  {
    hide StoreOk, Tip;
    assert log[..n][..i + 1] == log[..i + 1];
    var d := Latest(log[..i + 1]);
    if StampAt(d, Confirmed).Some? {
      var j: nat :| ConfirmedStamp(cfg, log, snaps, i, j, StampAt(d, Confirmed).value);
      assert ConfirmedStamp(cfg, log[..n], snaps[..n], i, j, StampAt(d, Confirmed).value);
    }
    if StampAt(d, Mempool).Some? {
      var j: nat :| MempoolStamp(cfg, log, snaps, i, j, StampAt(d, Mempool).value);
      assert MempoolStamp(cfg, log[..n], snaps[..n], i, j, StampAt(d, Mempool).value);
    }
  }

  /** The point in front of the journal. */
  ghost function Newest(cfg: Config, snap: Snap): Point {
    if snap.pending.Some? then Point(U64_MAX, Tip(cfg, snap.chain).hash) else Tip(cfg, snap.chain)
  }

  /** What the store tells a starting process about a snapshot. */
  ghost predicate Told(cfg: Config, d: Kv, snap: Snap) {
    && DenseHeights(d, snap.chain)
    && Lookup(d, InfoKey) ==
         (if snap.pending.Some?
          then Some(InfoV(IndexerInfo(|snap.chain| + |snap.pending.value|, Tip(cfg, snap.chain).hash, true)))
          else if snap.chain == [] then None
          else Some(InfoV(IndexerInfo(|snap.chain|, Tip(cfg, snap.chain).hash, false))))
    && JournalIs(Journal(d), snap.points) && Ordered(snap.points) && |snap.points| <= cfg.maxRollback + 2
    && Front(snap.pending) <= |snap.points|
    && (snap.points != [] ==> snap.points[0].point == Newest(cfg, snap))
  }

  lemma StoreTells(cfg: Config, d: Kv, snap: Snap)
    requires StoreOk(cfg, d, snap)
    ensures Told(cfg, d, snap)
  {
    hide Replay, Indexed, JournalIs, ValidChain, ValidPendingAt, ConfirmedAt;
    BufferOrdered(cfg, snap.chain, snap.pending, snap.points);
    forall h: nat
      ensures Lookup(d, HashKey(h)) == HashAt(snap.chain, h)
    {
      TablesAt(d, HashKey(h));
      IndexedHeights(cfg, snap.chain, snap.pending, h);
    }
    TablesAt(d, InfoKey);
    IndexedHeights(cfg, snap.chain, snap.pending, 0);
    if snap.points != [] && snap.pending.None? {
      assert snap.chain[..|snap.chain|] == snap.chain;
      PointOf(cfg, snap.chain, snap.points[0], |snap.chain|);
    }
  }

  lemma PointOf(cfg: Config, chain: seq<Block>, p: PointKvs, m: nat)
    requires ConfirmedAt(cfg, chain, p, m)
    ensures p.point == Tip(cfg, chain[..m])
  {
  }

  /** The greatest height in the hash-by-height table, or the genesis block. */
  method LastProcessed(cfg: Config, store: Kv, ghost chain: seq<Block>) returns (p: Point)
    requires DenseHeights(store, chain)
    ensures p == Tip(cfg, chain)
  {
    var tip := TipHeight(store, chain);
    match tip {
      case None =>
        return Point(0, cfg.genesis);
      case Some(h) =>
        assert Lookup(store, HashKey(h)) == HashAt(chain, h);
        return Point(h, store[HashKey(h)].hash);
    }
  }

  /** The soundness of what a starting process puts together. */
  lemma StartsSound(cfg: Config, log: Log, snaps: seq<Snap>)
    requires Premises(cfg) && RunOk(cfg, log, snaps)
    ensures var s := LastSnap(snaps);
            CoreOk(cfg, log, CoreState(s.points, map[], Tip(cfg, s.chain), s.pending.Some?, s.points != [],
                                       Model(s.chain, s.pending, |s.points|, s.first, s.highest, snaps)))
  {
    hide Replay, Indexed, JournalIs, ValidChain, ValidPending, ConfirmedAt, Shows, CommitOk;
    Survives(cfg, log, snaps);
    var s := LastSnap(snaps);
    assert s.points[..|s.points|] == s.points;
  }

  /** The empty index is sound: a first start has nothing to recover. */
  lemma EmptyIsSound(cfg: Config)
    requires Premises(cfg)
    ensures CoreOk(cfg, [], CoreState([], map[], Point(0, cfg.genesis), false, false, Model([], None, 0, 1, 0, [])))
  {
    StartsSound(cfg, [], []);
  }

  /** A process started over a snapshot is stuck, every admissible event panicking without effect, exactly
      when the snapshot has estimated blocks and journals nothing but their pseudo-point. */
  lemma StartsStuck(cfg: Config, d: Kv, snap: Snap)
    requires StoreOk(cfg, d, snap)
    ensures var a := StartsFrom(snap);
            (forall e | Admissible(cfg, a, e) :: Step(cfg, a, e) == Next(a, Panic))
            <==> snap.pending.Some? && |snap.points| == 1
  {
    hide Replay, Indexed, JournalIs, ValidChain, ValidPending, ConfirmedAt, Shows;
    Stuck(cfg, StartsFrom(snap));
  }

  /** The machine's state after starting over a snapshot. */
  function StartsFrom(s: Snap): Abs {
    var kept := Less(|s.points|, Front(s.pending));
    Abs(s.chain, s.pending, kept, kept, s.points != [], s.first, s.highest)
  }

  /** Start the stage over the surviving commits of a run: none of the startup assertions fails, and the
      stage is again sound, for the chain and estimated blocks of the last of them, with every point
      that was journaled. */
  method Open(cfg: Config, db: StorageHandler, safeMode: bool, cache: UtxoCache?, ghost snaps: seq<Snap>)
    returns (stage: Option<IndexStage>)
    requires Premises(cfg) && db.Valid() && db.previous.None? && RunOk(cfg, db.log, snaps) && Cached(cache) == map[]
    ensures stage.Some? && fresh(stage.value) && fresh(stage.value.buffer)
    ensures stage.value.db == db && stage.value.cfg == cfg && stage.value.cache == cache
    ensures stage.value.Valid()
    ensures stage.value.Abstract() == StartsFrom(LastSnap(snaps))
  {
    hide CoreOk, RunOk, StoreOk, Premises, Sorted, ReadAt, JournalIs, Ordered, Journal;
    ghost var snap := LastSnap(snaps);
    Survives(cfg, db.log, snaps);
    var store := ReadAt(db.log, U64_MAX);
    StoreTells(cfg, store, snap);
    var buffer := FetchFromStorage(store, cfg.maxRollback, safeMode, snap.points);
    var last := LastProcessed(cfg, store, snap.chain);
    var info := Lookup(store, InfoKey);
    var processedMempool := info.Some? && info.value.info.mempool;
    if info.Some? && buffer.points != [] {
      var cursor := Point(info.value.info.height, info.value.info.hash);
      var latest := buffer.points[0].point;
      if !(if info.value.info.mempool
           then latest.hash == cursor.hash && latest.hash == last.hash
           else latest == last && latest == cursor) {
        return None;
      }
    }
    StartsSound(cfg, db.log, snaps);
    var started := new IndexStage(cfg, db, buffer, cache, last, processedMempool, buffer.points != [],
                                  Model(snap.chain, snap.pending, |snap.points|, snap.first, snap.highest, snaps));
    return Some(started);
  }
}
