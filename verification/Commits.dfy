/** What each kind of commit does to the store's meaning: undoing points, a confirmed block, estimated
    blocks. */
module Commits {
  import opened Wrappers
  import opened Types
  import opened Ledger
  import opened Supply
  import opened Task
  import opened Storage
  import opened Context
  import opened Refinement
  import opened Rollback
  import opened Undo
  import opened StageState

  // --- undoing

  function Less(a: nat, b: nat): nat {
    if a <= b then 0 else a - b
  }

  /** The record after undoing down to position `i` of a buffer whose newest `recorded` points are
      journaled. */
  function UndoneSnap(snap: Snap, points: seq<PointKvs>, i: nat): Snap
    requires Front(snap.pending) <= i <= |points| && |snap.points| <= |points|
    requires 0 <= HeightAt(snap.chain, snap.pending, i) <= |snap.chain|
  {
    Snap(snap.chain[..HeightAt(snap.chain, snap.pending, i)], None,
         points[i..][..Less(|snap.points|, i)], snap.first, snap.highest)
  }

  lemma PrefixParts<T>(s: seq<T>, n: nat, i: nat)
    requires n <= |s| && i <= |s|
    ensures forall p | p in s[..n] :: p in s[..i] || p in s[i..][..Less(n, i)]
    ensures forall p | p in s[i..][..Less(n, i)] :: p in s[..n]
  {
    forall p | p in s[..n]
      ensures p in s[..i] || p in s[i..][..Less(n, i)]
    {
      var a :| 0 <= a < n && s[a] == p;
      if a < i {
        assert s[..i][a] == p;
      } else {
        assert s[i..][..Less(n, i)][a - i] == p;
      }
    }
    forall p | p in s[i..][..Less(n, i)]
      ensures p in s[..n]
    {
      var a :| 0 <= a < Less(n, i) && s[i..][a] == p;
      assert s[..n][i + a] == p;
    }
  }

  lemma HeightsApart(points: seq<PointKvs>, n: nat, i: nat)
    requires Ordered(points) && n <= |points| && i <= |points|
    ensures forall p, q | p in points[..i] && q in points[i..][..Less(n, i)] :: p.point.height != q.point.height
  {
    forall p, q | p in points[..i] && q in points[i..][..Less(n, i)]
      ensures p.point.height != q.point.height
    {
      var a :| 0 <= a < i && points[a] == p;
      var c :| 0 <= c < Less(n, i) && points[i..][c] == q;
      assert points[i + c] == q;
    }
  }

  lemma UndoneJournal(journal: Kv, points: seq<PointKvs>, recorded: nat, i: nat)
    requires Ordered(points) && recorded <= |points| && i <= |points|
    requires JournalIs(journal, points[..recorded])
    ensures JournalIs(journal - EntryKeys(points[..i]), points[i..][..Less(recorded, i)])
  {
    hide JournalIs, Ordered, EntryKeys;
    PrefixParts(points, recorded, i);
    HeightsApart(points, recorded, i);
    JournalDrop(journal, points[..recorded], points[..i], points[i..][..Less(recorded, i)]);
  }

  /** Exact undo at the level of the store. */
  lemma UndoStore(cfg: Config, d: Kv, d': Kv, snap: Snap, points: seq<PointKvs>, i: nat)
    requires StoreOk(cfg, d, snap) && BufferIs(cfg, snap.chain, snap.pending, points)
    requires snap.points <= points && Front(snap.pending) <= i < |points|
    requires Data(d') == UndoAll(Data(d), points[..i])
    requires Journal(d') == Journal(d) - EntryKeys(points[..i])
    ensures 1 <= HeightAt(snap.chain, snap.pending, i) <= |snap.chain|
    ensures StoreOk(cfg, d', UndoneSnap(snap, points, i))
    ensures ConfirmedRun(cfg, UndoneSnap(snap, points, i).chain, points[i..])
  {
    hide Replay, ApplyMempool, Shows, JournalIs, UndoAll, ConfirmedAt, Flat, Data, Journal, EntryKeys, ValidChain,
      ValidPending, ConfirmedRun, BufferIs, Ordered, Reaches, DataOriginals;
    var chain, pending := snap.chain, snap.pending;
    UndoBuffer(cfg, chain, pending, points, i);
    var m := HeightAt(chain, pending, i);
    ValidPrefix(cfg, chain, m);
    UndoneShows(cfg, d, d', snap, points, i);
    BufferOrdered(cfg, chain, pending, points);
    assert snap.points == points[..|snap.points|];
    UndoneJournal(Journal(d), points, |snap.points|, i);
    assert BufferIs(cfg, chain[..m], None, points[i..]) by { RunIsBuffer(cfg, chain[..m], points[i..]); }
    BufferPrefix(cfg, chain[..m], None, points[i..], Less(|snap.points|, i));
    UndoneReaches(cfg, snap, points, i);
  }

  lemma RunIsBuffer(cfg: Config, chain: seq<Block>, points: seq<PointKvs>)
    ensures BufferIs(cfg, chain, None, points) <==> ConfirmedRun(cfg, chain, points)
  {
  }

  lemma UndoneReaches(cfg: Config, snap: Snap, points: seq<PointKvs>, i: nat)
    requires Front(snap.pending) <= i < |points| && snap.points <= points
    requires 1 <= HeightAt(snap.chain, snap.pending, i) <= |snap.chain|
    requires Reaches(snap, cfg.maxRollback)
    ensures Reaches(UndoneSnap(snap, points, i), cfg.maxRollback)
  {
  }

  lemma UndoneShows(cfg: Config, d: Kv, d': Kv, snap: Snap, points: seq<PointKvs>, i: nat)
    requires Shows(d, Indexed(cfg, snap.chain, snap.pending)) && |snap.chain| < U64_MAX
    requires BufferIs(cfg, snap.chain, snap.pending, points) && Front(snap.pending) <= i < |points|
    requires Data(d') == UndoAll(Data(d), points[..i])
    ensures 1 <= HeightAt(snap.chain, snap.pending, i) <= |snap.chain|
    ensures Shows(d', Replay(cfg, snap.chain[..HeightAt(snap.chain, snap.pending, i)]))
  {
    var chain, pending := snap.chain, snap.pending;
    UndoBuffer(cfg, chain, pending, points, i);
    hide Replay, Shows, ConfirmedAt, Flat, Data;
    ShowsFlat(d, Indexed(cfg, chain, pending));
    if i == 0 {
      assert points[..0] == [];
      assert chain[..|chain|] == chain;
      ShowsData(d, d', Replay(cfg, chain));
    } else {
      FlatShows(d', Replay(cfg, chain[..HeightAt(chain, pending, i)]));
    }
  }

  // --- committing a task

  /** Committing a task makes the store show what the task showed, and its originals undo it. */
  lemma CommitData(d: Kv, d': Kv, wb: Buffer, s: State, s': State)
    requires Shows(d, s) && (forall k | k in wb :: IsData(k))
    requires Data(d') == Resolved(Data(d), wb) && Shows(Resolved(d, wb), s')
    ensures Shows(d', s') && TablesOnly(s)
    ensures Restored(Flat(s'), OriginalsOf(d, wb.Keys)) == Flat(s)
  {
    hide Data, Resolved, Flat, Restored, OriginalsOf, Shows, TablesOnly;
    DataOfResolved(d, wb);
    ShowsData(Resolved(d, wb), d', s');
    ShowsFlat(d, s);
    ShowsFlat(d', s');
    RestoreUndoes(Data(d), wb);
    DataOriginalsOf(d, wb.Keys);
    ShowsTables(d, s);
  }

  lemma DataOriginalsOf(d: Kv, keys: set<Key>)
    requires forall k | k in keys :: IsData(k)
    ensures OriginalsOf(Data(d), keys) == OriginalsOf(d, keys)
  {
  }

  lemma ShowsTables(d: Kv, s: State)
    requires Shows(d, s)
    ensures TablesOnly(s)
  {
    assert forall k | k in s.kv :: k in Tables(d);
  }

  /** The record after a confirmed block that is not journaled. */
  function PlainSnap(snap: Snap, b: Block): Snap {
    Snap(snap.chain + [b], None, [], |snap.chain| + 2, Max(snap.highest, |snap.chain| + 1))
  }

  lemma PlainStore(cfg: Config, d: Kv, d': Kv, snap: Snap, b: Block)
    requires StoreOk(cfg, d, snap) && snap.pending.None? && snap.points == []
    requires ValidChain(cfg, snap.chain + [b]) && |snap.chain| + 1 < U64_MAX
    requires Shows(d', Replay(cfg, snap.chain + [b])) && Journal(d') == Journal(d)
    ensures StoreOk(cfg, d', PlainSnap(snap, b))
  {
  }

  /** The record after a journaled confirmed block: its point in front, and no more than the rollback
      limit allows beside it. `restart` says that no point was buffered before. */
  function BlockSnap(cfg: Config, snap: Snap, b: Block, p: PointKvs, restart: bool): Snap {
    Snap(snap.chain + [b], None,
         ([p] + snap.points)[..Min(|snap.points| + 1, cfg.maxRollback + 1)],
         if restart then |snap.chain| + 1 else snap.first,
         Max(snap.highest, |snap.chain| + 1))
  }

  lemma CollectedJournal(
    cfg: Config, chain: seq<Block>, journal: Kv, points: seq<PointKvs>, p: PointKvs)
    requires ConfirmedRun(cfg, chain, points) && |chain| < U64_MAX
    requires JournalIs(journal, points) && p.point.height == |chain| + 1
    ensures JournalIs(
      Collected(journal + Entries(p.point.height, p.point.hash, p.originals), Max(0, p.point.height - cfg.maxRollback)),
      ([p] + points)[..Min(|points| + 1, cfg.maxRollback + 1)])
  {
    hide JournalIs, ConfirmedAt;
    var all := [p] + points;
    var n := Min(|points| + 1, cfg.maxRollback + 1);
    var below := Max(0, p.point.height - cfg.maxRollback);
    RunHeights(cfg, chain, points);
    JournalPush(journal, points, p);
    KeptByHeight(all, p.point.height, cfg.maxRollback);
    JournalCollect(journal + Entries(p.point.height, p.point.hash, p.originals), all, below, all[..n]);
  }

  lemma RunHeights(cfg: Config, chain: seq<Block>, points: seq<PointKvs>)
    requires ConfirmedRun(cfg, chain, points)
    ensures forall j | 0 <= j < |points| :: points[j].point.height == |chain| - j
    ensures forall q | q in points :: q.point.height <= |chain|
  {
    forall j | 0 <= j < |points|
      ensures points[j].point.height == |chain| - j
    {
      assert ConfirmedAt(cfg, chain, points[j], |chain| - j);
    }
  }

  /** Among contiguous points, those at or above `top - limit` are the first `limit + 1`. */
  lemma KeptByHeight(all: seq<PointKvs>, top: nat, limit: nat)
    requires |all| <= top && forall j | 0 <= j < |all| :: all[j].point.height == top - j
    ensures var n := Min(|all|, limit + 1);
            && (forall q | q in all :: q in all[..n] <==> q.point.height >= Max(0, top - limit))
            && (forall q | q in all[..n] :: q in all)
  {
    var n := Min(|all|, limit + 1);
    forall q | q in all
      ensures q in all[..n] <==> q.point.height >= Max(0, top - limit)
    {
      var j :| 0 <= j < |all| && all[j] == q;
      if j < n {
        assert all[..n][j] == q;
      }
    }
  }

  lemma BlockStore(
    cfg: Config, d: Kv, d': Kv, snap: Snap, b: Block, p: PointKvs, restart: bool)
    requires StoreOk(cfg, d, snap) && snap.pending.None? && (restart ==> snap.points == [])
    requires ValidChain(cfg, snap.chain + [b]) && |snap.chain| + 1 < U64_MAX
    requires Shows(d', Replay(cfg, snap.chain + [b]))
    requires ConfirmedAt(cfg, snap.chain + [b], p, |snap.chain| + 1)
    requires Journal(d') == Collected(Journal(d) + Entries(p.point.height, p.point.hash, p.originals),
                                      Max(0, p.point.height - cfg.maxRollback))
    ensures StoreOk(cfg, d', BlockSnap(cfg, snap, b, p, restart))
  {
    hide Replay, ConfirmedAt, Shows, JournalIs, ConfirmedRun, ValidChain, Journal, Collected, Reaches;
    RunIsBuffer(cfg, snap.chain, snap.points);
    assert p.point.height == |snap.chain| + 1 by { PointHeight(cfg, snap.chain, b, p); }
    CollectedJournal(cfg, snap.chain, Journal(d), snap.points, p);
    RunExtend(cfg, snap.chain, b, snap.points, p, Min(|snap.points| + 1, cfg.maxRollback + 1));
    RunIsBuffer(cfg, snap.chain + [b], BlockSnap(cfg, snap, b, p, restart).points);
    BlockReaches(cfg, snap, b, p, restart);
  }

  lemma BlockReaches(cfg: Config, snap: Snap, b: Block, p: PointKvs, restart: bool)
    requires snap.pending.None? && (restart ==> snap.points == []) && Reaches(snap, cfg.maxRollback)
    ensures Reaches(BlockSnap(cfg, snap, b, p, restart), cfg.maxRollback)
  {
  }

  lemma PointHeight(cfg: Config, chain: seq<Block>, b: Block, p: PointKvs)
    requires ConfirmedAt(cfg, chain + [b], p, |chain| + 1)
    ensures p.point == Point(|chain| + 1, b.hash)
  {
    assert (chain + [b])[..|chain| + 1] == chain + [b];
  }

  /** The record after estimated blocks. */
  function PendingSnap(snap: Snap, blocks: seq<seq<Tx>>, p: PointKvs): Snap {
    Snap(snap.chain, Some(blocks), [p] + snap.points, snap.first, snap.highest)
  }

  lemma PendingStore(
    cfg: Config, d: Kv, d': Kv, snap: Snap, blocks: seq<seq<Tx>>, p: PointKvs)
    requires StoreOk(cfg, d, snap) && snap.pending.None?
    requires ValidPending(cfg, snap.chain, blocks) && PendingPoint(cfg, snap.chain, blocks, p)
    requires Shows(d', Indexed(cfg, snap.chain, Some(blocks)))
    requires Journal(d') == Journal(d) + Entries(U64_MAX, Tip(cfg, snap.chain).hash, p.originals)
    ensures StoreOk(cfg, d', PendingSnap(snap, blocks, p))
  {
    hide Replay, Indexed, Shows, JournalIs, ConfirmedAt, PendingPoint, ValidPending, ValidChain;
    assert p.point == Point(U64_MAX, Tip(cfg, snap.chain).hash) by { PseudoPointAt(cfg, snap.chain, blocks, p); }
    RunHeights(cfg, snap.chain, snap.points);
    JournalPush(Journal(d), snap.points, p);
    assert ([p] + snap.points)[1..] == snap.points;
  }
}
