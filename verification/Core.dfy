/** The index stage's state as a value, what makes it sound, and how each kind of commit changes it. */
module Core {
  import opened Wrappers
  import opened Types
  import opened Timestamps
  import opened Ledger
  import opened Supply
  import opened Task
  import opened Storage
  import opened Context
  import opened Refinement
  import opened Worker
  import opened Rollback
  import opened Undo
  import opened StageState
  import opened Commits

  /** What the stage stands for: the chain and estimated blocks the store reflects, how many of the
      buffered points the journal records, how far back they reach, and the record of every commit. */
  datatype Model = Model(
    chain: seq<Block>, pending: Pending, recorded: nat, first: nat, highest: nat, snaps: seq<Snap>)

  /** The stage's own fields beside its model. */
  datatype CoreState = CoreState(
    points: seq<PointKvs>, cache: Utxos, last: Point, mempool: bool, mutable: bool, model: Model)

  function SnapOf(c: CoreState): Snap
    requires c.model.recorded <= |c.points|
  {
    Snap(c.model.chain, c.model.pending, c.points[..c.model.recorded], c.model.first, c.model.highest)
  }

  /** The store shows the index of the chain and estimated blocks; the buffer can undo it point by
      point; the journal records its newest points; the cache agrees with the chain's history; and
      every commit so far left what its record says. */
  ghost predicate CoreOk(cfg: Config, log: Log, c: CoreState) {
    && Premises(cfg)
    && c.model.recorded <= |c.points| <= cfg.maxRollback + 2
    && StoreOk(cfg, Latest(log), SnapOf(c))
    && RunOk(cfg, log, c.model.snaps) && SnapOf(c) == LastSnap(c.model.snaps)
    && BufferIs(cfg, c.model.chain, c.model.pending, c.points)
    && c.last == Tip(cfg, c.model.chain)
    && c.mempool == c.model.pending.Some?
    && (c.points != [] ==> c.mutable)
    && CacheOk(cfg, c.cache, c.model.chain)
  }

  /** What callers may rely on without looking inside. */
  lemma CoreFacts(cfg: Config, log: Log, c: CoreState)
    requires CoreOk(cfg, log, c)
    ensures Premises(cfg) && c.model.recorded <= |c.points| <= cfg.maxRollback + 2
    ensures ValidIndex(cfg, c.model.chain, c.model.pending) && |c.model.chain| < U64_MAX
    ensures Shows(Latest(log), Indexed(cfg, c.model.chain, c.model.pending))
    ensures BufferIs(cfg, c.model.chain, c.model.pending, c.points)
    ensures Ordered(c.points) && DataOriginals(c.points)
    ensures c.last == Tip(cfg, c.model.chain) && c.mempool == c.model.pending.Some?
    ensures c.points != [] ==> c.mutable
    ensures c.model.pending.None? ==> Coherent(c.cache, Latest(log))
  {
    hide Replay, CommitOk, Shows, JournalIs;
    BufferOrdered(cfg, c.model.chain, c.model.pending, c.points);
    if c.model.pending.None? {
      CacheCoherent(cfg, c.cache, c.model.chain, Latest(log));
    }
  }

  lemma PointsFacts(cfg: Config, log: Log, c: CoreState)
    requires CoreOk(cfg, log, c)
    ensures DataOriginals(c.points) && c.model.recorded <= |c.points|
  {
    CoreFacts(cfg, log, c);
  }

  // --- undoing

  /** A buffered point below the greatest height is one of the chain's. */
  lemma RollbackTarget(cfg: Config, chain: seq<Block>, pending: Pending, points: seq<PointKvs>, p: Point, i: nat)
    requires BufferIs(cfg, chain, pending, points) && |chain| < U64_MAX && p.height < U64_MAX
    requires Position(points, p) == Some(i)
    ensures Front(pending) <= i < |points|
    ensures HeightAt(chain, pending, i) == p.height
    ensures 1 <= p.height <= |chain| && p == Tip(cfg, chain[..p.height])
  {
    hide Replay, Indexed, ConfirmedAt, PendingPoint, Ordered, DataOriginals;
    BufferOrdered(cfg, chain, pending, points);
    if i < Front(pending) {
      PseudoPointAt(cfg, chain, pending.value, points[0]);
    } else {
      ConfirmedPoint(cfg, chain, points[i], HeightAt(chain, pending, i));
    }
  }

  function UndoneCore(c: CoreState, p: Point, i: nat): CoreState
    requires p.height <= |c.model.chain| && i <= |c.points| && c.model.recorded <= |c.points|
  {
    var m := c.model;
    var recorded := Less(m.recorded, i);
    var snap := Snap(m.chain[..p.height], None, c.points[i..][..recorded], m.first, m.highest);
    CoreState(c.points[i..], c.cache, p, false, c.mutable,
              Model(m.chain[..p.height], None, recorded, m.first, m.highest, m.snaps + [snap]))
  }

  lemma UndoCore(cfg: Config, log: Log, entry: Commit, c: CoreState, p: Point, i: nat)
    requires CoreOk(cfg, log, c) && p.height < U64_MAX && Position(c.points, p) == Some(i)
    requires var d, d' := Latest(log), Latest(log + [entry]);
             && Data(d') == UndoAll(Data(d), c.points[..i])
             && Journal(d') == Journal(d) - EntryKeys(c.points[..i])
             && Stamps(d') == Stamps(d)
    ensures 1 <= p.height <= |c.model.chain| && p == Tip(cfg, c.model.chain[..p.height]) && i < |c.points|
    ensures CoreOk(cfg, log + [entry], UndoneCore(c, p, i))
  {
    hide Shows, Replay, JournalIs, ConfirmedRun, CommitOk, Agrees, Data, Journal, EntryKeys, UndoAll, Reaches,
      ValidChain, ValidPending, Latest, Stamps;
    var m, snap := c.model, SnapOf(c);
    RollbackTarget(cfg, m.chain, m.pending, c.points, p, i);
    UndoStore(cfg, Latest(log), Latest(log + [entry]), snap, c.points, i);
    assert UndoneSnap(snap, c.points, i) == SnapOf(UndoneCore(c, p, i));
    RunSnoc(cfg, log, entry, m.snaps, UndoneSnap(snap, c.points, i), NoStamp, None);
    CacheCut(cfg, c.cache, m.chain, p.height);
    RunIsBuffer(cfg, m.chain[..p.height], c.points[i..]);
  }

  // --- a confirmed block

  /** The facts a committed task leaves: it wrote `wb` over the store, which then shows `next`. */
  ghost predicate Committed(log: Log, entry: Commit, wb: Buffer, next: State) {
    var d, d' := Latest(log), Latest(log + [entry]);
    && (forall k | k in wb :: IsData(k)) && InfoKey in wb
    && Data(d') == Resolved(Data(d), wb)
    && Shows(Resolved(d, wb), next)
  }

  /** What the commit of a confirmed block writes beside the data: its journal entries, if it is
      journaled, with the old ones collected, and its timestamp entry. */
  ghost predicate BlockWritten(cfg: Config, d: Kv, d': Kv, p: Point, ts: nat, originals: Option<Originals>) {
    && Journal(d') == (match originals
                       case None => Journal(d)
                       case Some(o) => Collected(Journal(d) + Entries(p.height, p.hash, o), Max(0, p.height - cfg.maxRollback)))
    && Stamps(d') == Stamps(d)[TimestampKey(Confirmed) := TimestampV(TimestampEntry(p.height, p.hash, ts, None))]
  }

  function BlockPoint(cfg: Config, chain: seq<Block>, b: Block, originals: Originals): PointKvs {
    PointKvs(Point(|chain| + 1, b.hash), originals)
  }

  function BlockCore(cfg: Config, c: CoreState, b: Block, originals: Option<Originals>, cache: Utxos): CoreState
    requires c.model.recorded <= |c.points|
  {
    var m, n := c.model, |c.model.chain| + 1;
    match originals
    case Some(o) =>
      var p := BlockPoint(cfg, m.chain, b, o);
      CoreState(Truncate([p] + c.points, cfg.maxRollback + 2), cache, Point(n, b.hash), false, true,
                Model(m.chain + [b], None, Min(m.recorded + 1, cfg.maxRollback + 1),
                      if c.points == [] then n else m.first, Max(m.highest, n),
                      m.snaps + [BlockSnap(cfg, SnapOf(c), b, p, c.points == [])]))
    case None =>
      CoreState([], cache, Point(n, b.hash), false, false,
                Model(m.chain + [b], None, 0, n + 1, Max(m.highest, n), m.snaps + [PlainSnap(SnapOf(c), b)]))
  }

  lemma NextChain(cfg: Config, chain: seq<Block>, b: Block)
    requires ValidChain(cfg, chain) && ValidNext(cfg, chain, b) && b.prev == Tip(cfg, chain).hash
    requires |chain| + 1 < U64_MAX
    ensures ValidChain(cfg, chain + [b]) && Tip(cfg, chain + [b]) == Point(|chain| + 1, b.hash)
  {
    assert (chain + [b])[..|chain|] == chain;
  }

  lemma BlockConfirmed(cfg: Config, log: Log, entry: Commit, chain: seq<Block>, b: Block, wb: Buffer)
    requires Shows(Latest(log), Replay(cfg, chain)) && Committed(log, entry, wb, Replay(cfg, chain + [b]))
    ensures Shows(Latest(log + [entry]), Replay(cfg, chain + [b]))
    ensures ConfirmedAt(cfg, chain + [b], BlockPoint(cfg, chain, b, OriginalsOf(Latest(log), wb.Keys)), |chain| + 1)
  {
    hide Replay;
    CommitData(Latest(log), Latest(log + [entry]), wb, Replay(cfg, chain), Replay(cfg, chain + [b]));
    assert (chain + [b])[..|chain| + 1] == chain + [b];
    assert (chain + [b])[..|chain| + 1 - 1] == chain;
    assert InfoKey in OriginalsOf(Latest(log), wb.Keys);
  }

  lemma BlockBuffer(cfg: Config, c: CoreState, b: Block, p: PointKvs)
    requires BufferIs(cfg, c.model.chain, None, c.points)
    requires ConfirmedAt(cfg, c.model.chain + [b], p, |c.model.chain| + 1)
    ensures BufferIs(cfg, c.model.chain + [b], None, Truncate([p] + c.points, cfg.maxRollback + 2))
  {
    hide ConfirmedAt;
    var n := Min(|c.points| + 1, cfg.maxRollback + 2);
    RunExtend(cfg, c.model.chain, b, c.points, p, n);
    assert Truncate([p] + c.points, cfg.maxRollback + 2) == ([p] + c.points)[..n];
  }

  /** A confirmed block keeps the state sound, journaled or not. */
  lemma BlockCoreOk(
    cfg: Config, log: Log, entry: Commit, c: CoreState, b: Block, wb: Buffer, originals: Option<Originals>, cache: Utxos)
    requires CoreOk(cfg, log, c) && c.model.pending.None? && (originals.None? ==> c.points == [])
    requires ValidNext(cfg, c.model.chain, b) && b.prev == c.last.hash && |c.model.chain| + 1 < U64_MAX
    requires Committed(log, entry, wb, Replay(cfg, c.model.chain + [b]))
    requires originals.Some? ==> originals.value == OriginalsOf(Latest(log), wb.Keys)
    requires BlockWritten(cfg, Latest(log), Latest(log + [entry]), Point(|c.model.chain| + 1, b.hash), entry.ts, originals)
    requires Coherent(cache, Resolved(Latest(log), wb)) && FromCacheOr(cache, c.cache, IdsOf(b.txs))
    ensures CoreOk(cfg, log + [entry], BlockCore(cfg, c, b, originals, cache))
  {
    hide Replay, ConfirmedAt, Shows, Journal, Stamps, Data, Collected, JournalIs, ConfirmedRun, CommitOk, Agrees,
      Coherent, FromCacheOr, Latest, Resolved, Reaches, ValidNext, ApplyTxs, RecordTxs, ValidTxs, Restored, OriginalsOf,
      BlockWritten;
    var chain := c.model.chain;
    NextChain(cfg, chain, b);
    BlockConfirmed(cfg, log, entry, chain, b, wb);
    CacheExtend(cfg, cache, c.cache, chain, b, Resolved(Latest(log), wb));
    if originals.Some? {
      JournaledOk(cfg, log, entry, c, b, originals.value, cache);
    } else {
      PlainOk(cfg, log, entry, c, b, cache);
    }
  }

  lemma JournaledOk(
    cfg: Config, log: Log, entry: Commit, c: CoreState, b: Block, o: Originals, cache: Utxos)
    requires CoreOk(cfg, log, c) && c.model.pending.None?
    requires ValidChain(cfg, c.model.chain + [b]) && Tip(cfg, c.model.chain + [b]) == Point(|c.model.chain| + 1, b.hash)
    requires |c.model.chain| + 1 < U64_MAX
    requires Shows(Latest(log + [entry]), Replay(cfg, c.model.chain + [b]))
    requires ConfirmedAt(cfg, c.model.chain + [b], BlockPoint(cfg, c.model.chain, b, o), |c.model.chain| + 1)
    requires CacheOk(cfg, cache, c.model.chain + [b])
    requires BlockWritten(cfg, Latest(log), Latest(log + [entry]), Point(|c.model.chain| + 1, b.hash), entry.ts, Some(o))
    ensures CoreOk(cfg, log + [entry], BlockCore(cfg, c, b, Some(o), cache))
  {
    hide Replay, ConfirmedAt, Shows, Journal, Stamps, Data, Collected, JournalIs, ConfirmedRun, CommitOk, CacheOk,
      Latest, Reaches, ValidChain;
    var c' := BlockCore(cfg, c, b, Some(o), cache);
    var p := BlockPoint(cfg, c.model.chain, b, o);
    BlockBuffer(cfg, c, b, p);
    BlockStore(cfg, Latest(log), Latest(log + [entry]), SnapOf(c), b, p, c.points == []);
    assert SnapOf(c') == BlockSnap(cfg, SnapOf(c), b, p, c.points == []);
    RunSnoc(cfg, log, entry, c.model.snaps, SnapOf(c'), StampConfirmed, None);
  }

  lemma PlainOk(
    cfg: Config, log: Log, entry: Commit, c: CoreState, b: Block, cache: Utxos)
    requires CoreOk(cfg, log, c) && c.model.pending.None? && c.points == []
    requires ValidChain(cfg, c.model.chain + [b]) && Tip(cfg, c.model.chain + [b]) == Point(|c.model.chain| + 1, b.hash)
    requires |c.model.chain| + 1 < U64_MAX
    requires Shows(Latest(log + [entry]), Replay(cfg, c.model.chain + [b]))
    requires CacheOk(cfg, cache, c.model.chain + [b])
    requires BlockWritten(cfg, Latest(log), Latest(log + [entry]), Point(|c.model.chain| + 1, b.hash), entry.ts, None)
    ensures CoreOk(cfg, log + [entry], BlockCore(cfg, c, b, None, cache))
  {
    hide Replay, ConfirmedAt, Shows, Journal, Stamps, Data, JournalIs, CommitOk, CacheOk, Latest, Reaches, ValidChain;
    var c' := BlockCore(cfg, c, b, None, cache);
    PlainStore(cfg, Latest(log), Latest(log + [entry]), SnapOf(c), b);
    assert SnapOf(c') == PlainSnap(SnapOf(c), b);
    RunSnoc(cfg, log, entry, c.model.snaps, SnapOf(c'), StampConfirmed, None);
  }

  // --- estimated blocks

  function PendingCore(cfg: Config, c: CoreState, blocks: seq<seq<Tx>>, originals: Originals, cache: Utxos): CoreState
    requires c.model.recorded <= |c.points|
  {
    var m := c.model;
    var p := PointKvs(Point(U64_MAX, c.last.hash), originals);
    CoreState(Truncate([p] + c.points, cfg.maxRollback + 2), cache, c.last, true, c.mutable,
              m.(pending := Some(blocks), recorded := m.recorded + 1,
                 snaps := m.snaps + [PendingSnap(SnapOf(c), blocks, p)]))
  }

  lemma PendingConfirmed(cfg: Config, log: Log, entry: Commit, chain: seq<Block>, blocks: seq<seq<Tx>>, wb: Buffer)
    requires Shows(Latest(log), Replay(cfg, chain)) && Committed(log, entry, wb, Indexed(cfg, chain, Some(blocks)))
    ensures Shows(Latest(log + [entry]), Indexed(cfg, chain, Some(blocks)))
    ensures PendingPoint(cfg, chain, blocks, PointKvs(Point(U64_MAX, Tip(cfg, chain).hash), OriginalsOf(Latest(log), wb.Keys)))
  {
    hide Replay, Indexed;
    CommitData(Latest(log), Latest(log + [entry]), wb, Replay(cfg, chain), Indexed(cfg, chain, Some(blocks)));
    assert InfoKey in OriginalsOf(Latest(log), wb.Keys);
  }

  lemma PendingBuffer(cfg: Config, chain: seq<Block>, blocks: seq<seq<Tx>>, points: seq<PointKvs>, p: PointKvs)
    requires BufferIs(cfg, chain, None, points) && PendingPoint(cfg, chain, blocks, p)
    ensures BufferIs(cfg, chain, Some(blocks), Truncate([p] + points, cfg.maxRollback + 2))
  {
    hide ConfirmedAt, PendingPoint;
    var all := Truncate([p] + points, cfg.maxRollback + 2);
    assert all[1..] == points[..|all| - 1];
    BufferPrefix(cfg, chain, None, points, |all| - 1);
  }

  lemma RecordedFits(cfg: Config, log: Log, c: CoreState)
    requires CoreOk(cfg, log, c) && c.model.pending.None?
    ensures c.model.recorded <= cfg.maxRollback + 1
  {
  }

  /** Estimated blocks keep the state sound. */
  lemma PendingCoreOk(
    cfg: Config, log: Log, entry: Commit, c: CoreState, blocks: seq<seq<Tx>>, wb: Buffer, cache: Utxos, time: Option<nat>)
    requires CoreOk(cfg, log, c) && c.model.pending.None? && c.points != []
    requires ValidPending(cfg, c.model.chain, blocks)
    requires Committed(log, entry, wb, Indexed(cfg, c.model.chain, Some(blocks)))
    requires var d, d', o := Latest(log), Latest(log + [entry]), OriginalsOf(Latest(log), wb.Keys);
             && Journal(d') == Journal(d) + Entries(U64_MAX, c.last.hash, o)
             && Stamps(d') == Stamps(d)[TimestampKey(Mempool) :=
                  TimestampV(TimestampEntry(|c.model.chain| + |blocks|, c.last.hash, entry.ts, time))]
    requires SubMap(cache, c.cache)
    ensures CoreOk(cfg, log + [entry], PendingCore(cfg, c, blocks, OriginalsOf(Latest(log), wb.Keys), cache))
  {
    hide Replay, ApplyMempool, ConfirmedAt, PendingPoint, Shows, Journal, Stamps, Data, JournalIs, ConfirmedRun, CommitOk,
      Agrees, Latest, Resolved, Reaches, ValidPendingAt, SubMap, Committed, OriginalsOf;
    var chain := c.model.chain;
    PendingConfirmed(cfg, log, entry, chain, blocks, wb);
    CacheSub(cfg, c.cache, cache, chain);
    EstimatedOk(cfg, log, entry, c, blocks, OriginalsOf(Latest(log), wb.Keys), cache, time);
  }

  lemma PendingSnapIs(cfg: Config, c: CoreState, blocks: seq<seq<Tx>>, o: Originals, cache: Utxos)
    requires c.model.recorded <= |c.points| && c.model.recorded <= cfg.maxRollback + 1
    ensures var c' := PendingCore(cfg, c, blocks, o, cache);
            && c'.model.recorded <= |c'.points| <= cfg.maxRollback + 2 && c'.points != []
            && SnapOf(c') == PendingSnap(SnapOf(c), blocks, PointKvs(Point(U64_MAX, c.last.hash), o))
  {
    var c' := PendingCore(cfg, c, blocks, o, cache);
    var p := PointKvs(Point(U64_MAX, c.last.hash), o);
    assert c'.points[..c.model.recorded + 1] == [p] + c.points[..c.model.recorded];
  }

  lemma EstimatedOk(
    cfg: Config, log: Log, entry: Commit, c: CoreState, blocks: seq<seq<Tx>>, o: Originals, cache: Utxos, time: Option<nat>)
    requires CoreOk(cfg, log, c) && c.model.pending.None? && c.points != []
    requires ValidPending(cfg, c.model.chain, blocks)
    requires Shows(Latest(log + [entry]), Indexed(cfg, c.model.chain, Some(blocks)))
    requires PendingPoint(cfg, c.model.chain, blocks, PointKvs(Point(U64_MAX, c.last.hash), o))
    requires CacheOk(cfg, cache, c.model.chain)
    requires var d, d' := Latest(log), Latest(log + [entry]);
             && Journal(d') == Journal(d) + Entries(U64_MAX, c.last.hash, o)
             && Stamps(d') == Stamps(d)[TimestampKey(Mempool) :=
                  TimestampV(TimestampEntry(|c.model.chain| + |blocks|, c.last.hash, entry.ts, time))]
    ensures CoreOk(cfg, log + [entry], PendingCore(cfg, c, blocks, o, cache))
  {
    hide Replay, Indexed, ConfirmedAt, PendingPoint, Shows, Journal, Stamps, Data, JournalIs, ConfirmedRun, CommitOk,
      CacheOk, Latest, Reaches, ValidPending, ValidChain;
    RecordedFits(cfg, log, c);
    var p := PointKvs(Point(U64_MAX, c.last.hash), o);
    PendingBuffer(cfg, c.model.chain, blocks, c.points, p);
    PendingStore(cfg, Latest(log), Latest(log + [entry]), SnapOf(c), blocks, p);
    PendingSnapIs(cfg, c, blocks, o, cache);
    RunSnoc(cfg, log, entry, c.model.snaps, PendingSnap(SnapOf(c), blocks, p), StampMempool, time);
  }
}
