/** The index stage: roll forward, roll back and estimated blocks over the store, with its undo
    journal. */
module Stage {
  import opened Wrappers
  import opened Types
  import opened Timestamps
  import opened Ledger
  import opened Supply
  import opened Task
  import opened Storage
  import opened Context
  import opened Refinement
  import opened Worker
  import opened Rollback
  import opened Undo
  import opened StageState
  import opened Commits
  import opened Core
  import opened Machine

  class IndexStage {
    const cfg: Config
    const db: StorageHandler
    const buffer: RollbackBuffer
    const cache: UtxoCache?
    var lastProcessed: Point
    var processedMempool: bool
    var mutable: bool
    ghost var model: Model

    constructor (cfg: Config, db: StorageHandler, buffer: RollbackBuffer, cache: UtxoCache?,
                 lastProcessed: Point, processedMempool: bool, mutable: bool, ghost model: Model)
      ensures this.cfg == cfg && this.db == db && this.buffer == buffer && this.cache == cache
      ensures this.lastProcessed == lastProcessed && this.processedMempool == processedMempool
      ensures this.mutable == mutable && this.model == model
    {
      this.cfg := cfg;
      this.db := db;
      this.buffer := buffer;
      this.cache := cache;
      this.lastProcessed := lastProcessed;
      this.processedMempool := processedMempool;
      this.mutable := mutable;
      this.model := model;
    }

    ghost function State(): CoreState
      reads this, buffer, cache
    {
      CoreState(buffer.points, Cached(cache), lastProcessed, processedMempool, mutable, model)
    }

    ghost predicate Valid()
      reads this, db, buffer, cache
    {
      db.Valid() && buffer.size == cfg.maxRollback + 2 && CoreOk(cfg, db.log, State())
    }

    /** The stage as a state of the small machine. */
    ghost function Abstract(): Abs
      reads this, buffer, cache
    {
      AbsOf(State())
    }

    /** Undo every point after the given one, in one batch. A point that is not buffered is a panic. The
        pseudo-point of applied estimates is buffered, in front: rolling back to it commits nothing and
        leaves the stage at a height and without estimates that no chain explains. */
    method RollbackToPoint(p: Point) returns (ok: bool)
      requires Valid() && db.Ready(1)
      modifies this, db, buffer
      ensures Grown(old(db.log), old(model))
      ensures ok == Position(old(buffer.points), p).Some?
      ensures !ok ==> Valid() && State() == old(State()) && db.log == old(db.log) && db.previous == old(db.previous)
      ensures !ok ==> db.ticks == old(db.ticks)
      ensures ok ==> db.Valid() && db.previous.Some? && db.ticks == old(db.ticks) + 1
      ensures ok && !Misdirected(cfg, old(Abstract()), Event.RollBack(p)) ==>
        && Valid()
        && 1 <= p.height <= |old(model).chain| && p == Tip(cfg, old(model).chain[..p.height])
        && model.chain == old(model).chain[..p.height] && model.pending.None?
        && model.recorded == Less(old(model).recorded, Position(old(buffer.points), p).value)
        && model.first == old(model).first && model.highest == old(model).highest
        && buffer.points == old(buffer.points)[Position(old(buffer.points), p).value..] && buffer.points != []
      ensures Misdirected(cfg, old(Abstract()), Event.RollBack(p)) ==>
        && ok && |db.log| == |old(db.log)| + 1 && db.log[|old(db.log)|].batch == []
        && Latest(db.log) == Latest(old(db.log)) && buffer.points == old(buffer.points)
        && processedMempool == false
        && forall m :: !CoreOk(cfg, db.log, State().(model := m))
      ensures lastProcessed == (if ok then p else old(lastProcessed)) && mutable == old(mutable)
    {
      hide CoreOk, UndoAll, Latest, ReadAt, Data, Journal, Stamps, EntryKeys, Sorted, DataOriginals, Tip, GoodClock, TakenAt,
        Position, DecipherBounds;
      PointsFacts(cfg, db.log, State());
      var found := buffer.PointsSince(p);
      match found {
        case None =>
          MisdirectedFound(cfg, db.log, State(), p);
          return false;
        case Some(blocks) =>
          ghost var c, log, i := State(), db.log, |blocks|;
          DataPrefix(c.points, i);
          ghost var entry := ApplyUndo(db, blocks);
          lastProcessed := p;
          processedMempool := false;
          var undone := buffer.RollbackToPoint(p);
          MisdirectedFound(cfg, log, c, p);
          if p.height < U64_MAX {
            UndoCore(cfg, log, entry, c, p, i);
            model := UndoneCore(c, p, i).model;
          } else {
            MisdirectedBreaks(cfg, log, c, p, State(), db.log);
          }
          return true;
      }
    }

    /** The record only grows: earlier commits and what is known of them stay as they were. */
    ghost predicate Grown(log: Log, m: Model)
      reads this, db
    {
      log <= db.log && m.snaps <= model.snaps
    }

    /** Index a block that extends the tip and commit it, journaled if the stage keeps a journal. */
    method CommitBlock(point: Point, b: Block)
      requires Valid() && db.Ready(1) && model.pending.None?
      requires ValidNext(cfg, model.chain, b) && b.prev == lastProcessed.hash && |model.chain| + 1 < U64_MAX
      requires point == Point(|model.chain| + 1, b.hash)
      modifies this, db, buffer, cache
      ensures Valid() && Grown(old(db.log), old(model)) && |db.log| == |old(db.log)| + 1
      ensures db.previous.Some? && db.ticks == old(db.ticks) + 1
      ensures model.chain == old(model).chain + [b] && model.pending.None?
      ensures mutable == old(mutable)
      ensures model.highest == Max(old(model).highest, |model.chain|)
      ensures model.first ==
        if !mutable then |model.chain| + 1
        else if old(buffer.points) == [] then |model.chain|
        else old(model).first
      ensures |buffer.points| == if mutable then Min(|old(buffer.points)| + 1, cfg.maxRollback + 2) else 0
      ensures model.recorded == if mutable then Min(old(model).recorded + 1, cfg.maxRollback + 1) else 0
    {
      hide CoreOk, Latest, ReadAt, Data, Journal, Stamps, Sorted, GoodClock, TakenAt, ValidNext, ValidChain, Shows, Replay, Resolved, Collected,
        Entries, Coherent, FromCacheOr, OriginalsOf, Committed, BlockWritten, IdsOf, ApplyTxs, RecordTxs, ValidTxs,
        ChainHistory;
      ChainFacts(cfg, db.log, State());
      ghost var c, log := State(), db.log;
      var originals, entry, wb := ApplyBlockTask(cfg, db, cache, mutable, point, b, model.chain);
      lastProcessed := point;
      if originals.Some? {
        buffer.AddBlock(point, originals.value);
      }
      BlockCoreOk(cfg, log, entry, c, b, wb, originals, Cached(cache));
      model := BlockCore(cfg, c, b, originals, Cached(cache)).model;
    }

    /** Index estimated blocks on the tip and commit them under the pseudo-point. */
    method CommitPending(time: nat, blocks: seq<seq<Tx>>)
      requires Valid() && db.Ready(1) && model.pending.None? && buffer.points != []
      requires ValidPending(cfg, model.chain, blocks)
      modifies this, db, buffer, cache
      ensures Valid() && Grown(old(db.log), old(model)) && |db.log| == |old(db.log)| + 1
      ensures db.previous.Some? && db.ticks == old(db.ticks) + 1
      ensures model.chain == old(model).chain && model.pending == Some(blocks)
      ensures mutable == old(mutable) && lastProcessed == old(lastProcessed)
      ensures model.first == old(model).first && model.highest == old(model).highest
      ensures |buffer.points| == Min(|old(buffer.points)| + 1, cfg.maxRollback + 2)
      ensures model.recorded == old(model).recorded + 1
    {
      hide CoreOk, Latest, ReadAt, Data, Journal, Stamps, Sorted, GoodClock, TakenAt, ValidPending, ValidChain, Shows, Replay, Indexed, Resolved,
        Collected, Entries, Coherent, SubMap, OriginalsOf, Committed, ApplyTxs, RecordTxs, ChainHistory;
      ChainFacts(cfg, db.log, State());
      ghost var c, log := State(), db.log;
      var originals, entry, wb := ApplyPendingTask(cfg, db, cache, lastProcessed, time, blocks, model.chain);
      processedMempool := true;
      buffer.AddBlock(Point(U64_MAX, lastProcessed.hash), originals);
      PendingCoreOk(cfg, log, entry, c, blocks, wb, Cached(cache), Some(time));
      model := PendingCore(cfg, c, blocks, originals, Cached(cache)).model;
    }

    /** Undo estimated blocks, if any are applied; with nothing buffered under them that is a panic. */
    method UndoEstimates() returns (ok: bool)
      requires Valid() && db.Ready(1)
      modifies this, db, buffer
      ensures Valid() && Grown(old(db.log), old(model)) && Continues(old(db.ticks), 1)
      ensures ok == !IsStuck(old(Abstract()))
      ensures Abstract() == if ok then old(Abstract()).(pending := None) else old(Abstract())
    {
      hide CoreOk, Sorted, GoodClock, TakenAt, Position, Latest;
      TipFacts(cfg, db.log, State());
      ok := true;
      if processedMempool {
        ok := RollbackToPoint(lastProcessed);
        assert old(model).chain[..|old(model).chain|] == old(model).chain;
      }
    }

    /** A confirmed block: undo estimated blocks first, then offer the block to the tip. */
    method RollForward(point: Point, b: Block, tip: Point) returns (outcome: Outcome)
      requires Valid() && db.Ready(2) && WellFormed(cfg, Abstract(), Event.RollForward(point, b, tip))
      modifies this, db, buffer, cache
      ensures Valid() && Grown(old(db.log), old(model)) && Continues(old(db.ticks), 2)
      ensures Next(Abstract(), outcome) == Forward(cfg, old(Abstract()), point, b, tip)
    {
      hide CoreOk, Sorted, GoodClock, TakenAt, ValidNext, Latest, Tip, AbsOf;
      var ok := UndoEstimates();
      if !ok {
        return Panic;
      }
      outcome := Extend(point, b, tip);
    }

    /** Check the block against the tip, start the journal when the block is near the network's tip, and
        index it. */
    method Extend(point: Point, b: Block, tip: Point) returns (outcome: Outcome)
      requires Valid() && db.Ready(1) && WellFormed(cfg, Abstract(), Event.RollForward(point, b, tip))
      requires Abstract().pending.None?
      modifies this, db, buffer, cache
      ensures Valid() && Grown(old(db.log), old(model)) && Continues(old(db.ticks), 1)
      ensures Next(Abstract(), outcome) == Forward(cfg, old(Abstract()), point, b, tip)
      ensures outcome.Done? ==>
        (Position(buffer.points, point).Some? <==> old(mutable) || point.height + cfg.maxRollback > tip.height)
    {
      hide CoreOk, Sorted, GoodClock, TakenAt, ValidNext, Position;
      ghost var c, log := State(), db.log;
      TipFacts(cfg, db.log, State());
      var expected := lastProcessed.height + 1;
      if point.height < expected {
        return Skipped;
      } else if point.height > expected {
        return Panic;
      }
      if b.prev != lastProcessed.hash {
        return Panic;
      }
      MutableOk(cfg, db.log, State());
      mutable := mutable || point.height > Max(0, tip.height - cfg.maxRollback);
      CommitBlock(point, b);
      Journaled(cfg, log, c, db.log, State(), Event.RollForward(point, b, tip));
      return Done;
    }

    /** A rollback: the points after `to` are undone, or the stage panics when `to` is not buffered. It
        keeps the stage sound exactly when `to` is not the pseudo-point of applied estimates. */
    method RollBack(to: Point) returns (outcome: Outcome)
      requires Valid() && db.Ready(1)
      modifies this, db, buffer
      ensures Grown(old(db.log), old(model)) && Continues(old(db.ticks), 1)
      ensures Valid() <==> !Misdirected(cfg, old(Abstract()), Event.RollBack(to))
      ensures Valid() ==> Next(Abstract(), outcome) == Back(cfg, old(Abstract()), to)
      ensures !Valid() ==> Lost(old(db.log), to) && outcome == Done
    {
      hide CoreOk, Sorted, GoodClock, TakenAt, Position, Latest, Tip;
      if to.height < U64_MAX {
        Findable(cfg, db.log, State(), to);
      } else {
        PseudoFindable(cfg, db.log, State(), to);
      }
      var ok := RollbackToPoint(to);
      return if ok then Done else Panic;
    }

    /** What is left of a rollback to the pseudo-point: the data as they were, the stage somewhere else, and
        nothing that would explain it. */
    ghost predicate Lost(log: Log, to: Point)
      reads this, db, buffer, cache
    {
      && lastProcessed == to && !processedMempool && Latest(db.log) == Latest(log)
      && forall m :: !CoreOk(cfg, db.log, State().(model := m))
    }

    /** The clock was read a few times and the store remembers its last timestamp if it has moved on. */
    ghost predicate Continues(ticks: nat, n: nat)
      reads this, db
    {
      db.ticks <= ticks + n && db.Later()
    }

    /** Estimated blocks: the earlier ones are undone, and the new ones are indexed if they were built on
        the current tip. */
    method MempoolBlocks(time: nat, tipHash: Hash, blocks: seq<seq<Tx>>) returns (outcome: Outcome)
      requires Valid() && db.Ready(2) && WellFormed(cfg, Abstract(), Event.MempoolBlocks(time, tipHash, blocks))
      modifies this, db, buffer, cache
      ensures Valid() && Grown(old(db.log), old(model)) && Continues(old(db.ticks), 2)
      ensures Next(Abstract(), outcome) == Estimate(cfg, old(Abstract()), tipHash, blocks)
      ensures Promised(cfg, old(Abstract()), Event.MempoolBlocks(time, tipHash, blocks), Abstract(), outcome)
      ensures outcome.Panic? <==> Position(old(buffer.points), old(lastProcessed)).None?
    {
      hide CoreOk, Sorted, GoodClock, TakenAt, ValidPending, Position;
      TipFacts(cfg, db.log, State());
      StepPromised(cfg, Abstract(), Event.MempoolBlocks(time, tipHash, blocks));
      var trueTip := lastProcessed;
      var undo := buffer.PointsSince(trueTip);
      if undo.None? {
        return Panic;
      }
      if undo.value != [] {
        var ok := RollbackToPoint(trueTip);
        assert old(model).chain[..|old(model).chain|] == old(model).chain;
      }
      if tipHash != lastProcessed.hash {
        return Skipped;
      }
      CommitPending(time, blocks);
      return Done;
    }

    /** One event. The store, with its journal, cache and buffer, moves exactly as the small machine does,
        and goes on showing the index of the machine's chain and estimated blocks; the one exception is a
        rollback that names the pseudo-point of applied estimates. */
    method Execute(e: Event) returns (outcome: Outcome)
      requires Valid() && db.Ready(2) && WellFormed(cfg, Abstract(), e)
      modifies this, db, buffer, cache
      ensures Grown(old(db.log), old(model)) && Continues(old(db.ticks), 2)
      ensures Valid() <==> !Misdirected(cfg, old(Abstract()), e)
      ensures Valid() ==>
        && Next(Abstract(), outcome) == Step(cfg, old(Abstract()), e)
        && Promised(cfg, old(Abstract()), e, Abstract(), outcome)
        && Shows(Latest(db.log), Indexed(cfg, Abstract().chain, Abstract().pending))
      ensures e.MempoolBlocks? && outcome.Done? ==>
        Shows(Latest(db.log), Indexed(cfg, old(Abstract()).chain, Some(e.blocks)))
      ensures e.RollForward? && outcome.Done? ==>
        (Position(buffer.points, e.point).Some? <==> old(mutable) || e.point.height + cfg.maxRollback > e.tip.height)
      ensures !Valid() ==> e.RollBack? && Lost(old(db.log), e.to) && outcome == Done
    {
      hide CoreOk, Sorted, GoodClock, TakenAt, ValidPending, ValidNext, Forward, Back, Estimate, Latest, Indexed, Shows,
        Position, Undoable, AbsOf, Tip;
      ghost var a := Abstract();
      StepPromised(cfg, a, e);
      match e {
        case RollForward(point, b, tip) => outcome := RollForward(point, b, tip);
        case RollBack(to) => outcome := RollBack(to);
        case MempoolBlocks(time, tipHash, blocks) => outcome := MempoolBlocks(time, tipHash, blocks);
      }
      if Valid() {
        IndexFacts(cfg, db.log, State());
      }
      if e.RollForward? && outcome.Done? {
        Journaled(cfg, old(db.log), old(State()), db.log, State(), e);
      }
    }
  }

  /** An applied block is buffered exactly when the stage was journaling already or the block is within the
      rollback limit of the network's tip. */
  lemma Journaled(cfg: Config, log: Log, c: CoreState, log': Log, z: CoreState, e: Event)
    requires CoreOk(cfg, log, c) && CoreOk(cfg, log', z)
    requires e.RollForward? && WellFormed(cfg, AbsOf(c), e)
    requires Step(cfg, AbsOf(c), e) == Next(AbsOf(z), Done)
    ensures Position(z.points, e.point).Some? <==> c.mutable || e.point.height + cfg.maxRollback > e.tip.height
  {
    hide CoreOk, AbsOk, ValidNext, Position, Undoable, Tip, Forward;
    SoundIsDeep(cfg, log, c);
    JournalingStarts(cfg, AbsOf(c), e.point, e.block, e.tip);
    AppliedHeight(cfg, AbsOf(c), e);
    Findable(cfg, log', z, e.point);
  }

  lemma AppliedHeight(cfg: Config, a: Abs, e: Event)
    requires e.RollForward? && WellFormed(cfg, a, e) && Step(cfg, a, e).outcome.Done?
    ensures e.point.height < U64_MAX
  {
    hide ValidNext;
  }

  /** Commit the inverse of some points. */
  method ApplyUndo(db: StorageHandler, points: seq<PointKvs>) returns (ghost entry: Commit)
    requires db.Valid() && db.Ready(1) && DataOriginals(points)
    modifies db
    ensures db.Valid() && db.previous.Some? && db.ticks == old(db.ticks) + 1
    ensures db.log == old(db.log) + [entry]
    ensures Data(Latest(db.log)) == UndoAll(Data(Latest(old(db.log))), points)
    ensures Journal(Latest(db.log)) == Journal(Latest(old(db.log))) - EntryKeys(points)
    ensures Stamps(Latest(db.log)) == Stamps(Latest(old(db.log)))
    ensures points == [] ==> entry.batch == [] && Latest(db.log) == Latest(old(db.log))
  {
    hide UndoAll, Latest, Data, Journal, Stamps, EntryKeys, Sorted, DataOriginals, GoodClock, TakenAt;
    var ts := db.NextTimestamp();
    var batch := UndoBatch(points, Latest(db.log));
    LatestSnoc(db.log, Commit(ts.AsU64(), batch));
    db.Write(batch, ts);
    entry := Commit(ts.AsU64(), batch);
  }

  /** Index estimated blocks over a fresh journaling task and commit it. */
  method ApplyPendingTask(
    cfg: Config, db: StorageHandler, cache: UtxoCache?, tip: Point, time: nat, blocks: seq<seq<Tx>>, ghost chain: seq<Block>)
    returns (originals: Originals, ghost entry: Commit, ghost wb: Buffer)
    requires db.Valid() && db.Ready(1)
    requires Premises(cfg) && ValidChain(cfg, chain) && ValidPending(cfg, chain, blocks) && tip == Tip(cfg, chain)
    requires Shows(Latest(db.log), Replay(cfg, chain)) && Coherent(Cached(cache), Latest(db.log))
    modifies db, cache
    ensures db.Valid() && db.previous.Some? && db.ticks == old(db.ticks) + 1
    ensures db.log == old(db.log) + [entry]
    ensures Committed(old(db.log), entry, wb, Indexed(cfg, chain, Some(blocks)))
    ensures originals == OriginalsOf(Latest(old(db.log)), wb.Keys)
    ensures Journal(Latest(db.log)) == Journal(Latest(old(db.log))) + Entries(U64_MAX, tip.hash, originals)
    ensures Stamps(Latest(db.log)) == Stamps(Latest(old(db.log)))[TimestampKey(Mempool) :=
      TimestampV(TimestampEntry(|chain| + |blocks|, tip.hash, entry.ts, Some(time)))]
    ensures SubMap(Cached(cache), old(Cached(cache)))
  {
    hide Latest, ReadAt, Data, Journal, Stamps, Sorted, GoodClock, TakenAt, ValidPending, ValidChain, Shows, Replay, Indexed, Resolved, Collected,
      Entries, Coherent, SubMap, OriginalsOf, Premises, ApplyTxs, RecordTxs, ChainHistory;
    var task := db.BeginTask(true, true);
    IndexPending(cfg, task, cache, tip, blocks, chain);
    originals, wb := task.originals.value, task.writeBuffer;
    var point := Point(tip.height + |blocks|, tip.hash);
    db.ApplyIndexingTask(FinalizedTask(task.writeBuffer, task.originals, true), point, cfg.maxRollback, Some(time));
    entry := LastEntry(old(db.log), db.log);
  }

  /** Index a confirmed block over a fresh task and commit it. */
  method ApplyBlockTask(
    cfg: Config, db: StorageHandler, cache: UtxoCache?, journaling: bool, point: Point, b: Block, ghost chain: seq<Block>)
    returns (originals: Option<Originals>, ghost entry: Commit, ghost wb: Buffer)
    requires db.Valid() && db.Ready(1)
    requires Premises(cfg) && ValidChain(cfg, chain) && ValidNext(cfg, chain, b)
    requires point == Point(|chain| + 1, b.hash)
    requires Shows(Latest(db.log), Replay(cfg, chain)) && Coherent(Cached(cache), Latest(db.log))
    modifies db, cache
    ensures db.Valid() && db.previous.Some? && db.ticks == old(db.ticks) + 1
    ensures db.log == old(db.log) + [entry]
    ensures Committed(old(db.log), entry, wb, Replay(cfg, chain + [b]))
    ensures originals.Some? == journaling
    ensures originals.Some? ==> originals.value == OriginalsOf(Latest(old(db.log)), wb.Keys)
    ensures BlockWritten(cfg, Latest(old(db.log)), Latest(db.log), point, entry.ts, originals)
    ensures Coherent(Cached(cache), Resolved(Latest(old(db.log)), wb))
    ensures FromCacheOr(Cached(cache), old(Cached(cache)), IdsOf(b.txs))
  {
    hide Latest, ReadAt, Data, Journal, Stamps, Sorted, GoodClock, TakenAt, ValidNext, ValidChain, Shows, Replay, Resolved, Collected,
      Entries, Coherent, FromCacheOr, OriginalsOf, IdsOf, Premises, ApplyTxs, RecordTxs, ValidTxs, ChainHistory;
    var task := db.BeginTask(journaling, false);
    IndexBlock(cfg, task, cache, b, point, chain);
    originals, wb := task.originals, task.writeBuffer;
    db.ApplyIndexingTask(FinalizedTask(task.writeBuffer, task.originals, false), point, cfg.maxRollback, None);
    entry := LastEntry(old(db.log), db.log);
  }

  /** What a block needs to know about a sound state without estimated blocks. */
  lemma ChainFacts(cfg: Config, log: Log, c: CoreState)
    requires CoreOk(cfg, log, c) && c.model.pending.None?
    ensures Premises(cfg) && ValidChain(cfg, c.model.chain) && c.model.recorded <= |c.points|
    ensures Shows(Latest(log), Replay(cfg, c.model.chain)) && Coherent(c.cache, Latest(log))
    ensures c.last == Tip(cfg, c.model.chain) && !c.mempool && (c.points != [] ==> c.mutable)
  {
    CoreFacts(cfg, log, c);
  }

  ghost function AbsOf(c: CoreState): Abs {
    var m := c.model;
    Abs(m.chain, m.pending, Less(|c.points|, Front(m.pending)), Less(m.recorded, Front(m.pending)), c.mutable,
        m.first, m.highest)
  }

  lemma IndexFacts(cfg: Config, log: Log, c: CoreState)
    requires CoreOk(cfg, log, c)
    ensures Shows(Latest(log), Indexed(cfg, AbsOf(c).chain, AbsOf(c).pending))
  {
    hide Indexed, Shows, BufferIs, RunOk, CacheOk;
  }

  /** Every sound state of the stage is a sound state of the machine, so the depth guarantee holds of it
      even after restarts. */
  lemma SoundIsDeep(cfg: Config, log: Log, c: CoreState)
    requires CoreOk(cfg, log, c)
    ensures AbsOk(cfg, AbsOf(c))
  {
    hide Replay, CommitOk, Shows, JournalIs, ConfirmedAt, PendingPoint, ValidChain, ValidPending;
  }

  /** A point is buffered exactly when the machine says it can be undone, and then this far down. */
  lemma Findable(cfg: Config, log: Log, c: CoreState, p: Point)
    requires CoreOk(cfg, log, c) && p.height < U64_MAX
    ensures Position(c.points, p).Some? <==> Undoable(cfg, AbsOf(c), p)
    ensures Undoable(cfg, AbsOf(c), p) ==>
      Position(c.points, p).value == |c.model.chain| - p.height + Front(c.model.pending) < |c.points|
  {
    hide Replay, CommitOk, Shows, JournalIs, ConfirmedAt, PendingPoint;
    var m := c.model;
    if Position(c.points, p).Some? {
      RollbackTarget(cfg, m.chain, m.pending, c.points, p, Position(c.points, p).value);
    }
    if 1 <= p.height <= |m.chain| {
      PositionOf(cfg, m.chain, m.pending, c.points, p.height);
    }
  }

  /** At the greatest height only the pseudo-point of applied estimates is buffered. */
  lemma PseudoFindable(cfg: Config, log: Log, c: CoreState, p: Point)
    requires CoreOk(cfg, log, c) && p.height >= U64_MAX
    ensures Position(c.points, p) ==
      if c.model.pending.Some? && p == PseudoPoint(cfg, AbsOf(c)) then Some(0) else None
    ensures !Undoable(cfg, AbsOf(c), p)
  {
    hide Replay, CommitOk, Shows, JournalIs, ConfirmedAt;
    CoreFacts(cfg, log, c);
    BufferOrdered(cfg, c.model.chain, c.model.pending, c.points);
  }

  /** A misdirected rollback is found, in front of the buffer; any other found point is below. */
  lemma MisdirectedFound(cfg: Config, log: Log, c: CoreState, p: Point)
    requires CoreOk(cfg, log, c)
    ensures Misdirected(cfg, AbsOf(c), RollBack(p)) ==> Position(c.points, p) == Some(0)
    ensures Position(c.points, p).Some? ==> (p.height >= U64_MAX <==> Misdirected(cfg, AbsOf(c), RollBack(p)))
  {
    if p.height >= U64_MAX {
      PseudoFindable(cfg, log, c, p);
    }
  }

  /** The state after it: whatever chain one takes, `last_processed` is not its tip. */
  lemma MisdirectedBreaks(cfg: Config, log: Log, c: CoreState, p: Point, after: CoreState, log': Log)
    requires CoreOk(cfg, log, c) && p.height >= U64_MAX && after.last == p
    ensures forall m :: !CoreOk(cfg, log', after.(model := m))
  {
    hide CoreOk;
    forall m
      ensures !CoreOk(cfg, log', after.(model := m))
    {
      if CoreOk(cfg, log', after.(model := m)) {
        TipHeightSmall(cfg, log', after.(model := m));
      }
    }
  }

  lemma TipHeightSmall(cfg: Config, log: Log, c: CoreState)
    requires CoreOk(cfg, log, c)
    ensures c.last.height < U64_MAX
  {
    CoreFacts(cfg, log, c);
  }

  /** What the checks on the tip rely on. */
  lemma TipFacts(cfg: Config, log: Log, c: CoreState)
    requires CoreOk(cfg, log, c)
    ensures |c.model.chain| < U64_MAX && c.last == Tip(cfg, c.model.chain) && |c.model.chain| <= c.model.highest
    ensures c.mempool == c.model.pending.Some?
    ensures c.model.pending.Some? ==> c.points != []
    ensures Position(c.points, c.last) == if AbsOf(c).kept > 0 then Some(Front(c.model.pending)) else None
  {
    hide Replay, CommitOk, Shows, JournalIs, ConfirmedAt, PendingPoint;
    Findable(cfg, log, c, c.last);
    assert c.model.chain[..|c.model.chain|] == c.model.chain;
  }

  lemma MutableOk(cfg: Config, log: Log, c: CoreState)
    requires CoreOk(cfg, log, c)
    ensures CoreOk(cfg, log, c.(mutable := true))
  {
  }

  /** The one commit by which a log grew. */
  ghost function LastEntry(log: Log, grown: Log): (c: Commit)
    requires |grown| == |log| + 1 && grown[..|log|] == log
    ensures grown == log + [c]
  {
    grown[|log|]
  }

  lemma DataPrefix(points: seq<PointKvs>, i: nat)
    requires DataOriginals(points) && i <= |points|
    ensures DataOriginals(points[..i])
  {
  }
}
