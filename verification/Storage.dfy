/** The versioned store: a log of atomic, timestamped batches, read as of a timestamp, and the handler
    that opens tasks over it and commits them with their journal. */
module Storage {
  import opened Wrappers
  import opened Types
  import opened MergeOps
  import opened Task
  import opened Timestamps

  datatype BatchOp =
    | Put(key: Key, value: Value)
    | Del(key: Key)
    | Mrg(key: Key, op: MergeOp)
    | DelJournalBelow(height: nat)

  type Batch = seq<BatchOp>

  datatype Commit = Commit(ts: nat, batch: Batch)

  type Log = seq<Commit>

  function ApplyBatchOp(d: Kv, o: BatchOp): Kv {
    match o
    case Put(k, v) => d[k := v]
    case Del(k) => d - {k}
    case Mrg(k, op) => d[k := NumV(ApplyOp(op, Base(Lookup(d, k))))]
    case DelJournalBelow(h) => map k | k in d && !(k.JournalKey? && k.height < h) :: d[k]
  }

  /** Within a batch the last write to a key wins. */
  function ApplyBatch(d: Kv, b: Batch): Kv {
    if b == [] then d else ApplyBatchOp(ApplyBatch(d, b[..|b| - 1]), b[|b| - 1])
  }

  lemma ApplyBatchSnoc(d: Kv, b: Batch, o: BatchOp)
    ensures ApplyBatch(d, b + [o]) == ApplyBatchOp(ApplyBatch(d, b), o)
  {
    assert (b + [o])[..|b|] == b;
  }

  /** The store as of a timestamp. */
  function ReadAt(log: Log, ts: nat): Kv {
    if log == [] then map[]
    else
      var d := ReadAt(log[..|log| - 1], ts);
      var c := log[|log| - 1];
      if c.ts <= ts then ApplyBatch(d, c.batch) else d
  }

  ghost predicate Sorted(log: Log) {
    && (forall i, j | 0 <= i < j < |log| :: log[i].ts < log[j].ts)
    && (forall i | 0 <= i < |log| :: log[i].ts <= U64_MAX)
  }

  /** The whole log, read at the end of time. */
  function Latest(log: Log): Kv {
    ReadAt(log, U64_MAX)
  }

  lemma {:induction false} ReadAtAll(log: Log, ts: nat)
    requires Sorted(log) && (log != [] ==> log[|log| - 1].ts <= ts)
    ensures ReadAt(log, ts) == Latest(log)
  {
    if log != [] {
      var init := log[..|log| - 1];
      ReadAtAll(init, ts);
    }
  }

  /** Commits with later timestamps do not change what is read at an earlier one. */
  lemma {:induction false} ReadAtStable(log: Log, n: nat, ts: nat)
    requires Sorted(log) && n <= |log|
    requires n < |log| ==> ts < log[n].ts
    requires n > 0 ==> log[n - 1].ts <= ts
    ensures ReadAt(log, ts) == Latest(log[..n])
  {
    if n == |log| {
      assert log[..n] == log;
      ReadAtAll(log, ts);
    } else {
      var init := log[..|log| - 1];
      assert init[..n] == log[..n];
      ReadAtStable(init, n, ts);
    }
  }

  lemma LatestSnoc(log: Log, c: Commit)
    requires c.ts <= U64_MAX
    ensures Latest(log + [c]) == ApplyBatch(Latest(log), c.batch)
  {
    assert (log + [c])[..|log|] == log;
  }

  // --- reading by timestamp

  /** Put a commit where its timestamp belongs, after those not later than it. */
  function InsertByTime(log: Log, c: Commit): Log {
    if log == [] || log[|log| - 1].ts <= c.ts then log + [c]
    else InsertByTime(log[..|log| - 1], c) + [log[|log| - 1]]
  }

  function ByTime(log: Log): Log {
    if log == [] then [] else InsertByTime(ByTime(log[..|log| - 1]), log[|log| - 1])
  }

  /** What the store returns: versions count in the order of their timestamps, not of their arrival. */
  function ReadByTime(log: Log, ts: nat): Kv {
    ReadAt(ByTime(log), ts)
  }

  /** While timestamps increase that is the order of arrival. */
  lemma {:induction false} SortedByTime(log: Log)
    requires Sorted(log)
    ensures ByTime(log) == log
  {
    hide Sorted;
    if log != [] {
      SortedInit(log);
      SortedByTime(log[..|log| - 1]);
    }
  }

  lemma SortedInit(log: Log)
    requires Sorted(log) && log != []
    ensures var init := log[..|log| - 1];
            && Sorted(init) && log[|log| - 1].ts <= U64_MAX
            && (init != [] ==> init[|init| - 1].ts < log[|log| - 1].ts)
  {
  }

  /** What a latest read returns after one more commit, by its timestamp: the commit's writes come last
      when it is not earlier than the last one, and lie under the last one's writes when it is. */
  lemma NextCommitRead(log: Log, c: Commit)
    requires Sorted(log) && log != [] && c.ts <= U64_MAX
    ensures var last := log[|log| - 1];
            if last.ts <= c.ts then ReadByTime(log + [c], U64_MAX) == ApplyBatch(Latest(log), c.batch)
            else ReadByTime(log + [c], U64_MAX) == ApplyBatch(ReadByTime(log[..|log| - 1] + [c], U64_MAX), last.batch)
  {
    hide ApplyBatch, ReadAt, Sorted;
    var init, last := log[..|log| - 1], log[|log| - 1];
    SortedByTime(log);
    SortedInit(log);
    SortedByTime(init);
    assert (log + [c])[..|log|] == log && (init + [c])[..|init|] == init;
    if last.ts <= c.ts {
      LatestSnoc(log, c);
    } else {
      LatestSnoc(InsertByTime(init, c), last);
    }
  }

  /** A process restarted in second 100, after two commits in it, overwrites a key with its first commit,
      and a latest read still returns the old value. */
  lemma RestartLosesWrite(k: Key, older: Value, last: Value, next: Value)
    ensures var log := [Commit(New(100).AsU64(), [Put(k, older)]), Commit(After(New(100), 100).AsU64(), [Put(k, last)])];
            var c := Commit(New(100).AsU64(), [Put(k, next)]);
            && Sorted(log)
            && Lookup(ReadByTime(log + [c], U64_MAX), k) == Some(last)
  {
    var log := [Commit(New(100).AsU64(), [Put(k, older)]), Commit(After(New(100), 100).AsU64(), [Put(k, last)])];
    var c := Commit(New(100).AsU64(), [Put(k, next)]);
    NextCommitRead(log, c);
  }

  // --- the parts of the store

  function Data(d: Kv): Kv {
    map k | k in d && IsData(k) :: d[k]
  }

  function Journal(d: Kv): Kv {
    map k | k in d && k.JournalKey? :: d[k]
  }

  function Stamps(d: Kv): Kv {
    map k | k in d && k.TimestampKey? :: d[k]
  }

  function StampAt(d: Kv, kind: PointKind): Option<TimestampEntry> {
    match Lookup(d, TimestampKey(kind))
    case Some(TimestampV(e)) => Some(e)
    case _ => None
  }

  /** The journal entries of one point. */
  function Entries(height: nat, hash: Hash, originals: map<Key, Option<Value>>): Kv {
    map k | k in (set x | x in originals :: JournalKey(height, hash, x)) :: PreviousV(originals[k.key])
  }

  function Collected(journal: Kv, below: nat): Kv {
    map k | k in journal && !(k.JournalKey? && k.height < below) :: journal[k]
  }

  lemma DataOfResolved(d: Kv, wb: Buffer)
    requires forall k | k in wb :: IsData(k)
    ensures Data(Resolved(d, wb)) == Resolved(Data(d), wb)
    ensures Journal(Resolved(d, wb)) == Journal(d)
    ensures Stamps(Resolved(d, wb)) == Stamps(d)
  {
    assert forall k | IsData(k) :: Lookup(Data(d), k) == Lookup(d, k);
    assert forall k :: Lookup(Resolved(d, wb), k) == Seen(d, wb, k);
    SameLookups(Data(Resolved(d, wb)), Resolved(Data(d), wb));
  }

  // --- the batch of a task

  function ActionOp(k: Key, a: Action): BatchOp {
    match a
    case Set(v) => Put(k, v)
    case Delete => Del(k)
    case Merge(op) => Mrg(k, op)
  }

  /** The order in which a hash map's entries are visited does not matter: writing the actions of any set
      of keys, in any order, resolves exactly those keys. */
  lemma ActionStep(d: Kv, wb: Buffer, done: set<Key>, k: Key)
    requires k in wb && k !in done
    ensures ApplyBatchOp(Resolved(d, Restrict(wb, done)), ActionOp(k, wb[k])) == Resolved(d, Restrict(wb, done + {k}))
  {
    var left := ApplyBatchOp(Resolved(d, Restrict(wb, done)), ActionOp(k, wb[k]));
    var right := Resolved(d, Restrict(wb, done + {k}));
    assert forall x :: Lookup(Resolved(d, Restrict(wb, done)), x) == Seen(d, Restrict(wb, done), x);
    assert forall x :: Lookup(right, x) == Seen(d, Restrict(wb, done + {k}), x);
    SameLookups(left, right);
  }

  lemma EntriesAt(height: nat, hash: Hash, o: map<Key, Option<Value>>, x: Key)
    ensures Lookup(Entries(height, hash, o), x) ==
      if x.JournalKey? && x == JournalKey(height, hash, x.key) && x.key in o then Some(PreviousV(o[x.key])) else None
  {
  }

  lemma EntriesStep(d: Kv, height: nat, hash: Hash, o: map<Key, Option<Value>>, done: set<Key>, k: Key)
    requires k in o && k !in done
    ensures ApplyBatchOp(d + Entries(height, hash, Restrict(o, done)),
                         Put(JournalKey(height, hash, k), PreviousV(o[k])))
         == d + Entries(height, hash, Restrict(o, done + {k}))
  {
    hide Entries;
    var before, after := Entries(height, hash, Restrict(o, done)), Entries(height, hash, Restrict(o, done + {k}));
    var left := ApplyBatchOp(d + before, Put(JournalKey(height, hash, k), PreviousV(o[k])));
    forall x
      ensures Lookup(left, x) == Lookup(d + after, x)
    {
      EntriesAt(height, hash, Restrict(o, done), x);
      EntriesAt(height, hash, Restrict(o, done + {k}), x);
    }
    SameLookups(left, d + after);
  }

  lemma PartsOfEntries(d: Kv, entries: Kv)
    requires forall k | k in entries :: k.JournalKey?
    ensures Data(d + entries) == Data(d)
    ensures Journal(d + entries) == Journal(d) + entries
    ensures Stamps(d + entries) == Stamps(d)
  {
  }

  lemma PartsOfCollection(d: Kv, below: nat)
    ensures var d' := ApplyBatchOp(d, DelJournalBelow(below));
            Data(d') == Data(d) && Journal(d') == Collected(Journal(d), below) && Stamps(d') == Stamps(d)
  {
  }

  lemma PartsOfStamp(d: Kv, kind: PointKind, v: Value)
    ensures var d' := d[TimestampKey(kind) := v];
            Data(d') == Data(d) && Journal(d') == Journal(d) && Stamps(d') == Stamps(d)[TimestampKey(kind) := v]
  {
  }

  // --- the handler

  datatype FinalizedTask = FinalizedTask(writeBuffer: Buffer, originals: Option<map<Key, Option<Value>>>, mempool: bool)

  class StorageHandler {
    var log: Log
    var previous: Option<Timestamp>
    const clock: nat -> nat
    const horizon: nat
    /** How many readings of the clock were taken. */
    var ticks: nat

    /** Timestamps in the log increase, and the last one is the remembered one, if any is. */
    ghost predicate Valid()
      reads this
    {
      && Sorted(log) && GoodClock(clock, horizon) && ticks <= horizon
      && (previous.Some? ==>
            log != [] && log[|log| - 1].ts == previous.value.AsU64() && TakenAt(clock, ticks, previous.value))
    }

    /** A process that remembers no timestamp, but finds commits, has seen their last second pass. */
    ghost predicate Later()
      reads this
    {
      previous.None? && log != [] ==> Second(log[|log| - 1].ts) < clock(ticks)
    }

    /** The clock can be read `n` more times, the first time later than the last commit. */
    ghost predicate Ready(n: nat)
      reads this
    {
      ticks + n <= horizon && Later()
    }

    constructor (clock: nat -> nat, horizon: nat)
      requires GoodClock(clock, horizon)
      ensures Valid() && log == [] && previous == None
      ensures this.clock == clock && this.horizon == horizon && ticks == 0
    {
      log := [];
      previous := None;
      this.clock := clock;
      this.horizon := horizon;
      ticks := 0;
    }

    /** A process that starts over what earlier ones committed; it does not look for their timestamps. */
    constructor Reopen(log: Log, clock: nat -> nat, horizon: nat, ticks: nat)
      requires Sorted(log) && GoodClock(clock, horizon) && ticks <= horizon
      ensures Valid() && this.log == log && previous == None
      ensures this.clock == clock && this.horizon == horizon && this.ticks == ticks
    {
      this.log := log;
      previous := None;
      this.clock := clock;
      this.horizon := horizon;
      this.ticks := ticks;
    }

    method Now() returns (now: nat)
      requires ticks < horizon
      modifies this`ticks
      ensures now == clock(old(ticks)) && ticks == old(ticks) + 1
    {
      now := clock(ticks);
      ticks := ticks + 1;
    }

    /** The next timestamp. It is later than the last commit's, except for the first one a process takes
        within the last commit's second. */
    method NextTimestamp() returns (t: Timestamp)
      requires Valid() && ticks < horizon
      modifies this`ticks
      ensures ticks == old(ticks) + 1 && t.physical == clock(old(ticks))
      ensures TakenAt(clock, ticks, t) && t.AsU64() <= U64_MAX
      ensures log != [] ==> (log[|log| - 1].ts < t.AsU64() <==> previous.Some? || Second(log[|log| - 1].ts) < t.physical)
    {
      hide Sorted;
      var now := Now();
      assert clock(ticks - 1) < CLOCK_LIMIT;
      match previous {
        case Some(p) =>
          t := After(p, now);
          TakesNext(clock, horizon, ticks - 1, p);
        case None =>
          t := New(now);
          if log != [] {
            RoundTrip(log[|log| - 1].ts);
            RestartIncreases(FromU64(log[|log| - 1].ts), now);
          }
      }
      PackedFits(t);
    }

    /** Append a batch at a new timestamp. */
    method Write(batch: Batch, ts: Timestamp)
      requires Sorted(log) && GoodClock(clock, horizon) && ticks <= horizon
      requires TakenAt(clock, ticks, ts) && ts.AsU64() <= U64_MAX
      requires log != [] ==> log[|log| - 1].ts < ts.AsU64()
      modifies this`log, this`previous
      ensures Valid() && previous == Some(ts)
      ensures log == old(log) + [Commit(ts.AsU64(), batch)]
      ensures Latest(log) == ApplyBatch(Latest(old(log)), batch)
    {
      hide GoodClock, TakenAt, ReadAt;
      LatestSnoc(log, Commit(ts.AsU64(), batch));
      log := log + [Commit(ts.AsU64(), batch)];
      previous := Some(ts);
    }

    /** A task reads the store as of the last commit of this process, or all of it. */
    method BeginTask(journaling: bool, mempool: bool) returns (task: IndexingTask)
      requires Valid()
      ensures fresh(task) && task.Valid() && task.CountersClean()
      ensures task.snapshot == Latest(log) == task.View() && task.mempool == mempool
      ensures task.originals.Some? == journaling && task.writeBuffer == map[]
    {
      var readTs := match previous { case Some(p) => p.AsU64() case None => U64_MAX };
      ReadAtAll(log, readTs);
      task := new IndexingTask(ReadAt(log, readTs), journaling, mempool);
    }

    /** The buffered actions, as batch operations. */
    method ActionBatch(wb: Buffer, ghost d: Kv) returns (batch: Batch)
      ensures ApplyBatch(d, batch) == Resolved(d, wb)
    {
      batch := [];
      var todo := wb.Keys;
      ghost var done: set<Key> := {};
      SameLookups(Resolved(d, Restrict(wb, done)), d);
      while todo != {}
        invariant done + todo == wb.Keys && done !! todo
        invariant ApplyBatch(d, batch) == Resolved(d, Restrict(wb, done))
        decreases todo
      {
        var k :| k in todo;
        ApplyBatchSnoc(d, batch, ActionOp(k, wb[k]));
        ActionStep(d, wb, done, k);
        batch := batch + [ActionOp(k, wb[k])];
        todo, done := todo - {k}, done + {k};
      }
      assert done == wb.Keys;
      RestrictAll(wb);
    }

    /** The journal entries of a point, as batch operations. */
    method JournalBatch(height: nat, hash: Hash, originals: map<Key, Option<Value>>, ghost d: Kv)
      returns (batch: Batch)
      ensures ApplyBatch(d, batch) == d + Entries(height, hash, originals)
    {
      batch := [];
      var todo := originals.Keys;
      ghost var done: set<Key> := {};
      assert d + Entries(height, hash, Restrict(originals, done)) == d;
      while todo != {}
        invariant done + todo == originals.Keys && done !! todo
        invariant ApplyBatch(d, batch) == d + Entries(height, hash, Restrict(originals, done))
        decreases todo
      {
        var k :| k in todo;
        var put := Put(JournalKey(height, hash, k), PreviousV(originals[k]));
        ApplyBatchSnoc(d, batch, put);
        EntriesStep(d, height, hash, originals, done, k);
        batch := batch + [put];
        todo, done := todo - {k}, done + {k};
      }
      assert Restrict(originals, done) == originals;
    }

    /** Commit a task: its actions, its journal under the point (under the greatest height when the
        point is a mempool one), the collection of old journal entries, and the timestamp entry, in one
        atomic batch. */
    method ApplyIndexingTask(task: FinalizedTask, point: Point, maxRollback: nat, mempoolTime: Option<nat>)
      requires Valid() && Ready(1)
      requires forall k | k in task.writeBuffer :: IsData(k)
      modifies this
      ensures Valid() && |log| == |old(log)| + 1 && log[..|old(log)|] == old(log)
      ensures previous.Some? && ticks == old(ticks) + 1
      ensures Data(Latest(log)) == Resolved(Data(Latest(old(log))), task.writeBuffer)
      ensures Journal(Latest(log)) ==
        match task.originals
        case None => Journal(Latest(old(log)))
        case Some(o) =>
          if task.mempool then Journal(Latest(old(log))) + Entries(U64_MAX, point.hash, o)
          else Collected(Journal(Latest(old(log))) + Entries(point.height, point.hash, o),
                         Max(0, point.height - maxRollback))
      ensures Stamps(Latest(log)) ==
        Stamps(Latest(old(log)))[TimestampKey(if task.mempool then Mempool else Confirmed) :=
          TimestampV(TimestampEntry(point.height, point.hash, log[|log| - 1].ts, mempoolTime))]
    {
      hide GoodClock, TakenAt, ReadAt, Sorted, Data, Journal, Stamps, Resolved, Entries, Collected;
      ghost var d := Latest(log);
      var ts := NextTimestamp();
      var batch := ActionBatch(task.writeBuffer, d);
      DataOfResolved(d, task.writeBuffer);
      if task.originals.Some? {
        batch := AddJournal(batch, task.originals.value, task.mempool, point, maxRollback, d);
      }
      var kind := if task.mempool then Mempool else Confirmed;
      var stamp := TimestampV(TimestampEntry(point.height, point.hash, ts.AsU64(), mempoolTime));
      ApplyBatchSnoc(d, batch, Put(TimestampKey(kind), stamp));
      PartsOfStamp(ApplyBatch(d, batch), kind, stamp);
      Write(batch + [Put(TimestampKey(kind), stamp)], ts);
    }

    /** Append a point's journal to a batch and, for a confirmed point, drop what is now too old. */
    method AddJournal(
      batch: Batch, originals: map<Key, Option<Value>>, mempool: bool, point: Point, maxRollback: nat, ghost d: Kv)
      returns (r: Batch)
      ensures Data(ApplyBatch(d, r)) == Data(ApplyBatch(d, batch))
      ensures Stamps(ApplyBatch(d, r)) == Stamps(ApplyBatch(d, batch))
      ensures Journal(ApplyBatch(d, r)) ==
        if mempool then Journal(ApplyBatch(d, batch)) + Entries(U64_MAX, point.hash, originals)
        else Collected(Journal(ApplyBatch(d, batch)) + Entries(point.height, point.hash, originals),
                       Max(0, point.height - maxRollback))
    {
      var height := if mempool then U64_MAX else point.height;
      var more := JournalBatch(height, point.hash, originals, ApplyBatch(d, batch));
      ApplyBatchConcat(d, batch, more);
      PartsOfEntries(ApplyBatch(d, batch), Entries(height, point.hash, originals));
      r := batch + more;
      if !mempool {
        var removeBefore := Max(0, point.height - maxRollback);
        ApplyBatchSnoc(d, r, DelJournalBelow(removeBefore));
        PartsOfCollection(ApplyBatch(d, r), removeBefore);
        r := r + [DelJournalBelow(removeBefore)];
      }
    }
  }

  lemma {:induction false} ApplyBatchConcat(d: Kv, a: Batch, b: Batch)
    ensures ApplyBatch(d, a + b) == ApplyBatch(ApplyBatch(d, a), b)
  {
    if b == [] {
      assert a + b == a;
    } else {
      assert (a + b)[..|a + b| - 1] == a + b[..|b| - 1];
      ApplyBatchConcat(d, a, b[..|b| - 1]);
    }
  }
}
