/** Whole lifetimes of the indexer: events and restarts, one after the other. */
module Lifetime {
  import opened Wrappers
  import opened Types
  import opened Timestamps
  import opened Ledger
  import opened Supply
  import opened Storage
  import opened Context
  import opened Refinement
  import opened StageState
  import opened Commits
  import opened Core
  import opened Machine
  import opened Stage
  import opened Recovery

  /** How many clock readings some actions may take: two for an event; for a restart, those that pass
      until the second of the last commit is over. */
  function Readings(actions: seq<Action>): nat {
    if actions == [] then 0
    else (if actions[0].Handle? then 2 else LOGICAL_RANGE) + Readings(actions[1..])
  }

  /** There is a later second soon enough. */
  lemma SecondPasses(clock: nat -> nat, horizon: nat, ticks: nat, last: Timestamp)
    requires GoodClock(clock, horizon) && TakenAt(clock, ticks, last) && ticks - 1 + LOGICAL_RANGE < horizon
    ensures last.physical < clock(ticks - 1 + LOGICAL_RANGE) && Second(last.AsU64()) == last.physical
  {
    assert clock(ticks - 1) < CLOCK_LIMIT;
    PackedFits(last);
  }

  lemma RestartedFrom(cfg: Config, log: Log, c: CoreState)
    requires CoreOk(cfg, log, c)
    ensures StartsFrom(LastSnap(c.model.snaps)) == Restarted(AbsOf(c))
    ensures Premises(cfg) && RunOk(cfg, log, c.model.snaps) && |log| == |c.model.snaps|
  {
    hide Replay, CommitOk, Shows, ConfirmedAt, PendingPoint, ValidChain, ValidPending;
  }

  /** Surviving commits are in order, and their last second is no later. */
  lemma SurvivorsOrdered(log: Log, n: nat)
    requires Sorted(log) && n <= |log|
    ensures Sorted(log[..n])
    ensures n > 0 ==> Second(log[..n][n - 1].ts) <= Second(log[|log| - 1].ts)
  {
    if n > 0 {
      assert log[n - 1].ts <= log[|log| - 1].ts;
      SecondMonotone(log[n - 1].ts, log[|log| - 1].ts);
    }
  }

  lemma SecondMonotone(a: nat, b: nat)
    requires a <= b
    ensures Second(a) <= Second(b)
  {
  }

  /** The process ends, the first `n` commits of its store survive, and another one starts over them, once
      the second of the last commit is over. */
  method RestartStage(stage: IndexStage, n: nat, safeMode: bool) returns (next: IndexStage)
    requires stage.Valid() && stage.db.Ready(LOGICAL_RANGE) && n <= |stage.db.log|
    ensures fresh(next) && fresh(next.db) && fresh(next.buffer) && fresh(next.cache)
    ensures next.Valid() && next.cfg == stage.cfg && next.db.log == stage.db.log[..n]
    ensures n <= |stage.model.snaps| && next.Abstract() == StartsFrom(LastSnap(stage.model.snaps[..n]))
    ensures n == |stage.db.log| ==> next.Abstract() == Restarted(stage.Abstract())
    ensures next.db.clock == stage.db.clock && next.db.horizon == stage.db.horizon
    ensures next.db.Later() && next.db.ticks <= stage.db.ticks + LOGICAL_RANGE
  {
    hide CoreOk, GoodClock, TakenAt, RunOk, Sorted, Second, AbsOf, Latest, Premises, StartsFrom, Restarted, LastSnap;
    var db := stage.db;
    RestartedFrom(stage.cfg, db.log, stage.State());
    if db.previous.Some? {
      SecondPasses(db.clock, db.horizon, db.ticks, db.previous.value);
    }
    var t: nat :| db.ticks <= t <= db.ticks + LOGICAL_RANGE && t <= db.horizon
                  && (db.log != [] ==> Second(db.log[|db.log| - 1].ts) < db.clock(t));
    SurvivorsOrdered(db.log, n);
    RunPrefix(stage.cfg, db.log, stage.model.snaps, n);
    assert n == |db.log| ==> stage.model.snaps[..n] == stage.model.snaps;
    var reopened := new StorageHandler.Reopen(db.log[..n], db.clock, db.horizon, t);
    var cache := new UtxoCache();
    var started := Open(stage.cfg, reopened, safeMode, cache, stage.model.snaps[..n]);
    next := started.value;
  }

  /** Any admissible events and restarts: the indexer ends where the small machine does, and its store
      shows the index, built from nothing, of the machine's chain and estimated blocks. */
  method Live(stage: IndexStage, actions: seq<Action>, safeMode: bool) returns (last: IndexStage)
    requires stage.Valid() && stage.db.Ready(Readings(actions))
    requires AdmissibleRun(stage.cfg, stage.Abstract(), actions)
    modifies stage, stage.db, stage.buffer, stage.cache
    ensures last.Valid() && last.cfg == stage.cfg && old(stage.db.log) <= last.db.log
    ensures last.Abstract() == Run(stage.cfg, old(stage.Abstract()), actions)
    ensures Shows(Latest(last.db.log), Indexed(stage.cfg, last.Abstract().chain, last.Abstract().pending))
  {
    hide CoreOk, Sorted, GoodClock, TakenAt, Latest, Indexed, Shows, Step, Restarted, AbsOf, WellFormed, Misdirected;
    last := stage;
    for i := 0 to |actions|
      invariant last == stage || fresh(last)
      invariant last.db == stage.db || fresh(last.db)
      invariant last.buffer == stage.buffer || fresh(last.buffer)
      invariant last.cache == stage.cache || fresh(last.cache)
      invariant last.Valid() && last.cfg == stage.cfg && last.db.Ready(Readings(actions[i..]))
      invariant old(stage.db.log) <= last.db.log
      invariant AdmissibleRun(stage.cfg, last.Abstract(), actions[i..])
      invariant Run(stage.cfg, last.Abstract(), actions[i..]) == Run(stage.cfg, old(stage.Abstract()), actions)
    {
      ghost var rest := actions[i..];
      assert rest[0] == actions[i] && rest[1..] == actions[i + 1..];
      match actions[i] {
        case Handle(e) =>
          var outcome := last.Execute(e);
        case Restart =>
          var log := last.db.log;
          last := RestartStage(last, |log|, safeMode);
          assert log[..|log|] == log;
      }
    }
    IndexFacts(last.cfg, last.db.log, last.State());
  }
}
