/** The index stage as a small state machine that knows nothing of stores, journals or caches: a chain,
    the estimated blocks on it, and how many of the newest blocks can still be undone. */
module Machine {
  import opened Wrappers
  import opened Types
  import opened Ledger
  import opened StageState
  import opened Commits

  /** `kept` confirmed points are buffered, the newest `recorded` of them in the journal too; `first` is
      the first height journaled since journaling last began, `highest` the highest ever applied. */
  datatype Abs = Abs(
    chain: seq<Block>, pending: Pending, kept: nat, recorded: nat, mutable: bool, first: nat, highest: nat)

  datatype Next = Next(state: Abs, outcome: Outcome)

  predicate Extends(cfg: Config, a: Abs, point: Point, b: Block) {
    point.height == |a.chain| + 1 && b.prev == Tip(cfg, a.chain).hash
  }

  function Forward(cfg: Config, a: Abs, point: Point, b: Block, tip: Point): Next {
    if a.pending.Some? && a.kept == 0 then Next(a, Panic) else
    var a := a.(pending := None);
    if point.height <= |a.chain| then Next(a, Skipped)
    else if !Extends(cfg, a, point, b) then Next(a, Panic)
    else
      var mutable := a.mutable || point.height > Max(0, tip.height - cfg.maxRollback);
      Next(Abs(a.chain + [b], None,
               if mutable then Min(a.kept + 1, cfg.maxRollback + 2) else 0,
               if mutable then Min(a.recorded + 1, cfg.maxRollback + 1) else 0,
               mutable,
               if !mutable then |a.chain| + 2 else if a.kept == 0 then |a.chain| + 1 else a.first,
               Max(a.highest, |a.chain| + 1)),
           Done)
  }

  /** A point can be rolled back to when it is on the chain and still buffered. */
  predicate Undoable(cfg: Config, a: Abs, to: Point) {
    && 1 <= to.height <= |a.chain|
    && to == Tip(cfg, a.chain[..to.height])
    && |a.chain| - to.height < a.kept
  }

  function Back(cfg: Config, a: Abs, to: Point): Next {
    if Undoable(cfg, a, to)
    then
      var n := |a.chain| - to.height;
      Next(a.(chain := a.chain[..to.height], pending := None, kept := a.kept - n, recorded := Less(a.recorded, n)), Done)
    else Next(a, Panic)
  }

  function Estimate(cfg: Config, a: Abs, tipHash: Hash, blocks: seq<seq<Tx>>): Next {
    if a.kept == 0 then Next(a, Panic)
    else if tipHash != Tip(cfg, a.chain).hash then Next(a.(pending := None), Skipped)
    else Next(a.(pending := Some(blocks), kept := Min(a.kept, cfg.maxRollback + 1)), Done)
  }

  function Step(cfg: Config, a: Abs, e: Event): Next {
    match e
    case RollForward(point, b, tip) => Forward(cfg, a, point, b, tip)
    case RollBack(to) => Back(cfg, a, to)
    case MempoolBlocks(_, tipHash, blocks) => Estimate(cfg, a, tipHash, blocks)
  }

  /** A restart keeps what is stored: only the journaled points can still be undone. */
  function Restarted(a: Abs): Abs {
    a.(kept := a.recorded, mutable := a.recorded > 0 || a.pending.Some?)
  }

  /** The point under which estimated blocks are buffered. */
  function PseudoPoint(cfg: Config, a: Abs): Point {
    Point(U64_MAX, Tip(cfg, a.chain).hash)
  }

  /** What the network promises of an event: a block that would be accepted is valid there and is named
      by its own hash, and so are estimates. Events that are rejected may be anything. */
  ghost predicate WellFormed(cfg: Config, a: Abs, e: Event) {
    match e
    case RollForward(point, b, _) =>
      Extends(cfg, a, point, b) ==>
        ValidNext(cfg, a.chain, b) && point.hash == b.hash && point.height < U64_MAX
    case RollBack(_) => true
    case MempoolBlocks(_, tipHash, blocks) =>
      tipHash == Tip(cfg, a.chain).hash ==> ValidPending(cfg, a.chain, blocks)
  }

  /** The one event the machine does not follow: a rollback that names the pseudo-point of applied
      estimates. */
  predicate Misdirected(cfg: Config, a: Abs, e: Event) {
    e.RollBack? && a.pending.Some? && e.to == PseudoPoint(cfg, a)
  }

  ghost predicate Admissible(cfg: Config, a: Abs, e: Event) {
    WellFormed(cfg, a, e) && !Misdirected(cfg, a, e)
  }

  // --- runs

  datatype Action = Handle(event: Event) | Restart

  function Act(cfg: Config, a: Abs, action: Action): Abs {
    match action
    case Handle(e) => Step(cfg, a, e).state
    case Restart => Restarted(a)
  }

  function Run(cfg: Config, a: Abs, actions: seq<Action>): Abs
    decreases |actions|
  {
    if actions == [] then a else Run(cfg, Act(cfg, a, actions[0]), actions[1..])
  }

  ghost predicate AdmissibleRun(cfg: Config, a: Abs, actions: seq<Action>)
    decreases |actions|
  {
    actions == [] ||
      ((actions[0].Handle? ==> Admissible(cfg, a, actions[0].event)) &&
       AdmissibleRun(cfg, Act(cfg, a, actions[0]), actions[1..]))
  }

  /** Every block from the first journaled on, and within the rollback limit of the highest block ever
      applied, can still be undone, and will be after a restart. */
  ghost predicate Deep(cfg: Config, a: Abs) {
    && 1 <= a.first && |a.chain| <= a.highest
    && a.recorded <= a.kept <= |a.chain|
    && a.recorded <= cfg.maxRollback + 1
    && a.kept <= cfg.maxRollback + (if a.pending.Some? then 1 else 2)
    && |a.chain| - a.recorded < Max(a.first, a.highest - cfg.maxRollback)
    && (a.kept > 0 || a.pending.Some? ==> a.mutable)
  }

  ghost predicate AbsOk(cfg: Config, a: Abs) {
    ValidIndex(cfg, a.chain, a.pending) && |a.chain| < U64_MAX && Deep(cfg, a)
  }

  function Start(): Abs {
    Abs([], None, 0, 0, false, 1, 0)
  }

  lemma ForwardOk(cfg: Config, a: Abs, point: Point, b: Block, tip: Point)
    requires AbsOk(cfg, a) && Admissible(cfg, a, RollForward(point, b, tip))
    ensures AbsOk(cfg, Forward(cfg, a, point, b, tip).state)
  {
    hide ValidNext, ValidPending;
    assert (a.chain + [b])[..|a.chain|] == a.chain;
  }

  lemma BackOk(cfg: Config, a: Abs, to: Point)
    requires AbsOk(cfg, a)
    ensures AbsOk(cfg, Back(cfg, a, to).state)
  {
    hide ValidNext, ValidPending, ValidChain;
    if Undoable(cfg, a, to) {
      ValidPrefix(cfg, a.chain, to.height);
    }
  }

  lemma EstimateOk(cfg: Config, a: Abs, time: nat, tipHash: Hash, blocks: seq<seq<Tx>>)
    requires AbsOk(cfg, a) && Admissible(cfg, a, MempoolBlocks(time, tipHash, blocks))
    ensures AbsOk(cfg, Estimate(cfg, a, tipHash, blocks).state)
  {
    hide ValidNext, ValidPending, ValidChain;
  }

  lemma ActOk(cfg: Config, a: Abs, action: Action)
    requires AbsOk(cfg, a) && (action.Handle? ==> Admissible(cfg, a, action.event))
    ensures AbsOk(cfg, Act(cfg, a, action))
  {
    hide AbsOk, Admissible, Forward, Back, Estimate;
    match action {
      case Restart => RestartOk(cfg, a);
      case Handle(RollForward(point, b, tip)) => ForwardOk(cfg, a, point, b, tip);
      case Handle(RollBack(to)) => BackOk(cfg, a, to);
      case Handle(MempoolBlocks(time, tipHash, blocks)) => EstimateOk(cfg, a, time, tipHash, blocks);
    }
  }

  lemma RestartOk(cfg: Config, a: Abs)
    requires AbsOk(cfg, a)
    ensures AbsOk(cfg, Restarted(a))
  {
    hide ValidIndex;
  }

  /** Whatever events arrive and whenever the process restarts, the chain stays valid and the depth
      guarantee holds. */
  lemma {:induction false} RunOkFrom(cfg: Config, a: Abs, actions: seq<Action>)
    requires AbsOk(cfg, a) && AdmissibleRun(cfg, a, actions)
    ensures AbsOk(cfg, Run(cfg, a, actions))
    decreases |actions|
  {
    hide AbsOk, Admissible, Act;
    if actions != [] {
      ActOk(cfg, a, actions[0]);
      RunOkFrom(cfg, Act(cfg, a, actions[0]), actions[1..]);
    }
  }

  lemma DeepEnough(cfg: Config, a: Abs, m: nat)
    requires Deep(cfg, a) && Max(a.first, a.highest - cfg.maxRollback) <= m <= |a.chain|
    ensures var n := Step(cfg, a, RollBack(Tip(cfg, a.chain[..m]))); n.outcome == Done && n.state.chain == a.chain[..m]
  {
    assert a.chain[..m] != [] && a.chain[..m][m - 1] == a.chain[m - 1];
  }

  /** The rollback-depth guarantee over every run, restarts included. */
  lemma DepthGuarantee(cfg: Config, actions: seq<Action>, m: nat)
    requires AdmissibleRun(cfg, Start(), actions)
    requires var a := Run(cfg, Start(), actions); Max(a.first, a.highest - cfg.maxRollback) <= m <= |a.chain|
    ensures var a := Run(cfg, Start(), actions);
            var to := Tip(cfg, a.chain[..m]);
            && Step(cfg, a, RollBack(to)).outcome == Done
            && Step(cfg, a, RollBack(to)).state.chain == a.chain[..m]
  {
    hide Run, AdmissibleRun, Step, Tip, ValidIndex;
    StartOk(cfg);
    RunOkFrom(cfg, Start(), actions);
    DeepEnough(cfg, Run(cfg, Start(), actions), m);
  }

  lemma StartOk(cfg: Config)
    ensures AbsOk(cfg, Start())
  {
  }

  /** A block that is rolled back leaves the chain and the tip as they were before it. */
  lemma ForwardThenBack(cfg: Config, a: Abs, point: Point, b: Block, tip: Point)
    requires AbsOk(cfg, a) && a.kept > 0 && Step(cfg, a, RollForward(point, b, tip)).outcome.Done?
    ensures var after := Step(cfg, a, RollForward(point, b, tip)).state;
            var n := Step(cfg, after, RollBack(Tip(cfg, a.chain)));
            && n.outcome == Done && n.state.chain == a.chain && n.state.pending == None
            && n.state.kept == Min(a.kept, cfg.maxRollback + 1)
  {
    hide ValidIndex;
    assert (a.chain + [b])[..|a.chain|] == a.chain;
  }

  /** Estimated blocks never change what an admissible confirmed event does to the chain. */
  lemma EstimatesInvisible(cfg: Config, a: Abs, time: nat, tipHash: Hash, blocks: seq<seq<Tx>>, e: Event)
    requires AbsOk(cfg, a) && a.pending.None? && a.kept > 0 && !e.MempoolBlocks?
    requires Admissible(cfg, Step(cfg, a, MempoolBlocks(time, tipHash, blocks)).state, e)
    requires e.RollBack? ==> |a.chain| - e.to.height <= cfg.maxRollback
    ensures var estimated := Step(cfg, a, MempoolBlocks(time, tipHash, blocks)).state;
            var n, m := Step(cfg, a, e), Step(cfg, estimated, e);
            m.outcome == n.outcome && m.state.chain == n.state.chain && m.state.first == n.state.first
  {
    hide ValidIndex, ValidNext, ValidPending;
  }

  // --- what each event does, said without the step functions

  /** Estimates are applied and nothing under them can be undone. */
  predicate IsStuck(a: Abs) {
    a.pending.Some? && a.kept == 0
  }

  /** The outcome of an event, and the chain and estimates after it. */
  ghost predicate Promised(cfg: Config, a: Abs, e: Event, z: Abs, outcome: Outcome) {
    match e
    case RollForward(point, b, _) =>
      && (outcome.Skipped? <==> !IsStuck(a) && point.height <= |a.chain|)
      && (outcome.Done? <==> !IsStuck(a) && point.height == |a.chain| + 1 && b.prev == Tip(cfg, a.chain).hash)
      && z.chain == (if outcome.Done? then a.chain + [b] else a.chain)
      && z.pending == (if IsStuck(a) then a.pending else None)
    case RollBack(to) =>
      && !outcome.Skipped?
      && (outcome.Done? <==>
            1 <= to.height <= |a.chain| && to == Tip(cfg, a.chain[..to.height]) && |a.chain| - to.height < a.kept)
      && (outcome.Done? ==> z.chain == a.chain[..to.height] && z.pending.None?)
      && (outcome.Panic? ==> z == a)
    case MempoolBlocks(_, tipHash, blocks) =>
      && (outcome.Panic? <==> a.kept == 0)
      && (outcome.Skipped? <==> a.kept > 0 && tipHash != Tip(cfg, a.chain).hash)
      && z.chain == a.chain
      && z.pending == match outcome { case Done => Some(blocks) case Skipped => None case Panic => a.pending }
  }

  lemma StepPromised(cfg: Config, a: Abs, e: Event)
    ensures Promised(cfg, a, e, Step(cfg, a, e).state, Step(cfg, a, e).outcome)
  {
  }

  /** Of two snapshots in a row the second counts: outcome, chain and estimates are what it alone would
      have given. */
  lemma LastSnapshotCounts(cfg: Config, a: Abs, earlier: Event, e: Event)
    requires earlier.MempoolBlocks? && e.MempoolBlocks?
    ensures var both, alone := Step(cfg, Step(cfg, a, earlier).state, e), Step(cfg, a, e);
            && both.outcome == alone.outcome
            && both.state.chain == alone.state.chain && both.state.pending == alone.state.pending
  {
  }

  // --- when journaling starts

  /** An applied block can be rolled back to exactly when the process was journaling already or the block is
      within the rollback limit of the network's tip. */
  lemma JournalingStarts(cfg: Config, a: Abs, point: Point, b: Block, tip: Point)
    requires AbsOk(cfg, a) && Admissible(cfg, a, RollForward(point, b, tip))
    requires Step(cfg, a, RollForward(point, b, tip)).outcome.Done?
    ensures var after := Step(cfg, a, RollForward(point, b, tip)).state;
            Step(cfg, after, RollBack(point)).outcome.Done? <==> a.mutable || point.height + cfg.maxRollback > tip.height
  {
    hide ValidIndex, ValidNext;
    assert (a.chain + [b])[..|a.chain| + 1] == a.chain + [b];
  }

  /** The greatest height of the chain along a run. */
  function Highest(cfg: Config, a: Abs, actions: seq<Action>): nat
    decreases |actions|
  {
    if actions == [] then |a.chain| else Max(|a.chain|, Highest(cfg, Act(cfg, a, actions[0]), actions[1..]))
  }

  lemma {:induction false} HighestReached(cfg: Config, a: Abs, actions: seq<Action>)
    requires |a.chain| <= a.highest
    ensures Run(cfg, a, actions).highest == Max(a.highest, Highest(cfg, a, actions))
    decreases |actions|
  {
    if actions != [] {
      HighestReached(cfg, Act(cfg, a, actions[0]), actions[1..]);
    }
  }

  /** Whatever is buffered lies at or above the first journaled height. */
  predicate Since(a: Abs) {
    a.kept > 0 ==> a.first + a.kept <= |a.chain| + 1
  }

  lemma {:induction false} SinceRun(cfg: Config, a: Abs, actions: seq<Action>)
    requires AbsOk(cfg, a) && Since(a) && AdmissibleRun(cfg, a, actions)
    ensures Since(Run(cfg, a, actions)) && AbsOk(cfg, Run(cfg, a, actions))
    decreases |actions|
  {
    hide Admissible, ValidIndex;
    if actions != [] {
      ActOk(cfg, a, actions[0]);
      SinceRun(cfg, Act(cfg, a, actions[0]), actions[1..]);
    }
  }

  /** A journaling process that is not restarted goes on journaling, and its first height stays. */
  lemma {:induction false} StaysJournaling(cfg: Config, a: Abs, actions: seq<Action>)
    requires a.mutable && a.kept > 0 && forall j | 0 <= j < |actions| :: actions[j].Handle?
    ensures var z := Run(cfg, a, actions); z.mutable && z.kept > 0 && z.first == a.first
    decreases |actions|
  {
    if actions != [] {
      StaysJournaling(cfg, Act(cfg, a, actions[0]), actions[1..]);
    }
  }

  lemma {:induction false} RunSplit(cfg: Config, a: Abs, actions: seq<Action>, i: nat)
    requires i < |actions|
    ensures Run(cfg, a, actions) == Run(cfg, Act(cfg, Run(cfg, a, actions[..i]), actions[i]), actions[i + 1..])
    ensures AdmissibleRun(cfg, a, actions) ==>
      && AdmissibleRun(cfg, a, actions[..i])
      && (actions[i].Handle? ==> Admissible(cfg, Run(cfg, a, actions[..i]), actions[i].event))
    decreases |actions|
  {
    hide Act, Admissible;
    if i > 0 {
      RunSplit(cfg, Act(cfg, a, actions[0]), actions[1..], i - 1);
      assert actions[1..][..i - 1] == actions[..i][1..] && actions[1..][i..] == actions[i + 1..];
    }
  }

  /** The i-th action applies a block within the rollback limit of the network's tip. */
  predicate AppliesNear(cfg: Config, actions: seq<Action>, i: nat)
    requires i < |actions|
  {
    && actions[i].Handle? && actions[i].event.RollForward?
    && Step(cfg, Run(cfg, Start(), actions[..i]), actions[i].event).outcome.Done?
    && actions[i].event.point.height + cfg.maxRollback > actions[i].event.tip.height
  }

  /** Once a block near the network's tip was applied, and while the process is not restarted, every chain
      height at or above that block's, and within the rollback limit of the highest the run has reached, can
      be rolled back to. */
  lemma DepthFromNear(cfg: Config, actions: seq<Action>, i: nat, m: nat)
    requires AdmissibleRun(cfg, Start(), actions) && i < |actions| && AppliesNear(cfg, actions, i)
    requires forall j | i < j < |actions| :: actions[j].Handle?
    requires m >= actions[i].event.point.height && m >= Highest(cfg, Start(), actions) - cfg.maxRollback
    requires m <= |Run(cfg, Start(), actions).chain|
    ensures var z := Run(cfg, Start(), actions);
            var n := Step(cfg, z, RollBack(Tip(cfg, z.chain[..m])));
            n.outcome.Done? && n.state.chain == z.chain[..m]
  {
    hide AbsOk, Admissible, AdmissibleRun, Run, Tip, Highest, Step, Undoable;
    var before := Run(cfg, Start(), actions[..i]);
    var after := Act(cfg, before, actions[i]);
    RunSplit(cfg, Start(), actions, i);
    StartOk(cfg);
    SinceRun(cfg, Start(), actions[..i]);
    NearJournals(cfg, before, actions[i].event.point, actions[i].event.block, actions[i].event.tip);
    StaysJournaling(cfg, after, actions[i + 1..]);
    HighestReached(cfg, Start(), actions);
    RunOkFrom(cfg, Start(), actions);
    AbsOkDeep(cfg, Run(cfg, Start(), actions));
    DeepEnough(cfg, Run(cfg, Start(), actions), m);
  }

  lemma AbsOkDeep(cfg: Config, a: Abs)
    requires AbsOk(cfg, a)
    ensures Deep(cfg, a)
  {
    hide ValidIndex;
  }

  lemma NearJournals(cfg: Config, a: Abs, point: Point, b: Block, tip: Point)
    requires Since(a) && Step(cfg, a, RollForward(point, b, tip)).outcome.Done?
    requires point.height + cfg.maxRollback > tip.height
    ensures var z := Step(cfg, a, RollForward(point, b, tip)).state; z.mutable && z.kept > 0 && z.first <= point.height
  {
  }

  // --- a restart that cannot go on

  /** Every admissible event panics without effect exactly when estimates are applied and nothing under
      them can be undone. */
  lemma Stuck(cfg: Config, a: Abs)
    ensures (forall e | Admissible(cfg, a, e) :: Step(cfg, a, e) == Next(a, Panic)) <==> IsStuck(a)
  {
    hide ValidNext, ValidPending, Tip;
    if !IsStuck(a) {
      var e := RollForward(Point(0, []), Block([], [], []), Point(0, []));
      assert Admissible(cfg, a, e) && Step(cfg, a, e).outcome.Skipped?;
    }
  }

  /** Neither events nor restarts help then. */
  lemma {:induction false} StuckForever(cfg: Config, a: Abs, actions: seq<Action>)
    requires IsStuck(a) && AbsOk(cfg, a) && AdmissibleRun(cfg, a, actions)
    ensures IsStuck(Run(cfg, a, actions)) && Run(cfg, a, actions).chain == a.chain
    decreases |actions|
  {
    if actions != [] {
      ActOk(cfg, a, actions[0]);
      StuckAct(cfg, a, actions[0]);
      StuckForever(cfg, Act(cfg, a, actions[0]), actions[1..]);
    }
  }

  lemma StuckAct(cfg: Config, a: Abs, action: Action)
    requires IsStuck(a) && AbsOk(cfg, a) && (action.Handle? ==> Admissible(cfg, a, action.event))
    ensures IsStuck(Act(cfg, a, action)) && Act(cfg, a, action).chain == a.chain
  {
    hide ValidIndex, ValidNext, ValidPending;
    Stuck(cfg, a);
  }

  /** Being stuck needs a chain rolled back past the guaranteed depth. */
  lemma StuckOnlyBeyondDepth(cfg: Config, a: Abs)
    requires AbsOk(cfg, a) && IsStuck(a)
    ensures |a.chain| < Max(a.first, a.highest - cfg.maxRollback)
  {
    hide ValidIndex;
  }

  /** No event makes a running process stuck; a restart does exactly when estimates are applied and the
      journal holds nothing under them. */
  lemma StuckBy(cfg: Config, a: Abs, action: Action)
    requires !IsStuck(a) && AbsOk(cfg, a)
    ensures IsStuck(Act(cfg, a, action)) <==> action.Restart? && a.pending.Some? && a.recorded == 0
  {
    hide ValidIndex;
  }

  /** A valid next block without transactions. */
  function EmptyBlock(cfg: Config, chain: seq<Block>): Block {
    Block([], Tip(cfg, chain).hash, [])
  }

  function Climbing(cfg: Config, a: Abs): Action {
    Handle(RollForward(Point(|a.chain| + 1, []), EmptyBlock(cfg, a.chain), Point(0, [])))
  }

  lemma EmptyValid(cfg: Config, chain: seq<Block>)
    ensures ValidNext(cfg, chain, EmptyBlock(cfg, chain))
  {
    hide Replay, ChainHistory, Tip;
  }

  lemma Climb(cfg: Config, a: Abs)
    requires AbsOk(cfg, a) && a.pending.None? && |a.chain| + 1 < U64_MAX
    ensures Admissible(cfg, a, Climbing(cfg, a).event)
    ensures var b := Act(cfg, a, Climbing(cfg, a));
            && |b.chain| == |a.chain| + 1 && b.pending.None?
            && b.kept == Min(a.kept + 1, cfg.maxRollback + 2) && b.recorded == Min(a.recorded + 1, cfg.maxRollback + 1)
  {
    hide ValidIndex, ValidNext;
    EmptyValid(cfg, a.chain);
  }

  lemma {:induction false} ClimbTo(cfg: Config, n: nat) returns (actions: seq<Action>)
    requires n <= cfg.maxRollback + 2 && n < U64_MAX - 1
    ensures AdmissibleRun(cfg, Start(), actions)
    ensures var a := Run(cfg, Start(), actions);
            && AbsOk(cfg, a) && |a.chain| == n && a.pending.None? && a.kept == n
            && a.recorded == Min(n, cfg.maxRollback + 1)
    decreases n
  {
    hide AbsOk, Admissible, Act, Climbing;
    StartOk(cfg);
    actions := [];
    if n > 0 {
      var init := ClimbTo(cfg, n - 1);
      var a := Run(cfg, Start(), init);
      Climb(cfg, a);
      ActOk(cfg, a, Climbing(cfg, a));
      RunSnoc(cfg, Start(), init, Climbing(cfg, a));
      actions := init + [Climbing(cfg, a)];
    }
  }

  lemma {:induction false} RunSnoc(cfg: Config, a: Abs, actions: seq<Action>, action: Action)
    requires AdmissibleRun(cfg, a, actions)
    requires action.Handle? ==> Admissible(cfg, Run(cfg, a, actions), action.event)
    ensures AdmissibleRun(cfg, a, actions + [action])
    ensures Run(cfg, a, actions + [action]) == Act(cfg, Run(cfg, a, actions), action)
    decreases |actions|
  {
    hide Admissible, Act;
    var all := actions + [action];
    if actions == [] {
      assert all[1..] == [];
    } else {
      assert all[1..] == actions[1..] + [action];
      RunSnoc(cfg, Act(cfg, a, actions[0]), actions[1..], action);
    }
  }

  /** For every rollback limit some run gets stuck: fill the buffer, roll back to its deepest point, apply
      estimates there, and restart. */
  lemma SomeRunGetsStuck(cfg: Config) returns (actions: seq<Action>)
    requires cfg.maxRollback + 3 < U64_MAX
    ensures AdmissibleRun(cfg, Start(), actions) && IsStuck(Run(cfg, Start(), actions))
  {
    hide AbsOk, Admissible, AdmissibleRun, Run, Tip;
    var up := ClimbTo(cfg, cfg.maxRollback + 2);
    var a := Run(cfg, Start(), up);
    var back := RollBack(Tip(cfg, a.chain[..1]));
    DeepestPoint(cfg, a);
    RunSnoc(cfg, Start(), up, Handle(back));
    var b := Act(cfg, a, Handle(back));
    var estimate := MempoolBlocks(0, Tip(cfg, b.chain).hash, [[]]);
    EmptyEstimates(cfg, b);
    RunSnoc(cfg, Start(), up + [Handle(back)], Handle(estimate));
    RunSnoc(cfg, Start(), up + [Handle(back)] + [Handle(estimate)], Restart);
    actions := up + [Handle(back)] + [Handle(estimate)] + [Restart];
  }

  lemma DeepestPoint(cfg: Config, a: Abs)
    requires |a.chain| == cfg.maxRollback + 2 == a.kept && a.pending.None? && a.recorded == cfg.maxRollback + 1
    ensures var back := RollBack(Tip(cfg, a.chain[..1]));
            && Admissible(cfg, a, back)
            && Step(cfg, a, back).state.kept == 1 && Step(cfg, a, back).state.recorded == 0
            && Step(cfg, a, back).state.chain == a.chain[..1]
  {
  }

  lemma EmptyEstimates(cfg: Config, a: Abs)
    requires |a.chain| == 1 && a.kept == 1
    ensures Admissible(cfg, a, MempoolBlocks(0, Tip(cfg, a.chain).hash, [[]]))
  {
    hide Tip, ApplyMempool, PendingHistory;
  }
}
