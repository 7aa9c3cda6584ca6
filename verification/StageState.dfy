/** What the index stage's state means: which ledger the store shows, which points the buffer and the
    journal hold, and what every commit of a run left behind. */
module StageState {
  import opened Wrappers
  import opened Types
  import opened Ledger
  import opened LedgerProofs
  import opened Supply
  import opened Task
  import opened Storage
  import opened Context
  import opened Refinement
  import opened Rollback
  import opened Undo
  import opened Worker
  import opened Blocks

  // --- a ledger state as stored data

  function Flat(s: State): Kv {
    map k | k in s.kv.Keys + (set r | r in s.utxos :: UtxoKey(r)) ::
      if k.UtxoKey? && k.r in s.utxos then UtxoV(s.utxos[k.r]) else s.kv[k]
  }

  /** A store that shows a state holds, as data, exactly that state. */
  lemma ShowsFlat(d: Kv, s: State)
    requires Shows(d, s)
    ensures Data(d) == Flat(s)
  {
    assert forall k | k in s.kv :: IsTable(k);
    forall k
      ensures Lookup(Data(d), k) == Lookup(Flat(s), k)
    {
      if k.UtxoKey? {
        assert Lookup(d, UtxoKey(k.r)) == if k.r in s.utxos then Some(UtxoV(s.utxos[k.r])) else None;
      } else if IsTable(k) {
        TablesAt(d, k);
      }
    }
    SameLookups(Data(d), Flat(s));
  }

  lemma ShowsData(d: Kv, e: Kv, s: State)
    requires Shows(d, s) && Data(e) == Data(d)
    ensures Shows(e, s)
  {
    forall k | IsData(k)
      ensures Lookup(e, k) == Lookup(d, k)
    {
      assert Lookup(Data(e), k) == Lookup(Data(d), k);
    }
    SameLookups(Tables(e), Tables(d));
  }

  ghost predicate TablesOnly(s: State) {
    forall k | k in s.kv :: IsTable(k)
  }

  lemma FlatShows(d: Kv, s: State)
    requires TablesOnly(s) && Data(d) == Flat(s)
    ensures Shows(d, s)
  {
    forall k
      ensures Lookup(Tables(d), k) == Lookup(s.kv, k)
    {
      assert Lookup(Data(d), k) == Lookup(Flat(s), k);
    }
    SameLookups(Tables(d), s.kv);
    forall r
      ensures Lookup(d, UtxoKey(r)) == if r in s.utxos then Some(UtxoV(s.utxos[r])) else None
    {
      assert Lookup(Data(d), UtxoKey(r)) == Lookup(Flat(s), UtxoKey(r));
    }
  }

  // --- points

  /** A confirmed point of the chain: applying its originals to the index after it gives the index
      before it. */
  ghost predicate ConfirmedAt(cfg: Config, chain: seq<Block>, p: PointKvs, m: nat) {
    && 1 <= m <= |chain|
    && p.point == Tip(cfg, chain[..m])
    && p.originals != map[] && (forall k | k in p.originals :: IsData(k))
    && TablesOnly(Replay(cfg, chain[..m - 1]))
    && Restored(Flat(Replay(cfg, chain[..m])), p.originals) == Flat(Replay(cfg, chain[..m - 1]))
  }

  /** The newest points of a chain, contiguous, its tip first. */
  ghost predicate ConfirmedRun(cfg: Config, chain: seq<Block>, points: seq<PointKvs>) {
    && |points| <= |chain|
    && forall j | 0 <= j < |points| :: ConfirmedAt(cfg, chain, points[j], |chain| - j)
  }

  /** The pseudo-point of estimated blocks: undoing it gives back the chain's index. */
  ghost predicate PendingPoint(cfg: Config, chain: seq<Block>, blocks: seq<seq<Tx>>, p: PointKvs) {
    && p.point == Point(U64_MAX, Tip(cfg, chain).hash)
    && p.originals != map[] && (forall k | k in p.originals :: IsData(k))
    && TablesOnly(Replay(cfg, chain))
    && Restored(Flat(Indexed(cfg, chain, Some(blocks))), p.originals) == Flat(Replay(cfg, chain))
  }

  ghost predicate BufferIs(cfg: Config, chain: seq<Block>, pending: Pending, points: seq<PointKvs>) {
    match pending
    case None => ConfirmedRun(cfg, chain, points)
    case Some(blocks) =>
      && points != []
      && PendingPoint(cfg, chain, blocks, points[0])
      && ConfirmedRun(cfg, chain, points[1..])
  }

  /** How many of the points stand for estimated blocks. */
  function Front(pending: Pending): nat {
    if pending.Some? then 1 else 0
  }

  lemma ConfirmedPoint(cfg: Config, chain: seq<Block>, p: PointKvs, m: nat)
    requires ConfirmedAt(cfg, chain, p, m)
    ensures 1 <= m <= |chain| && p.point == Tip(cfg, chain[..m]) && p.point.height == m
    ensures p.originals != map[] && forall k | k in p.originals :: IsData(k)
  {
    hide Replay, Flat, Restored, TablesOnly;
  }

  /** The heights in a buffer fall by one from point to point, below the pseudo-point if there is one. */
  lemma BufferOrdered(cfg: Config, chain: seq<Block>, pending: Pending, points: seq<PointKvs>)
    requires BufferIs(cfg, chain, pending, points) && |chain| < U64_MAX
    ensures Ordered(points) && DataOriginals(points)
    ensures forall i | Front(pending) <= i < |points| ::
      points[i].point.height == |chain| - (i - Front(pending))
      && ConfirmedAt(cfg, chain, points[i], |chain| - (i - Front(pending)))
  {
    hide Replay, Flat, Restored, TablesOnly, Indexed, ConfirmedAt, Tip, IsData;
    var f := Front(pending);
    forall i | 0 <= i < |points|
      ensures points[i].originals != map[] && forall k | k in points[i].originals :: IsData(k)
      ensures points[i].point.height == if i < f then U64_MAX else |chain| - (i - f)
      ensures i >= f ==> ConfirmedAt(cfg, chain, points[i], |chain| - (i - f))
    {
      if i < f {
        PseudoPointAt(cfg, chain, pending.value, points[0]);
      } else {
        assert points[i] == points[f..][i - f];
        assert points[f..] == if pending.Some? then points[1..] else points;
        ConfirmedPoint(cfg, chain, points[i], |chain| - (i - f));
      }
    }
  }

  lemma PseudoPointAt(cfg: Config, chain: seq<Block>, blocks: seq<seq<Tx>>, p: PointKvs)
    requires PendingPoint(cfg, chain, blocks, p)
    ensures p.point == Point(U64_MAX, Tip(cfg, chain).hash)
    ensures p.originals != map[] && forall k | k in p.originals :: IsData(k)
  {
    hide Replay, Flat, Restored, TablesOnly, Indexed;
  }

  lemma BufferPrefix(cfg: Config, chain: seq<Block>, pending: Pending, points: seq<PointKvs>, n: nat)
    requires BufferIs(cfg, chain, pending, points) && Front(pending) <= n <= |points|
    ensures BufferIs(cfg, chain, pending, points[..n])
  {
    hide ConfirmedAt, PendingPoint;
    if pending.Some? {
      assert points[..n][1..] == points[1..][..n - 1];
    }
  }

  lemma PointCarried(cfg: Config, chain: seq<Block>, next: seq<Block>, p: PointKvs, m: nat)
    requires ConfirmedAt(cfg, chain, p, m) && m <= |next|
    requires next[..m] == chain[..m] && next[..m - 1] == chain[..m - 1]
    ensures ConfirmedAt(cfg, next, p, m)
  {
    hide Replay, Flat, Restored, TablesOnly;
  }

  lemma RunExtend(cfg: Config, chain: seq<Block>, b: Block, points: seq<PointKvs>, p: PointKvs, n: nat)
    requires ConfirmedRun(cfg, chain, points) && ConfirmedAt(cfg, chain + [b], p, |chain| + 1)
    requires 0 < n <= |points| + 1
    ensures ConfirmedRun(cfg, chain + [b], ([p] + points)[..n])
  {
    hide ConfirmedAt;
    var next, all := chain + [b], ([p] + points)[..n];
    forall j | 0 <= j < |all|
      ensures ConfirmedAt(cfg, next, all[j], |next| - j)
    {
      if j > 0 {
        var m := |chain| - (j - 1);
        assert all[j] == points[j - 1];
        assert next[..m] == chain[..m] && next[..m - 1] == chain[..m - 1];
        PointCarried(cfg, chain, next, points[j - 1], m);
      }
    }
  }

  lemma RunCut(cfg: Config, chain: seq<Block>, points: seq<PointKvs>, i: nat)
    requires ConfirmedRun(cfg, chain, points) && i <= |points|
    ensures ConfirmedRun(cfg, chain[..|chain| - i], points[i..])
  {
    hide ConfirmedAt;
    var cut := chain[..|chain| - i];
    forall j | 0 <= j < |points| - i
      ensures ConfirmedAt(cfg, cut, points[i..][j], |cut| - j)
    {
      assert cut[..|cut| - j] == chain[..|chain| - (i + j)];
      assert cut[..|cut| - j - 1] == chain[..|chain| - (i + j) - 1];
      PointCarried(cfg, chain, cut, points[i + j], |cut| - j);
    }
  }

  // --- undoing

  lemma {:induction false} UndoAllFrom(d: Kv, p: PointKvs, rest: seq<PointKvs>)
    ensures UndoAll(d, [p] + rest) == UndoAll(Restored(d, p.originals), rest)
  {
    var all := [p] + rest;
    if rest == [] {
      assert all[..0] == [];
    } else {
      assert all[..|all| - 1] == [p] + rest[..|rest| - 1];
      UndoAllFrom(d, p, rest[..|rest| - 1]);
    }
  }

  lemma {:induction false} UndoRun(cfg: Config, chain: seq<Block>, points: seq<PointKvs>, i: nat)
    requires ConfirmedRun(cfg, chain, points) && i <= |points|
    ensures UndoAll(Flat(Replay(cfg, chain)), points[..i]) == Flat(Replay(cfg, chain[..|chain| - i]))
    ensures i > 0 ==> TablesOnly(Replay(cfg, chain[..|chain| - i]))
  {
    hide Replay, Flat, Restored, TablesOnly, ConfirmedAt, Tip;
    if i == 0 {
      assert chain[..|chain|] == chain;
    } else {
      UndoRun(cfg, chain, points, i - 1);
      assert points[..i][..i - 1] == points[..i - 1];
      UndoOne(cfg, chain, points[i - 1], |chain| - (i - 1));
    }
  }

  lemma UndoOne(cfg: Config, chain: seq<Block>, p: PointKvs, m: nat)
    requires ConfirmedAt(cfg, chain, p, m)
    ensures Restored(Flat(Replay(cfg, chain[..m])), p.originals) == Flat(Replay(cfg, chain[..m - 1]))
    ensures TablesOnly(Replay(cfg, chain[..m - 1]))
  {
    hide Replay, Flat, Restored, TablesOnly, Tip;
  }

  /** The height left when a buffer is undone down to position `i`. */
  function HeightAt(chain: seq<Block>, pending: Pending, i: nat): int {
    |chain| - (i - Front(pending))
  }

  /** Exact undo: undoing the points before position `i`, newest first, gives exactly the index of the
      chain cut at that point's height. */
  lemma UndoBuffer(cfg: Config, chain: seq<Block>, pending: Pending, points: seq<PointKvs>, i: nat)
    requires BufferIs(cfg, chain, pending, points) && Front(pending) <= i < |points|
    requires |chain| < U64_MAX
    ensures 1 <= HeightAt(chain, pending, i) <= |chain|
    ensures points[i].point == Tip(cfg, chain[..HeightAt(chain, pending, i)])
    ensures UndoAll(Flat(Indexed(cfg, chain, pending)), points[..i])
         == Flat(Replay(cfg, chain[..HeightAt(chain, pending, i)]))
    ensures i > 0 ==> TablesOnly(Replay(cfg, chain[..HeightAt(chain, pending, i)]))
    ensures ConfirmedRun(cfg, chain[..HeightAt(chain, pending, i)], points[i..])
  {
    hide Replay, Indexed, Flat, Restored, TablesOnly, ConfirmedAt, ConfirmedRun, PendingPoint, UndoAll, Tip, Ordered,
      DataOriginals;
    BufferOrdered(cfg, chain, pending, points);
    ConfirmedPoint(cfg, chain, points[i], HeightAt(chain, pending, i));
    if pending.None? {
      assert Indexed(cfg, chain, pending) == Replay(cfg, chain) by { NothingPending(cfg, chain); }
      UndoRun(cfg, chain, points, i);
      RunCut(cfg, chain, points, i);
    } else {
      var rest := points[1..];
      assert points[..i] == [points[0]] + rest[..i - 1];
      UndoPseudo(cfg, chain, pending.value, points[0], rest[..i - 1]);
      UndoRun(cfg, chain, rest, i - 1);
      RunCut(cfg, chain, rest, i - 1);
      assert rest[i - 1..] == points[i..];
      assert chain[..|chain|] == chain;
    }
  }

  lemma NothingPending(cfg: Config, chain: seq<Block>)
    ensures Indexed(cfg, chain, None) == Replay(cfg, chain)
  {
  }

  /** Undoing the pseudo-point first leaves the chain's index for the rest. */
  lemma UndoPseudo(cfg: Config, chain: seq<Block>, blocks: seq<seq<Tx>>, p: PointKvs, rest: seq<PointKvs>)
    requires PendingPoint(cfg, chain, blocks, p)
    ensures UndoAll(Flat(Indexed(cfg, chain, Some(blocks))), [p] + rest) == UndoAll(Flat(Replay(cfg, chain)), rest)
    ensures TablesOnly(Replay(cfg, chain))
  {
    hide Replay, Indexed, Flat, Restored, TablesOnly, UndoAll, Tip;
    UndoAllFrom(Flat(Indexed(cfg, chain, Some(blocks))), p, rest);
  }

  /** A point's position is the only one with its height. */
  lemma PositionOf(cfg: Config, chain: seq<Block>, pending: Pending, points: seq<PointKvs>, m: nat)
    requires BufferIs(cfg, chain, pending, points) && |chain| < U64_MAX && 1 <= m <= |chain|
    ensures Position(points, Tip(cfg, chain[..m])) ==
            (var i := |chain| - m + Front(pending); if i < |points| then Some(i) else None)
  {
    hide Replay, Flat, Restored, TablesOnly, Indexed, ConfirmedAt, PendingPoint, Ordered, DataOriginals;
    BufferOrdered(cfg, chain, pending, points);
    var i := |chain| - m + Front(pending);
    if i < |points| {
      ConfirmedPoint(cfg, chain, points[i], m);
    }
    if pending.Some? {
      PseudoPointAt(cfg, chain, pending.value, points[0]);
    }
    var at := Position(points, Tip(cfg, chain[..m]));
    if at.Some? {
      assert points[at.value].point.height == m;
    }
  }

  // --- the record of a run

  /** What a commit left behind: the chain and estimated blocks it shows, the points its journal
      records, and how far back they reach: the first height journaled and the highest applied. */
  datatype Snap = Snap(chain: seq<Block>, pending: Pending, points: seq<PointKvs>, first: nat, highest: nat)

  /** What the last commit of a record left, or nothing. */
  function LastSnap(snaps: seq<Snap>): Snap {
    if snaps == [] then Snap([], None, [], 1, 0) else snaps[|snaps| - 1]
  }

  /** Every height from the first journaled one, and within the rollback limit of the highest applied,
      up to the tip, is among the recorded points. */
  ghost predicate Reaches(snap: Snap, maxRollback: nat) {
    && 1 <= snap.first && |snap.chain| <= snap.highest
    && |snap.points| - Front(snap.pending) <= maxRollback + 1
    && |snap.chain| - (|snap.points| - Front(snap.pending)) < Max(snap.first, snap.highest - maxRollback)
  }

  /** A store content that a snapshot describes. */
  ghost predicate StoreOk(cfg: Config, d: Kv, snap: Snap) {
    && ValidIndex(cfg, snap.chain, snap.pending) && |snap.chain| < U64_MAX
    && Shows(d, Indexed(cfg, snap.chain, snap.pending))
    && BufferIs(cfg, snap.chain, snap.pending, snap.points)
    && JournalIs(Journal(d), snap.points)
    && Reaches(snap, cfg.maxRollback)
  }

  /** The confirmed timestamp entry names a commit that had no estimated blocks, and its tip. */
  ghost predicate ConfirmedStamp(cfg: Config, log: Log, snaps: seq<Snap>, i: nat, j: nat, e: TimestampEntry) {
    && j <= i < |log| == |snaps|
    && e.ts == log[j].ts && snaps[j].pending.None?
    && Tip(cfg, snaps[j].chain) == Point(e.tipHeight, e.tipHash)
  }

  /** The mempool timestamp entry names a commit that had estimated blocks, and the tip under them. */
  ghost predicate MempoolStamp(cfg: Config, log: Log, snaps: seq<Snap>, i: nat, j: nat, e: TimestampEntry) {
    && j <= i < |log| == |snaps|
    && e.ts == log[j].ts && snaps[j].pending.Some?
    && Tip(cfg, snaps[j].chain).hash == e.tipHash
    && e.tipHeight == |snaps[j].chain| + |snaps[j].pending.value|
  }

  ghost predicate CommitOk(cfg: Config, log: Log, snaps: seq<Snap>, i: nat)
    requires i < |log| == |snaps|
  {
    var d := Latest(log[..i + 1]);
    && StoreOk(cfg, d, snaps[i])
    && (StampAt(d, Confirmed).Some? ==> exists j: nat :: ConfirmedStamp(cfg, log, snaps, i, j, StampAt(d, Confirmed).value))
    && (StampAt(d, Mempool).Some? ==> exists j: nat :: MempoolStamp(cfg, log, snaps, i, j, StampAt(d, Mempool).value))
  }

  /** The record of a run: every commit left a store that its snapshot describes. */
  ghost predicate RunOk(cfg: Config, log: Log, snaps: seq<Snap>) {
    && |log| == |snaps|
    && forall i | 0 <= i < |log| :: CommitOk(cfg, log, snaps, i)
  }

  /** How a commit changes the timestamp entries. */
  datatype StampChange = NoStamp | StampConfirmed | StampMempool

  ghost predicate Stamped(cfg: Config, before: Kv, after: Kv, change: StampChange, ts: nat, snap: Snap, time: Option<nat>) {
    match change
    case NoStamp => Stamps(after) == Stamps(before)
    case StampConfirmed =>
      && snap.pending.None?
      && Stamps(after) == Stamps(before)[TimestampKey(Confirmed) :=
           TimestampV(TimestampEntry(Tip(cfg, snap.chain).height, Tip(cfg, snap.chain).hash, ts, time))]
    case StampMempool =>
      && snap.pending.Some?
      && Stamps(after) == Stamps(before)[TimestampKey(Mempool) :=
           TimestampV(TimestampEntry(|snap.chain| + |snap.pending.value|, Tip(cfg, snap.chain).hash, ts, time))]
  }

  lemma StampsAt(d: Kv, kind: PointKind)
    ensures Lookup(Stamps(d), TimestampKey(kind)) == Lookup(d, TimestampKey(kind))
  {
  }

  lemma ConfirmedCarried(cfg: Config, log: Log, c: Commit, snaps: seq<Snap>, snap: Snap, i: nat, j: nat, e: TimestampEntry)
    requires ConfirmedStamp(cfg, log, snaps, i, j, e)
    ensures ConfirmedStamp(cfg, log + [c], snaps + [snap], i, j, e)
    ensures ConfirmedStamp(cfg, log + [c], snaps + [snap], |log|, j, e)
  {
  }

  lemma MempoolCarried(cfg: Config, log: Log, c: Commit, snaps: seq<Snap>, snap: Snap, i: nat, j: nat, e: TimestampEntry)
    requires MempoolStamp(cfg, log, snaps, i, j, e)
    ensures MempoolStamp(cfg, log + [c], snaps + [snap], i, j, e)
    ensures MempoolStamp(cfg, log + [c], snaps + [snap], |log|, j, e)
  {
  }

  lemma CommitCarried(cfg: Config, log: Log, c: Commit, snaps: seq<Snap>, snap: Snap, i: nat)
    requires i < |log| == |snaps| && CommitOk(cfg, log, snaps, i)
    ensures CommitOk(cfg, log + [c], snaps + [snap], i)
  {
    assert (log + [c])[..i + 1] == log[..i + 1];
    var d := Latest(log[..i + 1]);
    if StampAt(d, Confirmed).Some? {
      var e := StampAt(d, Confirmed).value;
      var j: nat :| ConfirmedStamp(cfg, log, snaps, i, j, e);
      ConfirmedCarried(cfg, log, c, snaps, snap, i, j, e);
    }
    if StampAt(d, Mempool).Some? {
      var e := StampAt(d, Mempool).value;
      var j: nat :| MempoolStamp(cfg, log, snaps, i, j, e);
      MempoolCarried(cfg, log, c, snaps, snap, i, j, e);
    }
  }

  /** Adding a commit to the record. */
  lemma RunSnoc(
    cfg: Config, log: Log, c: Commit, snaps: seq<Snap>, snap: Snap, change: StampChange, time: Option<nat>)
    requires RunOk(cfg, log, snaps) && StoreOk(cfg, Latest(log + [c]), snap)
    requires Stamped(cfg, Latest(log), Latest(log + [c]), change, c.ts, snap, time)
    ensures RunOk(cfg, log + [c], snaps + [snap])
  {
    hide StoreOk;
    var log', snaps', n := log + [c], snaps + [snap], |log|;
    forall i | 0 <= i < |log'|
      ensures CommitOk(cfg, log', snaps', i)
    {
      if i < n {
        CommitCarried(cfg, log, c, snaps, snap, i);
      } else {
        assert log'[..n + 1] == log';
        LastCommit(cfg, log, c, snaps, snap, change, time);
      }
    }
  }

  lemma LastCommit(
    cfg: Config, log: Log, c: Commit, snaps: seq<Snap>, snap: Snap, change: StampChange, time: Option<nat>)
    requires RunOk(cfg, log, snaps) && StoreOk(cfg, Latest(log + [c]), snap)
    requires Stamped(cfg, Latest(log), Latest(log + [c]), change, c.ts, snap, time)
    ensures CommitOk(cfg, log + [c], snaps + [snap], |log|)
  {
    hide StoreOk;
    var log', snaps', n := log + [c], snaps + [snap], |log|;
    var before, after := Latest(log), Latest(log');
    assert log'[..n + 1] == log';
    if n > 0 {
      assert CommitOk(cfg, log, snaps, n - 1);
      assert log[..n] == log;
    }
    StampsAt(before, Confirmed);
    StampsAt(before, Mempool);
    StampsAt(after, Confirmed);
    StampsAt(after, Mempool);
    if StampAt(after, Confirmed).Some? {
      var e := StampAt(after, Confirmed).value;
      if change.StampConfirmed? {
        assert ConfirmedStamp(cfg, log', snaps', n, n, e);
      } else {
        assert StampAt(before, Confirmed) == Some(e);
        var j: nat :| ConfirmedStamp(cfg, log, snaps, n - 1, j, e);
        ConfirmedCarried(cfg, log, c, snaps, snap, n - 1, j, e);
      }
    }
    if StampAt(after, Mempool).Some? {
      var e := StampAt(after, Mempool).value;
      if change.StampMempool? {
        assert MempoolStamp(cfg, log', snaps', n, n, e);
      } else {
        assert StampAt(before, Mempool) == Some(e);
        var j: nat :| MempoolStamp(cfg, log, snaps, n - 1, j, e);
        MempoolCarried(cfg, log, c, snaps, snap, n - 1, j, e);
      }
    }
  }

  // --- the cache against the whole history of the chain

  ghost predicate Agrees(cache: Utxos, m: Utxos) {
    forall r | r in cache && r in m :: cache[r] == m[r]
  }

  /** In every state the current chain went through, what is cached and live has the cached value. */
  ghost predicate CacheOk(cfg: Config, cache: Utxos, chain: seq<Block>) {
    forall k | 0 <= k <= |chain| :: Agrees(cache, Replay(cfg, chain[..k]).utxos)
  }

  lemma CacheCut(cfg: Config, cache: Utxos, chain: seq<Block>, n: nat)
    requires CacheOk(cfg, cache, chain) && n <= |chain|
    ensures CacheOk(cfg, cache, chain[..n])
  {
    assert forall k | 0 <= k <= n :: chain[..n][..k] == chain[..k];
  }

  lemma CacheSub(cfg: Config, cache: Utxos, sub: Utxos, chain: seq<Block>)
    requires CacheOk(cfg, cache, chain) && SubMap(sub, cache)
    ensures CacheOk(cfg, sub, chain)
  {
    forall k | 0 <= k <= |chain|
      ensures Agrees(sub, Replay(cfg, chain[..k]).utxos)
    {
      assert Agrees(cache, Replay(cfg, chain[..k]).utxos);
    }
  }

  lemma CacheCoherent(cfg: Config, cache: Utxos, chain: seq<Block>, view: Kv)
    requires CacheOk(cfg, cache, chain) && Shows(view, Replay(cfg, chain))
    ensures Coherent(cache, view)
  {
    assert chain[..|chain|] == chain;
    assert Agrees(cache, Replay(cfg, chain[..|chain|]).utxos);
    forall r | r in cache && UtxoIn(view, r).Some?
      ensures UtxoIn(view, r) == Some(cache[r])
    {
      assert Lookup(view, UtxoKey(r)) ==
        if r in Replay(cfg, chain).utxos then Some(UtxoV(Replay(cfg, chain).utxos[r])) else None;
    }
  }

  lemma ValidPrefix(cfg: Config, chain: seq<Block>, n: nat)
    requires ValidChain(cfg, chain) && n <= |chain|
    ensures ValidChain(cfg, chain[..n])
    decreases |chain|
  {
    if n == |chain| {
      assert chain[..n] == chain;
    } else {
      var prefix := chain[..|chain| - 1];
      assert prefix[..n] == chain[..n];
      ValidPrefix(cfg, prefix, n);
    }
  }

  lemma {:induction false} ChainIdsGrow(cfg: Config, chain: seq<Block>, k: nat)
    requires ValidChain(cfg, chain) && k <= |chain|
    ensures ChainHistory(cfg, chain[..k]).ids <= ChainHistory(cfg, chain).ids
    decreases |chain|
  {
    hide ChainHistory, Replay, ValidNext, Tip;
    if k == |chain| {
      assert chain[..k] == chain;
    } else {
      var n := |chain| - 1;
      assert chain[..n][..k] == chain[..k];
      ChainIdsGrow(cfg, chain[..n], k);
      NextIdsGrow(cfg, chain[..n], chain[n]);
      assert chain[..n] + [chain[n]] == chain;
    }
  }

  lemma NextIdsGrow(cfg: Config, chain: seq<Block>, b: Block)
    requires ValidNext(cfg, chain, b)
    ensures ChainHistory(cfg, chain).ids <= ChainHistory(cfg, chain + [b]).ids
  {
    hide ApplyTxs, RecordTxs, Replay, ChainHistory, ValidTxs;
    ReplayNext(cfg, chain, b);
    FreshIds(cfg, ChainHistory(cfg, chain), Replay(cfg, chain), b.txs, |chain| + 1, true, |b.txs|);
  }

  /** The heart of cache coherence: what a new block adds to the cache has transaction ids that no
      earlier state of the chain knows, so every earlier state still agrees with the cache. */
  lemma CacheExtend(cfg: Config, cache: Utxos, before: Utxos, chain: seq<Block>, b: Block, view: Kv)
    requires Premises(cfg) && ValidChain(cfg, chain) && ValidNext(cfg, chain, b)
    requires CacheOk(cfg, before, chain) && FromCacheOr(cache, before, IdsOf(b.txs))
    requires Coherent(cache, view) && Shows(view, Replay(cfg, chain + [b]))
    ensures CacheOk(cfg, cache, chain + [b])
  {
    hide ApplyTxs, RecordTxs, Replay, ChainHistory, Inv;
    BlockFacts(cfg, chain, b);
    var next := chain + [b];
    forall k | 0 <= k <= |next|
      ensures Agrees(cache, Replay(cfg, next[..k]).utxos)
    {
      if k == |next| {
        assert next[..k] == next;
        AgreesWithView(cache, view, Replay(cfg, next));
      } else {
        assert next[..k] == chain[..k];
        assert Agrees(before, Replay(cfg, chain[..k]).utxos);
        ValidPrefix(cfg, chain, k);
        KnownChain(cfg, chain[..k]);
        ChainIdsGrow(cfg, chain, k);
      }
    }
  }

  lemma AgreesWithView(cache: Utxos, view: Kv, s: State)
    requires Coherent(cache, view) && Shows(view, s)
    ensures Agrees(cache, s.utxos)
  {
    forall r | r in cache && r in s.utxos
      ensures cache[r] == s.utxos[r]
    {
      assert Lookup(view, UtxoKey(r)) == Some(UtxoV(s.utxos[r]));
    }
  }

  lemma KnownChain(cfg: Config, chain: seq<Block>)
    requires Premises(cfg) && ValidChain(cfg, chain)
    ensures KnownIds(Replay(cfg, chain).utxos, ChainHistory(cfg, chain).ids)
  {
    hide ApplyTxs, RecordTxs, Replay, ChainHistory;
    InvChain(cfg, chain);
  }
}
