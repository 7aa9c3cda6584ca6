/** Rebuilding the rollback buffer from the journal when the process starts. */
module Reload {
  import opened Wrappers
  import opened Types
  import opened Task
  import opened Storage
  import opened Rollback

  /** The buffer once the points after `t` are loaded in full and the t-th in part. */
  function Loaded(points: seq<PointKvs>, t: nat, got: set<Key>): seq<PointKvs>
    requires t <= |points|
  {
    if t == |points| then []
    else [PointKvs(points[t].point, Restrict(points[t].originals, got))] + points[t + 1..]
  }

  /** A key of the i-th point is still to be loaded then. */
  ghost predicate LeftOf(points: seq<PointKvs>, t: nat, got: set<Key>, i: nat, x: Key) {
    i <= t && i < |points| && x in points[i].originals && (i == t ==> x !in got)
  }

  /** The journal keys still to be loaded then. */
  ghost predicate Remaining(todo: set<Key>, points: seq<PointKvs>, t: nat, got: set<Key>) {
    && (forall k | k in todo :: k.JournalKey?)
    && (forall k | k in todo :: exists i: nat :: LeftOf(points, t, got, i, k.key) && k == EntryKey(points[i], k.key))
    && (forall i: nat, x | LeftOf(points, t, got, i, x) :: EntryKey(points[i], x) in todo)
  }

  lemma {:induction false} LeastHeight(todo: set<Key>) returns (k: Key)
    requires todo != {} && forall k | k in todo :: k.JournalKey?
    ensures k in todo && forall x | x in todo :: k.height <= x.height
  {
    k :| k in todo;
    if todo != {k} {
      var rest := todo - {k};
      var m := LeastHeight(rest);
      if m.height < k.height {
        k := m;
      }
    }
  }

  /** The entry that comes next in height order belongs to the point being loaded, while it has any
      left, and otherwise to the next newer one. */
  lemma NextEntry(todo: set<Key>, points: seq<PointKvs>, t: nat, got: set<Key>, k: Key)
    requires Ordered(points) && t <= |points| && Remaining(todo, points, t, got)
    requires t < |points| ==> got <= points[t].originals.Keys
    requires k in todo && forall x | x in todo :: k.height <= x.height
    ensures t < |points| && got < points[t].originals.Keys ==>
      k.key in points[t].originals && k.key !in got && k == EntryKey(points[t], k.key)
    ensures t == |points| || got == points[t].originals.Keys ==>
      t > 0 && k.key in points[t - 1].originals && k == EntryKey(points[t - 1], k.key)
  {
    var i: nat :| LeftOf(points, t, got, i, k.key) && k == EntryKey(points[i], k.key);
    if t < |points| && got < points[t].originals.Keys {
      var x :| x in points[t].originals && x !in got;
      assert LeftOf(points, t, got, t, x);
    } else {
      assert i < t;
      var x :| x in points[t - 1].originals;
      assert LeftOf(points, t, got, t - 1, x);
    }
  }

  lemma RemainingSame(todo: set<Key>, points: seq<PointKvs>, t: nat, got: set<Key>, k: Key)
    requires Ordered(points) && t < |points| && Remaining(todo, points, t, got)
    requires k in points[t].originals && k !in got
    ensures Remaining(todo - {EntryKey(points[t], k)}, points, t, got + {k})
  {
    var e := EntryKey(points[t], k);
    forall x | x in todo - {e}
      ensures exists i: nat :: LeftOf(points, t, got + {k}, i, x.key) && x == EntryKey(points[i], x.key)
    {
      var i: nat :| LeftOf(points, t, got, i, x.key) && x == EntryKey(points[i], x.key);
      assert LeftOf(points, t, got + {k}, i, x.key);
    }
    forall i: nat, x | LeftOf(points, t, got + {k}, i, x)
      ensures EntryKey(points[i], x) in todo - {e}
    {
      assert LeftOf(points, t, got, i, x);
      assert i < t ==> points[i].point.height > points[t].point.height;
    }
  }

  lemma RemainingNext(todo: set<Key>, points: seq<PointKvs>, t: nat, got: set<Key>, k: Key)
    requires Ordered(points) && 0 < t <= |points| && Remaining(todo, points, t, got)
    requires t < |points| ==> got == points[t].originals.Keys
    requires k in points[t - 1].originals
    ensures Remaining(todo - {EntryKey(points[t - 1], k)}, points, t - 1, {k})
  {
    assert forall i: nat, x :: LeftOf(points, t - 1, {}, i, x) <==> LeftOf(points, t, got, i, x);
    assert Remaining(todo, points, t - 1, {});
    RemainingSame(todo, points, t - 1, {}, k);
    assert {} + {k} == {k};
  }

  lemma PositionLoaded(points: seq<PointKvs>, t: nat, got: set<Key>, i: nat)
    requires Ordered(points) && t <= |points| && i < |points|
    ensures i == t ==> Position(Loaded(points, t, got), points[i].point) == Some(0)
    ensures i < t ==> Position(Loaded(points, t, got), points[i].point) == None
  {
    var loaded := Loaded(points, t, got);
    assert forall j | 0 <= j < |loaded| :: loaded[j].point == points[t + j].point;
    forall j | 0 <= j < |loaded|
      ensures i < t ==> loaded[j].point != points[i].point
    {
      assert i < t ==> points[i].point.height > points[t + j].point.height;
    }
  }

  lemma RemainingStart(journal: Kv, points: seq<PointKvs>)
    requires JournalIs(journal, points)
    ensures Remaining(journal.Keys, points, |points|, {})
  {
    forall k | k in journal.Keys
      ensures k.JournalKey?
      ensures exists i: nat :: LeftOf(points, |points|, {}, i, k.key) && k == EntryKey(points[i], k.key)
    {
      assert FromSome(points, k, journal[k]);
      var p :| p in points && RecordedAt(p, k, journal[k]);
      var i: nat :| i < |points| && points[i] == p;
      assert LeftOf(points, |points|, {}, i, k.key);
    }
    forall i: nat, x | LeftOf(points, |points|, {}, i, x)
      ensures EntryKey(points[i], x) in journal.Keys
    {
      assert AllRecorded(journal, points[i]);
    }
  }

  lemma LoadSame(points: seq<PointKvs>, t: nat, got: set<Key>, k: Key)
    requires t < |points| && k in points[t].originals && k !in got
    ensures var loaded := Loaded(points, t, got);
            var entry := loaded[0].(originals := loaded[0].originals + map[k := points[t].originals[k]]);
            loaded[0 := entry] == Loaded(points, t, got + {k})
  {
    assert Restrict(points[t].originals, got) + map[k := points[t].originals[k]] == Restrict(points[t].originals, got + {k});
  }

  lemma LoadNext(points: seq<PointKvs>, t: nat, got: set<Key>, k: Key, size: nat)
    requires 0 < t <= |points| <= size && k in points[t - 1].originals
    requires t < |points| ==> got == points[t].originals.Keys
    ensures var next := PointKvs(points[t - 1].point, map[k := points[t - 1].originals[k]]);
            Truncate([next] + Loaded(points, t, got), size) == Loaded(points, t - 1, {k})
  {
    assert t < |points| ==> Restrict(points[t].originals, got) == points[t].originals;
    assert Loaded(points, t, got) == points[t..];
    assert map[k := points[t - 1].originals[k]] == Restrict(points[t - 1].originals, {k});
  }

  /** One journal entry, the lowest left, goes into the buffer. */
  method LoadEntry(
    buffer: RollbackBuffer, k: Key, v: Value, ghost points: seq<PointKvs>, ghost todo: set<Key>,
    ghost t: nat, ghost got: set<Key>)
    returns (ghost t': nat, ghost got': set<Key>)
    requires Ordered(points) && t <= |points| <= buffer.size && Remaining(todo, points, t, got)
    requires t < |points| ==> got <= points[t].originals.Keys && got != {}
    requires k in todo && forall x | x in todo :: k.height <= x.height
    requires forall p | p in points && k.JournalKey? && k.key in p.originals && k == EntryKey(p, k.key) ::
      v == PreviousV(p.originals[k.key])
    requires buffer.points == Loaded(points, t, got)
    modifies buffer
    ensures t' <= |points| && Remaining(todo - {k}, points, t', got')
    ensures t' < |points| ==> got' <= points[t'].originals.Keys && got' != {}
    ensures buffer.points == Loaded(points, t', got')
  {
    hide Remaining, Ordered;
    NextEntry(todo, points, t, got, k);
    if t < |points| && got < points[t].originals.Keys {
      t', got' := t, got + {k.key};
      RemainingSame(todo, points, t, got, k.key);
      PositionLoaded(points, t, got, t);
      LoadSame(points, t, got, k.key);
    } else {
      t', got' := t - 1, {k.key};
      RemainingNext(todo, points, t, got, k.key);
      PositionLoaded(points, t, got, t - 1);
      LoadNext(points, t, got, k.key, buffer.size);
    }
    assert points[t'] in points;
    var panic := buffer.InsertActionsForPoint(Point(k.height, k.hash), map[k.key := v.previous]);
  }

  /** Reading the journal in key order, that is by rising height, rebuilds exactly the points it
      records, newest first, and never meets a key twice. */
  method FetchFromStorage(store: Kv, maxRollback: nat, safeMode: bool, ghost points: seq<PointKvs>)
    returns (buffer: RollbackBuffer)
    requires JournalIs(Journal(store), points) && Ordered(points) && |points| <= maxRollback + 2
    ensures fresh(buffer) && buffer.points == points
    ensures buffer.size == maxRollback + 2 && buffer.safeMode == safeMode
  {
    buffer := new RollbackBuffer(maxRollback, safeMode);
    var journal := Journal(store);
    var todo := journal.Keys;
    ghost var t: nat, got: set<Key> := |points|, {};
    RemainingStart(journal, points);
    while todo != {}
      invariant t <= |points| && todo <= journal.Keys
      invariant Remaining(todo, points, t, got)
      invariant t < |points| ==> got <= points[t].originals.Keys && got != {}
      invariant buffer.points == Loaded(points, t, got)
      decreases todo
    {
      ghost var least := LeastHeight(todo);
      var k :| k in todo && forall x | x in todo :: k.height <= x.height;
      t, got := LoadEntry(buffer, k, journal[k], points, todo, t, got);
      todo := todo - {k};
    }
    LoadedAll(points, t, got);
  }

  lemma LoadedAll(points: seq<PointKvs>, t: nat, got: set<Key>)
    requires Ordered(points) && t <= |points| && Remaining({}, points, t, got)
    requires t < |points| ==> got <= points[t].originals.Keys
    ensures Loaded(points, t, got) == points
  {
    if t > 0 {
      var x :| x in points[t - 1].originals;
      assert LeftOf(points, t, got, t - 1, x);
    } else if points != [] {
      forall x | x in points[0].originals
        ensures x in got
      {
        assert LeftOf(points, t, got, 0, x) <==> x !in got;
      }
      assert Restrict(points[0].originals, got) == points[0].originals;
    }
  }
}
