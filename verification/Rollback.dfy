/** The in-memory rollback buffer, newest point first, and its copy in the store's journal. */
module Rollback {
  import opened Wrappers
  import opened Types
  import opened Task
  import opened Storage

  type Originals = map<Key, Option<Value>>

  datatype PointKvs = PointKvs(point: Point, originals: Originals)

  /** The first position of a point. */
  function Position(points: seq<PointKvs>, p: Point): (r: Option<nat>)
    ensures r.Some? ==> r.value < |points| && points[r.value].point == p
    ensures r.Some? ==> forall i | 0 <= i < r.value :: points[i].point != p
    ensures r.None? ==> forall i | 0 <= i < |points| :: points[i].point != p
  {
    if points == [] then None
    else if points[0].point == p then Some(0)
    else match Position(points[1..], p) case Some(i) => Some(i + 1) case None => None
  }

  function Truncate<T>(s: seq<T>, n: nat): seq<T> {
    if |s| <= n then s else s[..n]
  }

  class RollbackBuffer {
    var points: seq<PointKvs>
    const size: nat
    const safeMode: bool

    constructor (maxRollback: nat, safeMode: bool)
      ensures points == [] && size == maxRollback + 2 && this.safeMode == safeMode
    {
      points := [];
      size := maxRollback + 2;
      this.safeMode := safeMode;
    }

    /** Put a point in front and drop the oldest beyond the size. */
    method AddBlock(point: Point, originals: Originals)
      modifies this
      ensures points == Truncate([PointKvs(point, originals)] + old(points), size)
    {
      points := Truncate([PointKvs(point, originals)] + points, size);
    }

    /** The points after the given one, newest first, or nothing if it is not there. */
    method PointsSince(point: Point) returns (r: Option<seq<PointKvs>>)
      ensures r == match Position(points, point) case Some(i) => Some(points[..i]) case None => None
    {
      match Position(points, point) {
        case Some(i) => r := Some(points[..i]);
        case None => r := None;
      }
    }

    /** Remove and return the points after the given one. */
    method RollbackToPoint(point: Point) returns (r: Option<seq<PointKvs>>)
      modifies this
      ensures match Position(old(points), point)
              case Some(i) => r == Some(old(points)[..i]) && points == old(points)[i..]
              case None => r == None && points == old(points)
    {
      match Position(points, point) {
        case Some(i) =>
          r := Some(points[..i]);
          points := points[i..];
        case None =>
          r := None;
      }
    }

    /** Add originals to a point, or add the point. In safe mode a key already recorded is a panic. */
    method InsertActionsForPoint(point: Point, more: Originals) returns (panic: bool)
      modifies this
      ensures match Position(old(points), point)
              case Some(i) =>
                var entry := old(points)[i];
                && panic == (safeMode && entry.originals.Keys * more.Keys != {})
                && points == if panic then old(points)
                             else old(points)[i := entry.(originals := entry.originals + more)]
              case None => !panic && points == Truncate([PointKvs(point, more)] + old(points), size)
    {
      panic := false;
      match Position(points, point) {
        case Some(i) =>
          var entry := points[i];
          if safeMode && entry.originals.Keys * more.Keys != {} {
            return true;
          }
          points := points[i := entry.(originals := entry.originals + more)];
        case None =>
          AddBlock(point, more);
      }
    }
  }

  // --- undoing points

  /** Undo points one after the other, the first one first. */
  function UndoAll(d: Kv, points: seq<PointKvs>): Kv {
    if points == [] then d
    else Restored(UndoAll(d, points[..|points| - 1]), points[|points| - 1].originals)
  }

  // --- the journal

  /** Heights fall strictly from the front, and every point recorded something. */
  ghost predicate Ordered(points: seq<PointKvs>) {
    && (forall i, j | 0 <= i < j < |points| :: points[i].point.height > points[j].point.height)
    && (forall i | 0 <= i < |points| :: points[i].originals != map[])
  }

  function EntryKey(p: PointKvs, k: Key): Key {
    JournalKey(p.point.height, p.point.hash, k)
  }

  /** A journal entry that a point recorded. */
  predicate RecordedAt(p: PointKvs, k: Key, v: Value) {
    k.JournalKey? && k.key in p.originals && k == EntryKey(p, k.key) && v == PreviousV(p.originals[k.key])
  }

  ghost predicate FromSome(points: seq<PointKvs>, k: Key, v: Value) {
    exists p :: p in points && RecordedAt(p, k, v)
  }

  ghost predicate AllRecorded(journal: Kv, p: PointKvs) {
    forall k | k in p.originals :: Lookup(journal, EntryKey(p, k)) == Some(PreviousV(p.originals[k]))
  }

  /** A journal holds exactly what the points recorded. */
  ghost predicate JournalIs(journal: Kv, points: seq<PointKvs>) {
    && (forall k | k in journal :: FromSome(points, k, journal[k]))
    && (forall p | p in points :: AllRecorded(journal, p))
  }

  lemma FromMore(points: seq<PointKvs>, more: seq<PointKvs>, k: Key, v: Value)
    requires FromSome(points, k, v) && forall p | p in points && RecordedAt(p, k, v) :: p in more
    ensures FromSome(more, k, v)
  {
    var p :| p in points && RecordedAt(p, k, v);
    assert p in more;
  }

  /** A new newest point. */
  lemma JournalPush(journal: Kv, points: seq<PointKvs>, p: PointKvs)
    requires JournalIs(journal, points)
    requires forall q | q in points :: q.point.height < p.point.height
    ensures JournalIs(journal + Entries(p.point.height, p.point.hash, p.originals), [p] + points)
  {
    hide Entries, FromSome, AllRecorded;
    var entries := Entries(p.point.height, p.point.hash, p.originals);
    var all := [p] + points;
    forall k | k in journal + entries
      ensures FromSome(all, k, (journal + entries)[k])
    {
      if k in entries {
        FromEntries(p, points, k);
      } else {
        FromMore(points, all, k, journal[k]);
      }
    }
    forall q | q in all
      ensures AllRecorded(journal + entries, q)
    {
      RecordedBeside(journal, p, q);
    }
  }

  lemma FromEntries(p: PointKvs, points: seq<PointKvs>, k: Key)
    requires k in Entries(p.point.height, p.point.hash, p.originals)
    ensures FromSome([p] + points, k, Entries(p.point.height, p.point.hash, p.originals)[k])
  {
    EntriesAt(p.point.height, p.point.hash, p.originals, k);
    assert p in [p] + points;
    assert RecordedAt(p, k, Entries(p.point.height, p.point.hash, p.originals)[k]);
  }

  lemma RecordedBeside(journal: Kv, p: PointKvs, q: PointKvs)
    requires q != p ==> AllRecorded(journal, q) && q.point.height < p.point.height
    ensures AllRecorded(journal + Entries(p.point.height, p.point.hash, p.originals), q)
  {
    forall k | k in q.originals
      ensures Lookup(journal + Entries(p.point.height, p.point.hash, p.originals), EntryKey(q, k))
           == Some(PreviousV(q.originals[k]))
    {
      EntriesAt(p.point.height, p.point.hash, p.originals, EntryKey(q, k));
    }
  }

  /** Collection keeps the points at or above a height. */
  lemma JournalCollect(journal: Kv, points: seq<PointKvs>, below: nat, kept: seq<PointKvs>)
    requires JournalIs(journal, points)
    requires forall p | p in points :: p in kept <==> p.point.height >= below
    requires forall p | p in kept :: p in points
    ensures JournalIs(Collected(journal, below), kept)
  {
    var j := Collected(journal, below);
    forall k | k in j
      ensures FromSome(kept, k, j[k])
    {
      FromMore(points, kept, k, journal[k]);
    }
  }

  /** The journal keys of a list of points. */
  function EntryKeys(points: seq<PointKvs>): set<Key> {
    set p, k | p in points && k in p.originals :: EntryKey(p, k)
  }

  lemma DroppedEntry(dropped: seq<PointKvs>, p: PointKvs, k: Key, v: Value)
    requires p in dropped && RecordedAt(p, k, v)
    ensures k in EntryKeys(dropped)
  {
    assert k == EntryKey(p, k.key);
  }

  lemma KeptEntries(journal: Kv, dropped: seq<PointKvs>, q: PointKvs)
    requires AllRecorded(journal, q) && forall p | p in dropped :: p.point.height != q.point.height
    ensures AllRecorded(journal - EntryKeys(dropped), q)
  {
    assert forall k | k in q.originals :: EntryKey(q, k) !in EntryKeys(dropped);
  }

  /** Removing the entries of some points leaves those of the others. */
  lemma JournalDrop(journal: Kv, points: seq<PointKvs>, dropped: seq<PointKvs>, kept: seq<PointKvs>)
    requires JournalIs(journal, points)
    requires forall p | p in points :: p in dropped || p in kept
    requires forall p | p in kept :: p in points
    requires forall p, q | p in dropped && q in kept :: p.point.height != q.point.height
    ensures JournalIs(journal - EntryKeys(dropped), kept)
  {
    hide EntryKeys, FromSome, AllRecorded, RecordedAt;
    var j := journal - EntryKeys(dropped);
    forall k | k in j
      ensures FromSome(kept, k, j[k])
    {
      forall p | p in points && RecordedAt(p, k, journal[k])
        ensures p in kept
      {
        if p in dropped {
          DroppedEntry(dropped, p, k, journal[k]);
        }
      }
      FromMore(points, kept, k, journal[k]);
    }
    forall q | q in kept
      ensures AllRecorded(j, q)
    {
      KeptEntries(journal, dropped, q);
    }
  }
}
