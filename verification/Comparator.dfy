/** The order of versioned keys: a user key followed by its timestamp, newest version first. */
module Comparator {
  import opened Types
  import opened Bytes

  datatype Ordering = Before | Same | After

  function LittleEndian(n: nat, w: nat): (r: bytes)
    ensures |r| == w
  {
    if w == 0 then [] else [n % 256] + LittleEndian(n / 256, w - 1)
  }

  function FromLittleEndian(bs: bytes): nat {
    if bs == [] then 0 else bs[0] + 256 * FromLittleEndian(bs[1..])
  }

  lemma {:induction false} LittleEndianRoundTrip(n: nat, w: nat)
    requires n < Pow(w)
    ensures FromLittleEndian(LittleEndian(n, w)) == n
  {
    if w > 0 {
      LittleEndianRoundTrip(n / 256, w - 1);
      assert LittleEndian(n, w)[1..] == LittleEndian(n / 256, w - 1);
    }
  }

  function CompareBytes(a: bytes, b: bytes): Ordering {
    if Less(a, b) then Before else if a == b then Same else After
  }

  function CompareNumbers(a: nat, b: nat): Ordering {
    if a < b then Before else if a == b then Same else After
  }

  function Reverse(o: Ordering): Ordering {
    match o
    case Before => After
    case Same => Same
    case After => Before
  }

  /** The comparator: user keys first; between versions of one key the newer timestamp comes first. */
  function Compare(a: bytes, b: bytes): Ordering
    requires |a| >= 8 && |b| >= 8
  {
    var keys := CompareBytes(a[..|a| - 8], b[..|b| - 8]);
    if keys != Same then keys
    else Reverse(CompareNumbers(FromLittleEndian(a[|a| - 8..]), FromLittleEndian(b[|b| - 8..])))
  }

  datatype Version = Version(key: bytes, ts: nat)

  function Code(v: Version): bytes {
    v.key + LittleEndian(v.ts, 8)
  }

  lemma Pow8()
    ensures Pow(8) == U64_MAX + 1
  {
    assert Pow(4) == 0x1_0000_0000;
  }

  /** What the comparator sees of two versions. */
  lemma CompareVersions(a: Version, b: Version)
    requires a.ts <= U64_MAX && b.ts <= U64_MAX
    ensures Compare(Code(a), Code(b)) ==
      if a.key != b.key then CompareBytes(a.key, b.key) else CompareNumbers(b.ts, a.ts)
  {
    Pow8();
    LittleEndianRoundTrip(a.ts, 8);
    LittleEndianRoundTrip(b.ts, 8);
    assert Code(a)[..|Code(a)| - 8] == a.key && Code(a)[|Code(a)| - 8..] == LittleEndian(a.ts, 8);
    assert Code(b)[..|Code(b)| - 8] == b.key && Code(b)[|Code(b)| - 8..] == LittleEndian(b.ts, 8);
    if Less(a.key, b.key) && a.key == b.key {
      LessIrreflexive(a.key);
    }
  }

  ghost predicate InOrder(versions: seq<Version>) {
    && (forall i | 0 <= i < |versions| :: versions[i].ts <= U64_MAX)
    && (forall i, j | 0 <= i < j < |versions| :: Compare(Code(versions[i]), Code(versions[j])) == Before)
  }

  lemma CompareBefore(a: Version, b: Version)
    requires a.ts <= U64_MAX && b.ts <= U64_MAX
    ensures Compare(Code(a), Code(b)) == Before <==> Less(a.key, b.key) || (a.key == b.key && a.ts > b.ts)
  {
    CompareVersions(a, b);
    LessIrreflexive(a.key);
  }

  /** Reading as of a timestamp is one seek: the first version not before (key, ts) is the key's newest
      version that is not newer than ts, if there is one. */
  lemma SeekNewest(versions: seq<Version>, key: bytes, ts: nat, i: nat)
    requires InOrder(versions) && ts <= U64_MAX && i <= |versions|
    requires forall j | 0 <= j < i :: Compare(Code(versions[j]), Code(Version(key, ts))) == Before
    requires i < |versions| ==> Compare(Code(versions[i]), Code(Version(key, ts))) != Before
    ensures i < |versions| && versions[i].key == key ==>
      && versions[i].ts <= ts
      && forall j | 0 <= j < |versions| && versions[j].key == key && versions[j].ts <= ts :: versions[j].ts <= versions[i].ts
    ensures i == |versions| || versions[i].key != key ==>
      forall j | 0 <= j < |versions| && versions[j].key == key :: versions[j].ts > ts
  {
    hide Compare, Code;
    forall j | 0 <= j < |versions| && versions[j].key == key
      ensures j < i ==> versions[j].ts > ts
      ensures j > i ==> versions[i].key == key && versions[j].ts < versions[i].ts
    {
      LessIrreflexive(key);
      CompareBefore(versions[j], Version(key, ts));
      if j > i {
        CompareBefore(versions[i], versions[j]);
        CompareBefore(versions[i], Version(key, ts));
      }
    }
    if i < |versions| {
      CompareBefore(versions[i], Version(key, ts));
    }
  }
}
