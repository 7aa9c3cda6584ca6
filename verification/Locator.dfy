/** The block locator offered to a peer: dense near the tip, then at doubling distances. */
module Locator {
  import opened Wrappers
  import opened Types
  import opened Ledger
  import opened Heights

  /** Some height lies at least `d` and at most `2d` below the tip. */
  ghost predicate Covers(heights: seq<nat>, tip: nat, d: nat) {
    exists h :: h in heights && d <= tip - h <= 2 * d
  }

  ghost predicate Decreasing(heights: seq<nat>) {
    forall i, j | 0 <= i < j < |heights| :: heights[i] > heights[j]
  }

  lemma CoversMore(heights: seq<nat>, more: nat, tip: nat, d: nat)
    requires Covers(heights, tip, d) || d <= tip - more <= 2 * d
    ensures Covers(heights + [more], tip, d)
  {
    if Covers(heights, tip, d) {
      var h :| h in heights && d <= tip - h <= 2 * d;
      assert h in heights + [more];
    } else {
      assert more in heights + [more];
    }
  }

  /** The heights below the tip: ten in a row, then with a step that doubles each time. The step never
      overflows, and with genesis every reorganisation depth is covered within a factor of two. */
  method Indexes(tip: nat) returns (indexes: seq<nat>)
    requires 0 < tip <= U64_MAX
    ensures indexes != [] && indexes[0] == tip && Decreasing(indexes)
    ensures forall h | h in indexes :: 1 <= h <= tip
    ensures forall d | 1 <= d <= tip :: Covers(indexes + [0], tip, d)
  {
    indexes := [];
    var step, index := 1, tip;
    ghost var last := tip;
    while true
      invariant 0 < index <= last <= tip
      invariant indexes == [] ==> index == tip
      invariant indexes != [] ==> indexes[0] == tip
      invariant forall h | h in indexes :: index < h <= tip
      invariant Decreasing(indexes)
      invariant |indexes| < 10 ==> step == 1 && tip - index == |indexes|
      invariant |indexes| >= 10 ==> step >= 2 && tip - index == 2 * step + 7
      invariant tip - index <= 2 * (tip - last) + 2
      invariant forall d | 1 <= d <= tip - last :: Covers(indexes, tip, d)
      decreases index
    {
      forall d | 1 <= d <= tip - index
        ensures Covers(indexes + [index], tip, d)
      {
        CoversMore(indexes, index, tip, d);
      }
      forall i | 0 <= i < |indexes|
        ensures indexes[i] > index
      {
        assert indexes[i] in indexes;
      }
      indexes, last := indexes + [index], index;
      if |indexes| >= 10 {
        assert step * 2 <= tip <= U64_MAX;
        step := step * 2;
      }
      index := if index >= step then index - step else 0;
      if index == 0 {
        break;
      }
    }
    forall d | 1 <= d <= tip
      ensures Covers(indexes + [0], tip, d)
    {
      CoversMore(indexes, 0, tip, d);
    }
  }

  /** The locator's entries are the chain's blocks at some heights, and genesis. */
  ghost predicate Lists(cfg: Config, out: seq<Point>, heights: seq<nat>, chain: seq<Block>) {
    && |out| == |heights|
    && forall i | 0 <= i < |out| ::
         out[i].height == heights[i] <= |chain| && out[i] == Tip(cfg, chain[..heights[i]])
  }

  lemma ListsCovers(cfg: Config, out: seq<Point>, heights: seq<nat>, chain: seq<Block>, d: nat)
    requires Lists(cfg, out, heights, chain) && Covers(heights, |chain|, d)
    ensures exists p :: p in out && d <= |chain| - p.height <= 2 * d
  {
    var h :| h in heights && d <= |chain| - h <= 2 * d;
    var i :| 0 <= i < |heights| && heights[i] == h;
    assert out[i] in out;
  }

  lemma ListsMore(cfg: Config, out: seq<Point>, heights: seq<nat>, chain: seq<Block>, h: nat, hash: Hash)
    requires Lists(cfg, out, heights, chain) && h <= |chain|
    requires if h == 0 then hash == cfg.genesis else HashAt(chain, h) == Some(HashV(hash))
    ensures Lists(cfg, out + [Point(h, hash)], heights + [h], chain)
  {
  }

  lemma ListsShape(cfg: Config, out: seq<Point>, heights: seq<nat>, chain: seq<Block>)
    requires Lists(cfg, out, heights + [0], chain) && Decreasing(heights) && forall h | h in heights :: 1 <= h
    ensures forall p | p in out :: p.height <= |chain| && p == Tip(cfg, chain[..p.height])
    ensures forall i, j | 0 <= i < j < |out| :: out[i].height > out[j].height
  {
    hide Tip;
    forall i | 0 <= i < |heights|
      ensures heights[i] >= 1
    {
      assert heights[i] in heights;
    }
  }

  /** The locator: every entry is a block of the chain, from the tip down to genesis, and for any depth
      of reorganisation some entry lies at least that deep and at most twice as deep. */
  method IntersectOptions(cfg: Config, d: Kv, ghost chain: seq<Block>) returns (out: seq<Point>)
    requires DenseHeights(d, chain) && |chain| <= U64_MAX
    ensures forall p | p in out :: p.height <= |chain| && p == Tip(cfg, chain[..p.height])
    ensures forall i, j | 0 <= i < j < |out| :: out[i].height > out[j].height
    ensures out != [] && out[0] == Tip(cfg, chain) && out[|out| - 1] == Point(0, cfg.genesis)
    ensures forall depth | 1 <= depth <= |chain| :: exists p :: p in out && depth <= |chain| - p.height <= 2 * depth
  {
    hide Tip, Covers;
    out := [];
    var tip := TipHeight(d, chain);
    ghost var heights: seq<nat> := [];
    if tip.Some? {
      var indexes := Indexes(tip.value);
      for i := 0 to |indexes|
        invariant Lists(cfg, out, indexes[..i], chain)
      {
        var h := indexes[i];
        assert h in indexes;
        assert Lookup(d, HashKey(h)) == HashAt(chain, h);
        ListsMore(cfg, out, indexes[..i], chain, h, d[HashKey(h)].hash);
        assert indexes[..i + 1] == indexes[..i] + [h];
        out := out + [Point(h, d[HashKey(h)].hash)];
      }
      assert indexes[..|indexes|] == indexes;
      heights := indexes;
    }
    ListsMore(cfg, out, heights, chain, 0, cfg.genesis);
    out := out + [Point(0, cfg.genesis)];
    assert chain[..|chain|] == chain;
    ListsShape(cfg, out, heights, chain);
    forall depth | 1 <= depth <= |chain|
      ensures exists p :: p in out && depth <= |chain| - p.height <= 2 * depth
    {
      ListsCovers(cfg, out, heights + [0], chain, depth);
    }
  }
}
