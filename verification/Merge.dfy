/** Counter merge operations: applying them to a value, combining two of them, and the store's full
    and partial merges. All amounts are u128. */
module MergeOps {
  import opened Wrappers
  import opened Types

  type u128 = n: nat | n <= U128_MAX

  datatype MergeOp = Increment(amount: u128) | Decrement(amount: u128)

  function SatAdd(a: u128, b: u128): u128 {
    Min(a + b, U128_MAX)
  }

  function SatSub(a: u128, b: u128): u128 {
    Max(a - b, 0)
  }

  function ApplyOp(op: MergeOp, v: u128): u128 {
    match op
    case Increment(n) => SatAdd(v, n)
    case Decrement(n) => SatSub(v, n)
  }

  /** The source's `combine_merge_operations`. */
  function Combine(a: MergeOp, b: MergeOp): MergeOp {
    match (a, b)
    case (Increment(x), Increment(y)) => Increment(SatAdd(x, y))
    case (Decrement(x), Decrement(y)) => Decrement(SatAdd(x, y))
    case (Increment(x), Decrement(y)) => if y <= x then Increment(SatSub(x, y)) else Decrement(SatSub(y, x))
    case (Decrement(x), Increment(y)) => if y <= x then Decrement(SatSub(x, y)) else Increment(SatSub(y, x))
  }

  /** When combining loses nothing: same direction always; opposite directions when the first one did
      not hit the end of the range, or the second one does nothing. */
  predicate Combinable(a: MergeOp, b: MergeOp, v: u128) {
    match (a, b)
    case (Increment(x), Decrement(y)) => v + x <= U128_MAX || y == 0
    case (Decrement(x), Increment(y)) => x <= v || y == 0
    case _ => true
  }

  /** Combining two operations is applying them one after the other exactly when they are combinable. */
  lemma CombineExact(a: MergeOp, b: MergeOp, v: u128)
    ensures ApplyOp(Combine(a, b), v) == ApplyOp(b, ApplyOp(a, v)) <==> Combinable(a, b, v)
  {
    match (a, b) {
      case (Increment(x), Increment(y)) =>
      case (Decrement(x), Decrement(y)) =>
      case (Increment(x), Decrement(y)) =>
      case (Decrement(x), Increment(y)) =>
    }
  }

  // --- lists of operands

  function FullMerge(v: u128, ops: seq<MergeOp>): u128 {
    if ops == [] then v else ApplyOp(ops[|ops| - 1], FullMerge(v, ops[..|ops| - 1]))
  }

  function IncTotal(ops: seq<MergeOp>): nat {
    if ops == [] then 0 else
    IncTotal(ops[..|ops| - 1]) + match ops[|ops| - 1] case Increment(n) => n case Decrement(_) => 0
  }

  function DecTotal(ops: seq<MergeOp>): nat {
    if ops == [] then 0 else
    DecTotal(ops[..|ops| - 1]) + match ops[|ops| - 1] case Increment(_) => 0 case Decrement(n) => n
  }

  /** The net operation of a list, from its saturated totals. */
  function NetOp(ops: seq<MergeOp>): MergeOp {
    var inc, dec := Min(IncTotal(ops), U128_MAX), Min(DecTotal(ops), U128_MAX);
    if inc >= dec then Increment(SatSub(inc, dec)) else Decrement(SatSub(dec, inc))
  }

  /** The full merge operator: start from the stored value, or zero, and apply each operand. */
  method MergeOperator(existing: Option<u128>, operands: seq<MergeOp>) returns (current: u128)
    ensures current == FullMerge(existing.UnwrapOr(0), operands)
  {
    current := match existing { case Some(v) => v case None => 0 };
    for i := 0 to |operands|
      invariant current == FullMerge(existing.UnwrapOr(0), operands[..i])
    {
      assert operands[..i + 1][..i] == operands[..i];
      match operands[i] {
        case Increment(delta) => current := SatAdd(current, delta);
        case Decrement(delta) => current := SatSub(current, delta);
      }
    }
    assert operands[..|operands|] == operands;
  }

  /** The partial merge operator: total the increments and the decrements, and keep the difference. */
  method PartialMergeOperator(operands: seq<MergeOp>) returns (op: MergeOp)
    ensures op == NetOp(operands)
  {
    var incrementTotal: u128, decrementTotal: u128 := 0, 0;
    for i := 0 to |operands|
      invariant incrementTotal == Min(IncTotal(operands[..i]), U128_MAX)
      invariant decrementTotal == Min(DecTotal(operands[..i]), U128_MAX)
    {
      assert operands[..i + 1][..i] == operands[..i];
      match operands[i] {
        case Increment(delta) => incrementTotal := SatAdd(incrementTotal, delta);
        case Decrement(delta) => decrementTotal := SatAdd(decrementTotal, delta);
      }
    }
    assert operands[..|operands|] == operands;
    if incrementTotal >= decrementTotal {
      op := Increment(SatSub(incrementTotal, decrementTotal));
    } else {
      op := Decrement(SatSub(decrementTotal, incrementTotal));
    }
  }

  // --- regrouping

  function Flatten(groups: seq<seq<MergeOp>>): seq<MergeOp> {
    if groups == [] then [] else Flatten(groups[..|groups| - 1]) + groups[|groups| - 1]
  }

  /** Each group replaced by its partial merge. */
  function Partials(groups: seq<seq<MergeOp>>): seq<MergeOp> {
    if groups == [] then [] else Partials(groups[..|groups| - 1]) + [NetOp(groups[|groups| - 1])]
  }

  /** The operands combined pairwise, left to right, as the write buffer does. */
  function Combined(ops: seq<MergeOp>): MergeOp
    requires ops != []
  {
    if |ops| == 1 then ops[0] else Combine(Combined(ops[..|ops| - 1]), ops[|ops| - 1])
  }

  ghost predicate AllIncrements(ops: seq<MergeOp>) {
    forall i | 0 <= i < |ops| :: ops[i].Increment?
  }

  ghost predicate AllDecrements(ops: seq<MergeOp>) {
    forall i | 0 <= i < |ops| :: ops[i].Decrement?
  }

  /** No running value leaves the u128 range, and neither total does. */
  ghost predicate InRange(v: u128, ops: seq<MergeOp>) {
    && (forall k | 0 <= k <= |ops| :: 0 <= v + IncTotal(ops[..k]) - DecTotal(ops[..k]) <= U128_MAX)
    && IncTotal(ops) <= U128_MAX && DecTotal(ops) <= U128_MAX
  }

  /** The cases in which regrouping is harmless. */
  ghost predicate Regroupable(v: u128, ops: seq<MergeOp>) {
    AllIncrements(ops) || AllDecrements(ops) || InRange(v, ops)
  }

  /** What a regroupable list does to a value. */
  function Exact(v: u128, ops: seq<MergeOp>): u128 {
    Max(0, Min(v + IncTotal(ops) - DecTotal(ops), U128_MAX))
  }

  lemma {:induction false} TotalsAppend(a: seq<MergeOp>, b: seq<MergeOp>)
    ensures IncTotal(a + b) == IncTotal(a) + IncTotal(b)
    ensures DecTotal(a + b) == DecTotal(a) + DecTotal(b)
  {
    if b == [] {
      assert a + b == a;
    } else {
      assert (a + b)[..|a + b| - 1] == a + b[..|b| - 1];
      TotalsAppend(a, b[..|b| - 1]);
    }
  }

  lemma {:induction false} OneSided(ops: seq<MergeOp>)
    ensures AllIncrements(ops) ==> DecTotal(ops) == 0
    ensures AllDecrements(ops) ==> IncTotal(ops) == 0
  {
    if ops != [] {
      OneSided(ops[..|ops| - 1]);
    }
  }

  lemma RegroupablePrefix(v: u128, a: seq<MergeOp>, b: seq<MergeOp>)
    requires Regroupable(v, a + b)
    ensures Regroupable(v, a)
  {
    TotalsAppend(a, b);
    if AllIncrements(a + b) {
      assert forall i | 0 <= i < |a| :: a[i] == (a + b)[i];
    } else if AllDecrements(a + b) {
      assert forall i | 0 <= i < |a| :: a[i] == (a + b)[i];
    } else {
      assert forall k | 0 <= k <= |a| :: (a + b)[..k] == a[..k];
    }
  }

  lemma {:induction false} FullMergeExact(v: u128, ops: seq<MergeOp>)
    requires Regroupable(v, ops)
    ensures FullMerge(v, ops) == Exact(v, ops)
  {
    if ops != [] {
      var init, last := ops[..|ops| - 1], ops[|ops| - 1];
      assert ops == init + [last];
      RegroupablePrefix(v, init, [last]);
      FullMergeExact(v, init);
      OneSided(ops);
      OneSided(init);
      if InRange(v, ops) {
        assert ops[..|ops|] == ops;
        assert ops[..|init|] == init;
      }
    }
  }

  /** One more group: applying its net operation equals applying its operands. */
  lemma NetOpExact(v: u128, a: seq<MergeOp>, g: seq<MergeOp>)
    requires Regroupable(v, a + g)
    ensures ApplyOp(NetOp(g), Exact(v, a)) == Exact(v, a + g)
  {
    TotalsAppend(a, g);
    OneSided(a + g);
    if InRange(v, a + g) {
      assert (a + g)[..|a|] == a;
      assert (a + g)[..|a + g|] == a + g;
    }
  }

  /** Partial merging any split of the operands into groups and then merging the partial results is
      the same as merging the operands, for one-directional lists and whenever nothing saturates. */
  lemma {:induction false} Regrouping(v: u128, groups: seq<seq<MergeOp>>)
    requires Regroupable(v, Flatten(groups))
    ensures FullMerge(v, Partials(groups)) == FullMerge(v, Flatten(groups))
  {
    FullMergeExact(v, Flatten(groups));
    if groups != [] {
      var init, g := groups[..|groups| - 1], groups[|groups| - 1];
      RegroupablePrefix(v, Flatten(init), g);
      Regrouping(v, init);
      FullMergeExact(v, Flatten(init));
      NetOpExact(v, Flatten(init), g);
      assert Partials(groups)[..|Partials(groups)| - 1] == Partials(init);
    }
  }

  /** An operation with the given signed amount. */
  predicate IsNet(op: MergeOp, net: int) {
    match op
    case Increment(n) => net == n
    case Decrement(n) => net + n == 0
  }

  lemma {:induction false} CombinedNet(ops: seq<MergeOp>)
    requires ops != []
    ensures IncTotal(ops) <= U128_MAX && DecTotal(ops) <= U128_MAX ==>
      IsNet(Combined(ops), IncTotal(ops) - DecTotal(ops))
    ensures AllIncrements(ops) ==> Combined(ops) == Increment(Min(IncTotal(ops), U128_MAX))
    ensures AllDecrements(ops) ==> Combined(ops) == Decrement(Min(DecTotal(ops), U128_MAX))
  {
    if |ops| > 1 {
      CombinedNet(ops[..|ops| - 1]);
    } else {
      assert ops[..0] == [];
    }
  }

  /** Combining operands pairwise, as the write buffer does, is harmless in the same cases. */
  lemma CombinedExact(v: u128, ops: seq<MergeOp>)
    requires ops != [] && Regroupable(v, ops)
    ensures ApplyOp(Combined(ops), v) == FullMerge(v, ops)
  {
    FullMergeExact(v, ops);
    CombinedNet(ops);
    OneSided(ops);
    if InRange(v, ops) {
      assert ops[..|ops|] == ops;
    }
  }

  // --- regrouping, exactly

  function Clamp(x: int, lo: int, hi: int): int {
    Max(lo, Min(x, hi))
  }

  /** Cutting to a wider range gives the same value exactly when it already lies in the narrower one. */
  lemma ClampTwice(x: int, lo: int, hi: int, wideLo: int, wideHi: int)
    requires wideLo <= lo <= hi <= wideHi
    ensures Clamp(x, wideLo, wideHi) == Clamp(x, lo, hi) <==> lo <= Clamp(x, wideLo, wideHi) <= hi
  {
  }

  function Net(ops: seq<MergeOp>): int {
    IncTotal(ops) - DecTotal(ops)
  }

  /** A list of operations is one shift by its net amount, cut to what the list makes of the two ends of
      the range. */
  lemma {:induction false} FullMergeClamp(v: u128, ops: seq<MergeOp>)
    ensures FullMerge(0, ops) <= FullMerge(U128_MAX, ops)
    ensures FullMerge(v, ops) == Clamp(v + Net(ops), FullMerge(0, ops), FullMerge(U128_MAX, ops))
  {
    if ops != [] {
      FullMergeClamp(v, ops[..|ops| - 1]);
    }
  }

  /** A list moves a value down by no more than its decrements and up by no more than its increments. */
  lemma {:induction false} FullMergeReach(v: u128, ops: seq<MergeOp>)
    ensures v - DecTotal(ops) <= FullMerge(v, ops) <= v + IncTotal(ops)
  {
    if ops != [] {
      FullMergeReach(v, ops[..|ops| - 1]);
    }
  }

  /** What a partial merge does, in closed form. */
  lemma NetOpClamp(v: u128, ops: seq<MergeOp>)
    ensures ApplyOp(NetOp(ops), v) == Clamp(v + Min(IncTotal(ops), U128_MAX) - Min(DecTotal(ops), U128_MAX), 0, U128_MAX)
  {
  }

  /** Exactly when a partial merge of a list is harmless, for every list; when the totals fit a u128, it
      is when the plain sum, cut to the range, lies between what the list makes of the two ends. */
  lemma PartialMergeExactly(v: u128, ops: seq<MergeOp>)
    ensures var lo, hi := FullMerge(0, ops), FullMerge(U128_MAX, ops);
            && (ApplyOp(NetOp(ops), v) == FullMerge(v, ops) <==>
                  Clamp(v + Min(IncTotal(ops), U128_MAX) - Min(DecTotal(ops), U128_MAX), 0, U128_MAX)
                  == Clamp(v + Net(ops), lo, hi))
            && (IncTotal(ops) <= U128_MAX && DecTotal(ops) <= U128_MAX ==>
                  (ApplyOp(NetOp(ops), v) == FullMerge(v, ops) <==> lo <= Exact(v, ops) <= hi))
  {
    hide FullMerge, IncTotal, DecTotal, NetOp, ApplyOp, Clamp;
    FullMergeClamp(v, ops);
    NetOpClamp(v, ops);
    ClampTwice(v + Net(ops), FullMerge(0, ops), FullMerge(U128_MAX, ops), 0, U128_MAX);
    ExactIs(v, ops);
  }

  lemma ExactIs(v: u128, ops: seq<MergeOp>)
    ensures Exact(v, ops) == Clamp(v + Net(ops), 0, U128_MAX)
  {
  }

  /** Partial merging keeps the net amount of operands whose totals fit a u128. */
  lemma {:induction false} PartialsNet(groups: seq<seq<MergeOp>>)
    requires IncTotal(Flatten(groups)) <= U128_MAX && DecTotal(Flatten(groups)) <= U128_MAX
    ensures Net(Partials(groups)) == Net(Flatten(groups))
  {
    if groups != [] {
      var init, g := groups[..|groups| - 1], groups[|groups| - 1];
      TotalsAppend(Flatten(init), g);
      PartialsNet(init);
      TotalsAppend(Partials(init), [NetOp(g)]);
      assert [NetOp(g)][..0] == [];
    }
  }

  /** And it can only widen what the ends of the range become. */
  lemma {:induction false} PartialsWiden(groups: seq<seq<MergeOp>>)
    requires IncTotal(Flatten(groups)) <= U128_MAX && DecTotal(Flatten(groups)) <= U128_MAX
    ensures FullMerge(0, Partials(groups)) <= FullMerge(0, Flatten(groups))
    ensures FullMerge(U128_MAX, Flatten(groups)) <= FullMerge(U128_MAX, Partials(groups))
  {
    if groups != [] {
      var init, g := groups[..|groups| - 1], groups[|groups| - 1];
      TotalsAppend(Flatten(init), g);
      PartialsWiden(init);
      assert Partials(groups)[..|Partials(groups)| - 1] == Partials(init);
      GroupWidens(0, FullMerge(0, Partials(init)), Flatten(init), g);
      GroupWidens(U128_MAX, FullMerge(U128_MAX, Partials(init)), Flatten(init), g);
    }
  }

  lemma {:induction false} FullMergeAppend(v: u128, a: seq<MergeOp>, b: seq<MergeOp>)
    ensures FullMerge(v, a + b) == FullMerge(FullMerge(v, a), b)
  {
    if b == [] {
      assert a + b == a;
    } else {
      assert (a + b)[..|a + b| - 1] == a + b[..|b| - 1];
      FullMergeAppend(v, a, b[..|b| - 1]);
    }
  }

  lemma GroupWidens(end: u128, partial: u128, ops: seq<MergeOp>, g: seq<MergeOp>)
    requires IncTotal(ops) + IncTotal(g) <= U128_MAX && DecTotal(ops) + DecTotal(g) <= U128_MAX
    ensures end == 0 && partial <= FullMerge(end, ops) ==> ApplyOp(NetOp(g), partial) <= FullMerge(end, ops + g)
    ensures end == U128_MAX && FullMerge(end, ops) <= partial ==> FullMerge(end, ops + g) <= ApplyOp(NetOp(g), partial)
  {
    var full := FullMerge(end, ops);
    FullMergeAppend(end, ops, g);
    FullMergeReach(end, ops);
    FullMergeReach(0, g);
    FullMergeReach(U128_MAX, g);
    FullMergeClamp(full, g);
    NetOpClamp(partial, g);
  }

  /** Exactly when regrouping is harmless, for every list and every split into groups; when the totals fit
      a u128, it is when the plain sum, cut to what the groups make of the two ends, lies between what the
      operands themselves make of them. */
  lemma RegroupingExactly(v: u128, groups: seq<seq<MergeOp>>)
    ensures var ops, partials := Flatten(groups), Partials(groups);
            var lo, hi := FullMerge(0, ops), FullMerge(U128_MAX, ops);
            var merged := Clamp(v + Net(partials), FullMerge(0, partials), FullMerge(U128_MAX, partials));
            && (FullMerge(v, partials) == FullMerge(v, ops) <==> merged == Clamp(v + Net(ops), lo, hi))
            && (IncTotal(ops) <= U128_MAX && DecTotal(ops) <= U128_MAX ==>
                  (FullMerge(v, partials) == FullMerge(v, ops) <==> lo <= merged <= hi))
  {
    hide FullMerge, IncTotal, DecTotal, Partials, Flatten, Net, Clamp;
    FullMergeClamp(v, Flatten(groups));
    FullMergeClamp(v, Partials(groups));
    if IncTotal(Flatten(groups)) <= U128_MAX && DecTotal(Flatten(groups)) <= U128_MAX {
      PartialsNet(groups);
      PartialsWiden(groups);
      ClampTwice(v + Net(Flatten(groups)), FullMerge(0, Flatten(groups)), FullMerge(U128_MAX, Flatten(groups)),
                 FullMerge(0, Partials(groups)), FullMerge(U128_MAX, Partials(groups)));
    }
  }

  /** The net amount kept by combining pairwise: each step is cut to a u128 in either direction. */
  function RunningNet(ops: seq<MergeOp>): int {
    if ops == [] then 0 else
    var n := RunningNet(ops[..|ops| - 1]);
    match ops[|ops| - 1]
    case Increment(x) => Min(n + x, U128_MAX)
    case Decrement(x) => Max(n - x, -(U128_MAX as int))
  }

  lemma {:induction false} CombinedIs(ops: seq<MergeOp>)
    requires ops != []
    ensures IsNet(Combined(ops), RunningNet(ops)) && -(U128_MAX as int) <= RunningNet(ops) <= U128_MAX
  {
    if |ops| > 1 {
      CombinedIs(ops[..|ops| - 1]);
    } else {
      assert ops[..0] == [];
    }
  }

  /** Exactly when combining pairwise, as the write buffer does, is harmless. */
  lemma CombinedExactly(v: u128, ops: seq<MergeOp>)
    requires ops != []
    ensures var lo, hi := FullMerge(0, ops), FullMerge(U128_MAX, ops);
            && (ApplyOp(Combined(ops), v) == FullMerge(v, ops) <==>
                  Clamp(v + RunningNet(ops), 0, U128_MAX) == Clamp(v + Net(ops), lo, hi))
            && (IncTotal(ops) <= U128_MAX && DecTotal(ops) <= U128_MAX ==>
                  (ApplyOp(Combined(ops), v) == FullMerge(v, ops) <==> lo <= Exact(v, ops) <= hi))
  {
    hide FullMerge, IncTotal, DecTotal, RunningNet, Combined, Net, Clamp, AllIncrements, AllDecrements;
    FullMergeClamp(v, ops);
    CombinedIs(ops);
    NetIs(Combined(ops), RunningNet(ops), v);
    CombinedNet(ops);
    NetOf(ops);
    ClampTwice(v + Net(ops), FullMerge(0, ops), FullMerge(U128_MAX, ops), 0, U128_MAX);
    ExactIs(v, ops);
  }

  lemma NetOf(ops: seq<MergeOp>)
    ensures Net(ops) == IncTotal(ops) - DecTotal(ops)
  {
  }

  lemma NetIs(op: MergeOp, net: int, v: u128)
    requires IsNet(op, net)
    ensures ApplyOp(op, v) == Clamp(v + net, 0, U128_MAX)
  {
  }

  /** One list the condition rejects: its first operand saturates. */
  lemma RegroupingCounterexample()
    ensures var ops := [Increment(U128_MAX), Decrement(1)];
            && FullMerge(1, ops) == U128_MAX - 1
            && ApplyOp(NetOp(ops), 1) == U128_MAX
  {
    var ops := [Increment(U128_MAX), Decrement(1)];
    var first := ops[..1];
    assert first == [Increment(U128_MAX)] && first[..0] == [];
    assert FullMerge(1, first) == ApplyOp(first[0], FullMerge(1, first[..0])) == U128_MAX;
    assert FullMerge(1, ops) == ApplyOp(ops[1], FullMerge(1, first));
    TotalsAppend(first, [Decrement(1)]);
    assert first + [Decrement(1)] == ops && [Decrement(1)][..0] == [];
    assert IncTotal([Decrement(1)]) == 0 && DecTotal([Decrement(1)]) == 1;
    assert IncTotal(first) == U128_MAX && DecTotal(first) == 0;
  }
}
