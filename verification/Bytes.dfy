/** Byte strings in the store's key order, and the variable-width integers that keep numeric order in
    it. */
module Bytes {
  import opened Wrappers
  import opened Types

  type bytes = seq<byte>

  // --- the order of keys

  predicate Less(a: bytes, b: bytes) {
    b != [] && (a == [] || a[0] < b[0] || (a[0] == b[0] && Less(a[1..], b[1..])))
  }

  lemma {:induction false} LessIrreflexive(a: bytes)
    ensures !Less(a, a)
  {
    if a != [] {
      LessIrreflexive(a[1..]);
    }
  }

  lemma {:induction false} LessTransitive(a: bytes, b: bytes, c: bytes)
    requires Less(a, b) && Less(b, c)
    ensures Less(a, c)
  {
    if a != [] && a[0] == b[0] == c[0] {
      LessTransitive(a[1..], b[1..], c[1..]);
    }
  }

  lemma {:induction false} LessTotal(a: bytes, b: bytes)
    ensures Less(a, b) || a == b || Less(b, a)
  {
    if a != [] && b != [] && a[0] == b[0] {
      LessTotal(a[1..], b[1..]);
      if a[1..] == b[1..] {
        assert a == [a[0]] + a[1..];
        assert b == [b[0]] + b[1..];
      }
    }
  }

  /** A common prefix does not matter. */
  lemma {:induction false} LessAfter(p: bytes, a: bytes, b: bytes)
    ensures Less(p + a, p + b) <==> Less(a, b)
  {
    if p == [] {
      assert p + a == a && p + b == b;
    } else {
      assert (p + a)[1..] == p[1..] + a && (p + b)[1..] == p[1..] + b;
      LessAfter(p[1..], a, b);
    }
  }

  lemma {:induction false} PrefixOrEqual(p: bytes, a: bytes)
    ensures !Less(p + a, p)
  {
    if p != [] {
      assert (p + a)[1..] == p[1..] + a;
      PrefixOrEqual(p[1..], a);
    }
  }

  /** Between strings of one length the order survives anything appended. */
  lemma {:induction false} LessAppended(a: bytes, b: bytes, x: bytes, y: bytes)
    requires |a| == |b| && Less(a, b)
    ensures Less(a + x, b + y)
  {
    assert (a + x)[0] == a[0] && (b + y)[0] == b[0];
    if a[0] == b[0] {
      assert (a + x)[1..] == a[1..] + x && (b + y)[1..] == b[1..] + y;
      LessAppended(a[1..], b[1..], x, y);
    }
  }

  // --- big-endian numbers

  function Pow(w: nat): (r: nat)
    ensures r > 0
  {
    if w == 0 then 1 else 256 * Pow(w - 1)
  }

  function BigEndian(n: nat, w: nat): (r: bytes)
    ensures |r| == w
  {
    if w == 0 then [] else BigEndian(n / 256, w - 1) + [n % 256]
  }

  function Number(bs: bytes): nat {
    if bs == [] then 0 else Number(bs[..|bs| - 1]) * 256 + bs[|bs| - 1]
  }

  lemma {:induction false} NumberOf(n: nat, w: nat)
    requires n < Pow(w)
    ensures Number(BigEndian(n, w)) == n
  {
    if w > 0 {
      NumberOf(n / 256, w - 1);
      assert BigEndian(n, w)[..w - 1] == BigEndian(n / 256, w - 1);
    }
  }

  lemma {:induction false} NumberBound(bs: bytes)
    ensures Number(bs) < Pow(|bs|)
  {
    if bs != [] {
      NumberBound(bs[..|bs| - 1]);
    }
  }

  lemma {:induction false} SplitLess(a: bytes, b: bytes, x: byte, y: byte)
    requires |a| == |b|
    ensures Less(a + [x], b + [y]) <==> Less(a, b) || (a == b && x < y)
  {
    if a == [] {
      assert a + [x] == [x] && b + [y] == [y];
    } else {
      assert (a + [x])[1..] == a[1..] + [x] && (b + [y])[1..] == b[1..] + [y];
      SplitLess(a[1..], b[1..], x, y);
      assert a == [a[0]] + a[1..] && b == [b[0]] + b[1..];
    }
  }

  /** Fixed-width numbers compare as their bytes do. */
  lemma {:induction false} BigEndianOrder(a: nat, b: nat, w: nat)
    requires a < Pow(w) && b < Pow(w)
    ensures Less(BigEndian(a, w), BigEndian(b, w)) <==> a < b
    decreases w
  {
    if w > 0 {
      BigEndianOrder(a / 256, b / 256, w - 1);
      BigEndianOrder(b / 256, a / 256, w - 1);
      SplitLess(BigEndian(a / 256, w - 1), BigEndian(b / 256, w - 1), a % 256, b % 256);
      LessTotal(BigEndian(a / 256, w - 1), BigEndian(b / 256, w - 1));
      LessIrreflexive(BigEndian(a / 256, w - 1));
    }
  }

  // --- variable-width numbers

  /** The fewest bytes a number needs. */
  function Width(n: nat): nat {
    if n == 0 then 0 else 1 + Width(n / 256)
  }

  lemma {:induction false} WidthFits(n: nat)
    ensures n < Pow(Width(n))
    ensures n > 0 ==> Pow(Width(n) - 1) <= n
  {
    if n > 0 {
      WidthFits(n / 256);
    }
  }

  lemma {:induction false} WidthMonotone(a: nat, b: nat)
    requires a <= b
    ensures Width(a) <= Width(b)
    decreases b
  {
    if a > 0 {
      WidthMonotone(a / 256, b / 256);
    }
  }

  lemma {:induction false} WidthWithin(n: nat, w: nat)
    requires n < Pow(w)
    ensures Width(n) <= w
  {
    if n > 0 {
      WidthWithin(n / 256, w - 1);
    }
  }

  lemma Pow16()
    ensures Pow(16) == U128_MAX + 1
  {
    assert Pow(4) == 0x1_0000_0000;
    assert Pow(8) == 0x1_0000_0000_0000_0000;
    assert Pow(12) == 0x1_0000_0000_0000_0000_0000_0000;
  }

  /** A number as its width followed by that many bytes. */
  function VarUInt(n: nat): bytes
    requires n <= U128_MAX
  {
    Pow16();
    WidthWithin(n, 16);
    [Width(n)] + BigEndian(n, Width(n))
  }

  /** Order embedding: whatever follows them, variable-width numbers compare as numbers. */
  lemma VarUIntOrder(a: nat, b: nat, x: bytes, y: bytes)
    requires a < b <= U128_MAX
    ensures Less(VarUInt(a) + x, VarUInt(b) + y)
  {
    hide BigEndian, Width, Pow;
    WidthMonotone(a, b);
    WidthFits(a);
    WidthFits(b);
    var ea, eb := VarUInt(a), VarUInt(b);
    assert (ea + x)[0] == Width(a) && (eb + y)[0] == Width(b);
    if Width(a) == Width(b) {
      BigEndianOrder(a, b, Width(a));
      assert ea[1..] == BigEndian(a, Width(a)) && eb[1..] == BigEndian(b, Width(b));
      LessAppended(ea[1..], eb[1..], x, y);
      assert (ea + x)[1..] == ea[1..] + x && (eb + y)[1..] == eb[1..] + y;
    }
  }

  /** Prefix-freeness: two numbers with anything after them are equal only if both parts are. */
  lemma VarUIntPrefixFree(a: nat, b: nat, x: bytes, y: bytes)
    requires a <= U128_MAX && b <= U128_MAX && VarUInt(a) + x == VarUInt(b) + y
    ensures a == b && x == y
  {
    if a < b {
      VarUIntOrder(a, b, x, y);
      LessIrreflexive(VarUInt(a) + x);
    } else if b < a {
      VarUIntOrder(b, a, y, x);
      LessIrreflexive(VarUInt(a) + x);
    } else {
      assert (VarUInt(a) + x)[|VarUInt(a)|..] == x;
      assert (VarUInt(b) + y)[|VarUInt(b)|..] == y;
    }
  }

  lemma {:induction false} BigEndianLeading(n: nat, w: nat, i: nat)
    requires n < Pow(w) && i <= w
    ensures (forall j | 0 <= j < i :: BigEndian(n, w)[j] == 0) <==> n < Pow(w - i)
    ensures n < Pow(w - i) ==> BigEndian(n, w)[i..] == BigEndian(n, w - i)
  {
    if i < w {
      BigEndianLeading(n / 256, w - 1, i);
      var be := BigEndian(n, w);
      assert be[..w - 1] == BigEndian(n / 256, w - 1);
      assert forall j | 0 <= j < i :: be[j] == BigEndian(n / 256, w - 1)[j];
      if n < Pow(w - i) {
        assert be[i..] == BigEndian(n / 256, w - 1)[i..] + [n % 256];
      }
    } else {
      BigEndianZero(n, w);
      assert BigEndian(n, w)[w..] == [];
    }
  }

  lemma {:induction false} ZeroBytes(w: nat)
    ensures forall j | 0 <= j < w :: BigEndian(0, w)[j] == 0
  {
    if w > 0 {
      ZeroBytes(w - 1);
      assert BigEndian(0, w) == BigEndian(0, w - 1) + [0];
    }
  }

  lemma {:induction false} ZeroNumber(bs: bytes)
    requires forall j | 0 <= j < |bs| :: bs[j] == 0
    ensures Number(bs) == 0
  {
    if bs != [] {
      ZeroNumber(bs[..|bs| - 1]);
    }
  }

  lemma BigEndianZero(n: nat, w: nat)
    requires n < Pow(w)
    ensures (forall j | 0 <= j < w :: BigEndian(n, w)[j] == 0) <==> n == 0
  {
    ZeroBytes(w);
    NumberOf(n, w);
    if forall j | 0 <= j < w :: BigEndian(n, w)[j] == 0 {
      ZeroNumber(BigEndian(n, w));
    }
  }

  /** The encoder: find the first byte of the sixteen that is not zero. */
  method EncodeVarUInt(n: nat) returns (out: bytes)
    requires n <= U128_MAX
    ensures out == VarUInt(n)
  {
    Pow16();
    var bend := BigEndian(n, 16);
    for idx := 0 to 16
      invariant forall j | 0 <= j < idx :: bend[j] == 0
    {
      if bend[idx] != 0 {
        BigEndianLeading(n, 16, idx);
        BigEndianLeading(n, 16, idx + 1);
        WidthIs(n, 16 - idx);
        return [16 - idx] + bend[idx..];
      }
    }
    BigEndianZero(n, 16);
    return [0];
  }

  lemma WidthIs(n: nat, w: nat)
    requires w > 0 && Pow(w - 1) <= n < Pow(w)
    ensures Width(n) == w
  {
    WidthWithin(n, w);
    WidthFits(n);
    if Width(n) < w {
      PowMonotone(Width(n), w - 1);
    }
  }

  lemma {:induction false} PowMonotone(a: nat, b: nat)
    requires a <= b
    ensures Pow(a) <= Pow(b)
  {
    if a < b {
      PowMonotone(a, b - 1);
    }
  }

  datatype Decoded<+T> = Decoded(value: T, rest: bytes) | Malformed

  /** The decoder: any width up to sixteen, minimal or not. */
  function DecodeVarUInt(bs: bytes): Decoded<nat> {
    if bs == [] || bs[0] > 16 || |bs| - 1 < bs[0] then Malformed
    else Decoded(Number(bs[1..1 + bs[0]]), bs[1 + bs[0]..])
  }

  lemma VarUIntRoundTrip(n: nat, rest: bytes)
    requires n <= U128_MAX
    ensures DecodeVarUInt(VarUInt(n) + rest) == Decoded(n, rest)
  {
    Pow16();
    WidthWithin(n, 16);
    WidthFits(n);
    NumberOf(n, Width(n));
    var bs := VarUInt(n) + rest;
    assert bs[1..1 + bs[0]] == BigEndian(n, Width(n));
    assert bs[1 + bs[0]..] == rest;
  }

  /** What it decodes fits a u128. */
  lemma DecodedFits(bs: bytes)
    requires DecodeVarUInt(bs).Decoded?
    ensures DecodeVarUInt(bs).value <= U128_MAX
  {
    Pow16();
    NumberBound(bs[1..1 + bs[0]]);
    PowMonotone(bs[0], 16);
  }

  // --- ranges

  /** A scan from `start` up to, not including, `end`. */
  predicate InRange(k: bytes, start: bytes, end: bytes) {
    !Less(k, start) && Less(k, end)
  }

  predicate AllMax(bs: bytes) {
    forall i | 0 <= i < |bs| :: bs[i] == 255
  }

  lemma {:induction false} PrefixRange(p: bytes, i: nat, k: bytes)
    requires i < |p| && p[i] != 255 && AllMax(p[i + 1..])
    ensures InRange(k, p, p[..i] + [p[i] + 1]) <==> p <= k
  {
    var end := p[..i] + [p[i] + 1];
    if p <= k {
      assert k == p + k[|p|..];
      PrefixOrEqual(p, k[|p|..]);
      LessAfter(p[..i], k[i..], [p[i] + 1]);
      assert p[..i] + k[i..] == k;
    }
    if InRange(k, p, end) {
      PrefixOnly(p, i, k);
    }
  }

  lemma {:induction false} PrefixOnly(p: bytes, i: nat, k: bytes)
    requires i < |p| && p[i] != 255 && AllMax(p[i + 1..])
    requires !Less(k, p) && Less(k, p[..i] + [p[i] + 1])
    ensures p <= k
  {
    var end := p[..i] + [p[i] + 1];
    if i > 0 {
      assert k[0] == p[0] == end[0];
      assert p[1..][i..] == p[i + 1..];
      assert end[1..] == p[1..][..i - 1] + [p[1..][i - 1] + 1];
      PrefixOnly(p[1..], i - 1, k[1..]);
      assert p == [p[0]] + p[1..] && k == [k[0]] + k[1..];
    } else {
      assert k[0] == p[0];
      MaxPrefix(p[1..], k[1..]);
      assert p == [p[0]] + p[1..] && k == [k[0]] + k[1..];
    }
  }

  lemma {:induction false} MaxPrefix(p: bytes, k: bytes)
    requires AllMax(p) && !Less(k, p)
    ensures p <= k
  {
    if p != [] {
      assert k != [] && k[0] == 255;
      MaxPrefix(p[1..], k[1..]);
      assert p == [p[0]] + p[1..] && k == [k[0]] + k[1..];
    }
  }

  /** The range of the keys with a prefix: bump the last byte that can be, and drop what follows it. When
      every byte is 255 the source says that the range has no upper end, but the empty end it returns is
      below every key, and the range holds nothing. */
  method PrefixKeyRange(prefix: bytes) returns (start: bytes, end: bytes)
    ensures start == prefix
    ensures end == [] <==> AllMax(prefix)
    ensures forall k :: InRange(k, start, end) <==> prefix <= k && !AllMax(prefix)
  {
    start, end := prefix, prefix;
    var i := |prefix|;
    while i > 0
      invariant 0 <= i <= |prefix| && AllMax(prefix[i..])
    {
      i := i - 1;
      if prefix[i] != 255 {
        end := prefix[..i] + [prefix[i] + 1];
        forall k
          ensures InRange(k, start, end) <==> prefix <= k
        {
          PrefixRange(prefix, i, k);
        }
        return;
      }
      assert prefix[i..] == [prefix[i]] + prefix[i + 1..];
    }
    end := [];
    assert prefix[0..] == prefix;
  }
}
