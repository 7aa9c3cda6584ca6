/** The binary encoding of stored keys and values: a universe of the encodable types, and the decoder
    that gives back a value and the bytes after it. */
module Encoding {
  import opened Wrappers
  import opened Types
  import opened Bytes

  /** The types with an encoding: byte arrays, fixed and variable-width integers (of at most the given
      value), booleans, options, vectors, insertion-ordered maps, structs by their fields in order,
      and enums by what each variant holds. The unit is the empty struct and a pair the struct of two. */
  datatype Ty =
    | ArrayTy(size: nat)
    | ByteTy
    | WordTy
    | UintTy(max: nat)
    | BoolTy
    | OptionTy(some: Ty)
    | VecTy(item: Ty)
    | MapTy(key: Ty, value: Ty)
    | StructTy(fields: seq<Ty>)
    | EnumTy(variants: seq<Ty>)

  datatype Val =
    | Blob(data: bytes)
    | Byte(b: byte)
    | Word(w: nat)
    | Uint(n: nat)
    | Flag(on: bool)
    | Nothing
    | Just(inner: Val)
    | Items(items: seq<Val>)
    | Record(parts: seq<Val>)
    | Variant(tag: nat, payload: Val)

  /** The value is one of the type. A map's entries are pairs with distinct keys. */
  ghost predicate HasType(t: Ty, v: Val)
    decreases v
  {
    match t
    case ArrayTy(size) => v.Blob? && |v.data| == size
    case ByteTy => v.Byte?
    case WordTy => v.Word? && v.w < 0x1_0000
    case UintTy(max) => v.Uint? && v.n <= Min(max, U128_MAX)
    case BoolTy => v.Flag?
    case OptionTy(some) => v.Nothing? || (v.Just? && HasType(some, v.inner))
    case VecTy(item) => v.Items? && |v.items| <= U64_MAX && AllHave(item, v.items)
    case MapTy(key, value) =>
      && v.Items? && |v.items| <= U64_MAX && AllHave(StructTy([key, value]), v.items)
      && DistinctKeys(v.items)
    case StructTy(fields) => v.Record? && FieldsHave(fields, v.parts)
    case EnumTy(variants) =>
      v.Variant? && v.tag < |variants| && v.tag < 256 && HasType(variants[v.tag], v.payload)
  }

  ghost predicate AllHave(t: Ty, vs: seq<Val>)
    decreases vs
  {
    vs != [] ==> HasType(t, vs[0]) && AllHave(t, vs[1..])
  }

  ghost predicate FieldsHave(ts: seq<Ty>, vs: seq<Val>)
    decreases vs
  {
    |ts| == |vs| && (vs != [] ==> HasType(ts[0], vs[0]) && FieldsHave(ts[1..], vs[1..]))
  }

  predicate IsPair(v: Val) {
    v.Record? && |v.parts| == 2
  }

  ghost predicate DistinctKeys(vs: seq<Val>) {
    forall i, j | 0 <= i < j < |vs| :: IsPair(vs[i]) && IsPair(vs[j]) ==> vs[i].parts[0] != vs[j].parts[0]
  }

  function Encode(v: Val): bytes
    decreases v
  {
    match v
    case Blob(data) => data
    case Byte(b) => [b]
    case Word(w) => BigEndian(w, 2)
    case Uint(n) => VarUInt(Min(n, U128_MAX))
    case Flag(on) => [if on then 1 else 0]
    case Nothing => [0]
    case Just(inner) => [1] + Encode(inner)
    case Items(items) => VarUInt(Min(|items|, U128_MAX)) + EncodeAll(items)
    case Record(parts) => EncodeAll(parts)
    case Variant(tag, payload) => [Min(tag, 255)] + Encode(payload)
  }

  function EncodeAll(vs: seq<Val>): bytes
    decreases vs
  {
    if vs == [] then [] else Encode(vs[0]) + EncodeAll(vs[1..])
  }

  // --- decoding

  /** Insert into an insertion-ordered map: a known key keeps its place and gets the new value. */
  function Insert(entries: seq<Val>, entry: Val): seq<Val>
    requires IsPair(entry)
  {
    if entries == [] then [entry]
    else if IsPair(entries[0]) && entries[0].parts[0] == entry.parts[0] then [entry] + entries[1..]
    else [entries[0]] + Insert(entries[1..], entry)
  }

  function Decode(t: Ty, bs: bytes): Decoded<Val>
    decreases t, 1, 0
  {
    match t
    case ArrayTy(size) => if |bs| < size then Malformed else Decoded(Blob(bs[..size]), bs[size..])
    case ByteTy => if bs == [] then Malformed else Decoded(Byte(bs[0]), bs[1..])
    case WordTy => if |bs| < 2 then Malformed else Decoded(Word(Number(bs[..2])), bs[2..])
    case UintTy(max) =>
      (match DecodeVarUInt(bs)
       case Decoded(n, rest) => if n <= max then Decoded(Uint(n), rest) else Malformed
       case Malformed => Malformed)
    case BoolTy => if bs == [] || bs[0] > 1 then Malformed else Decoded(Flag(bs[0] == 1), bs[1..])
    case OptionTy(some) =>
      if bs == [] || bs[0] > 1 then Malformed
      else if bs[0] == 0 then Decoded(Nothing, bs[1..])
      else (match Decode(some, bs[1..])
            case Decoded(v, rest) => Decoded(Just(v), rest)
            case Malformed => Malformed)
    case VecTy(_) =>
      (match DecodeVarUInt(bs)
       case Decoded(n, rest) => if n <= U64_MAX then DecodeItems(t, n, [], rest) else Malformed
       case Malformed => Malformed)
    case MapTy(_, _) =>
      (match DecodeVarUInt(bs)
       case Decoded(n, rest) => if n <= U64_MAX then DecodeEntries(t, n, [], rest) else Malformed
       case Malformed => Malformed)
    case StructTy(fields) =>
      (match DecodeFields(fields, bs)
       case Decoded(vs, rest) => Decoded(Record(vs), rest)
       case Malformed => Malformed)
    case EnumTy(variants) =>
      if bs == [] || bs[0] >= |variants| then Malformed
      else (match Decode(variants[bs[0]], bs[1..])
            case Decoded(v, rest) => Decoded(Variant(bs[0], v), rest)
            case Malformed => Malformed)
  }

  /** The remaining `n` items of a vector, after those already read. */
  function DecodeItems(t: Ty, n: nat, read: seq<Val>, bs: bytes): Decoded<Val>
    requires t.VecTy?
    decreases t, 0, n
  {
    if n == 0 then Decoded(Items(read), bs) else
    match Decode(t.item, bs)
    case Decoded(v, rest) => DecodeItems(t, n - 1, read + [v], rest)
    case Malformed => Malformed
  }

  /** The remaining `n` entries of a map. */
  function DecodeEntries(t: Ty, n: nat, read: seq<Val>, bs: bytes): Decoded<Val>
    requires t.MapTy?
    decreases t, 0, n
  {
    if n == 0 then Decoded(Items(read), bs) else
    match Decode(t.key, bs)
    case Malformed => Malformed
    case Decoded(k, rest) =>
      match Decode(t.value, rest)
      case Malformed => Malformed
      case Decoded(v, rest) => DecodeEntries(t, n - 1, Insert(read, Record([k, v])), rest)
  }

  function DecodeFields(ts: seq<Ty>, bs: bytes): Decoded<seq<Val>>
    decreases ts, 0, 0
  {
    if ts == [] then Decoded([], bs) else
    match Decode(ts[0], bs)
    case Malformed => Malformed
    case Decoded(v, rest) =>
      match DecodeFields(ts[1..], rest)
      case Decoded(vs, rest) => Decoded([v] + vs, rest)
      case Malformed => Malformed
  }

  // --- round trip

  lemma {:induction false} InsertNew(entries: seq<Val>, entry: Val)
    requires IsPair(entry)
    requires forall i | 0 <= i < |entries| :: IsPair(entries[i]) ==> entries[i].parts[0] != entry.parts[0]
    ensures Insert(entries, entry) == entries + [entry]
  {
    if entries != [] {
      InsertNew(entries[1..], entry);
      assert entries == [entries[0]] + entries[1..];
    }
  }

  predicate IsLeaf(t: Ty) {
    t.ArrayTy? || t.ByteTy? || t.WordTy? || t.UintTy? || t.BoolTy?
  }

  lemma RoundTripLeaf(t: Ty, v: Val, rest: bytes)
    requires HasType(t, v) && IsLeaf(t)
    ensures Decode(t, Encode(v) + rest) == Decoded(v, rest)
  {
    var bs := Encode(v) + rest;
    match t {
      case ArrayTy(size) =>
        assert bs[..size] == v.data && bs[size..] == rest;
      case ByteTy =>
        assert bs[1..] == rest;
      case WordTy =>
        assert Pow(2) == 0x1_0000 by { assert Pow(1) == 256; }
        NumberOf(v.w, 2);
        assert bs[..2] == BigEndian(v.w, 2) && bs[2..] == rest;
      case UintTy(max) =>
        VarUIntRoundTrip(v.n, rest);
      case BoolTy =>
        assert bs[1..] == rest;
    }
  }

  lemma OptionStep(t: Ty, v: Val, rest: bytes)
    requires t.OptionTy? && (v.Nothing? || v.Just?)
    requires v.Just? ==> Decode(t.some, Encode(v.inner) + rest) == Decoded(v.inner, rest)
    ensures Decode(t, Encode(v) + rest) == Decoded(v, rest)
  {
    var bs := Encode(v) + rest;
    assert bs[1..] == if v.Just? then Encode(v.inner) + rest else rest;
  }

  lemma EnumStep(t: Ty, v: Val, rest: bytes)
    requires t.EnumTy? && v.Variant? && v.tag < |t.variants| && v.tag < 256
    requires Decode(t.variants[v.tag], Encode(v.payload) + rest) == Decoded(v.payload, rest)
    ensures Decode(t, Encode(v) + rest) == Decoded(v, rest)
  {
    var bs := Encode(v) + rest;
    assert bs[1..] == Encode(v.payload) + rest;
  }

  lemma CountedStep(t: Ty, v: Val, rest: bytes)
    requires (t.VecTy? || t.MapTy?) && v.Items? && |v.items| <= U64_MAX
    requires var bs := EncodeAll(v.items) + rest;
             (if t.VecTy? then DecodeItems(t, |v.items|, [], bs) else DecodeEntries(t, |v.items|, [], bs)) == Decoded(v, rest)
    ensures Decode(t, Encode(v) + rest) == Decoded(v, rest)
  {
    hide VarUInt, DecodeVarUInt, EncodeAll, DecodeItems, DecodeEntries;
    VarUIntRoundTrip(|v.items|, EncodeAll(v.items) + rest);
    assert Encode(v) + rest == VarUInt(|v.items|) + (EncodeAll(v.items) + rest);
  }

  /** Decoding gives back exactly what was encoded and whatever came after it. */
  lemma {:induction false} RoundTrip(t: Ty, v: Val, rest: bytes)
    requires HasType(t, v)
    ensures Decode(t, Encode(v) + rest) == Decoded(v, rest)
    decreases v
  {
    hide Encode, Decode, EncodeAll, AllHave, FieldsHave, DistinctKeys;
    match t {
      case OptionTy(some) =>
        if v.Just? {
          RoundTrip(some, v.inner, rest);
        }
        OptionStep(t, v, rest);
      case VecTy(item) =>
        assert [] + v.items == v.items;
        RoundTripItems(t, [], v.items, rest);
        CountedStep(t, v, rest);
      case MapTy(key, value) =>
        assert [] + v.items == v.items;
        RoundTripEntries(t, [], v.items, rest);
        CountedStep(t, v, rest);
      case StructTy(fields) =>
        RoundTripFields(fields, v.parts, rest);
        StructStep(t, v, rest);
      case EnumTy(variants) =>
        RoundTrip(variants[v.tag], v.payload, rest);
        EnumStep(t, v, rest);
      case _ =>
        RoundTripLeaf(t, v, rest);
    }
  }

  lemma StructStep(t: Ty, v: Val, rest: bytes)
    requires t.StructTy? && v.Record?
    requires DecodeFields(t.fields, EncodeAll(v.parts) + rest) == Decoded(v.parts, rest)
    ensures Decode(t, Encode(v) + rest) == Decoded(v, rest)
  {
  }

  lemma {:induction false} RoundTripItems(t: Ty, read: seq<Val>, vs: seq<Val>, rest: bytes)
    requires t.VecTy? && AllHave(t.item, vs)
    ensures DecodeItems(t, |vs|, read, EncodeAll(vs) + rest) == Decoded(Items(read + vs), rest)
    decreases vs
  {
    if vs == [] {
      assert read + vs == read && EncodeAll(vs) + rest == rest;
    } else {
      var more := EncodeAll(vs[1..]) + rest;
      assert EncodeAll(vs) + rest == Encode(vs[0]) + more;
      RoundTrip(t.item, vs[0], more);
      RoundTripItems(t, read + [vs[0]], vs[1..], rest);
      assert read + [vs[0]] + vs[1..] == read + vs;
    }
  }

  lemma PairParts(key: Ty, value: Ty, v: Val)
    requires HasType(StructTy([key, value]), v)
    ensures IsPair(v) && v == Record([v.parts[0], v.parts[1]])
    ensures HasType(key, v.parts[0]) && HasType(value, v.parts[1])
    ensures Encode(v) == Encode(v.parts[0]) + Encode(v.parts[1])
  {
    var parts := v.parts;
    assert FieldsHave([key, value], parts) && FieldsHave([value], parts[1..]);
    assert EncodeAll(parts[1..]) == Encode(parts[1]) by {
      assert EncodeAll(parts[1..][1..]) == [];
    }
  }

  lemma {:induction false} RoundTripEntries(t: Ty, read: seq<Val>, vs: seq<Val>, rest: bytes)
    requires t.MapTy? && AllHave(StructTy([t.key, t.value]), vs) && DistinctKeys(read + vs)
    ensures DecodeEntries(t, |vs|, read, EncodeAll(vs) + rest) == Decoded(Items(read + vs), rest)
    decreases vs
  {
    hide Encode, Decode, HasType, FieldsHave, Insert;
    if vs == [] {
      assert read + vs == read && EncodeAll(vs) + rest == rest;
    } else {
      var more := EncodeAll(vs[1..]) + rest;
      PairParts(t.key, t.value, vs[0]);
      var parts := vs[0].parts;
      assert EncodeAll(vs) + rest == Encode(vs[0]) + more;
      assert EncodeAll(vs) + rest == Encode(parts[0]) + (Encode(parts[1]) + more);
      RoundTrip(t.key, parts[0], Encode(parts[1]) + more);
      RoundTrip(t.value, parts[1], more);
      assert forall i | 0 <= i < |read| :: (read + vs)[i] == read[i];
      assert (read + vs)[|read|] == vs[0];
      InsertNew(read, vs[0]);
      assert read + [vs[0]] + vs[1..] == read + vs;
      RoundTripEntries(t, read + [vs[0]], vs[1..], rest);
    }
  }

  lemma {:induction false} RoundTripFields(ts: seq<Ty>, vs: seq<Val>, rest: bytes)
    requires FieldsHave(ts, vs)
    ensures DecodeFields(ts, EncodeAll(vs) + rest) == Decoded(vs, rest)
    decreases vs
  {
    if vs == [] {
      assert EncodeAll(vs) + rest == rest;
    } else {
      var more := EncodeAll(vs[1..]) + rest;
      assert EncodeAll(vs) + rest == Encode(vs[0]) + more;
      RoundTrip(ts[0], vs[0], more);
      RoundTripFields(ts[1..], vs[1..], rest);
      assert [vs[0]] + vs[1..] == vs;
    }
  }

  /** Encodings are prefix-free: two values of a type, with anything after them, give the same bytes
      only if they are the same value before the same bytes. */
  lemma PrefixFree(t: Ty, a: Val, b: Val, x: bytes, y: bytes)
    requires HasType(t, a) && HasType(t, b) && Encode(a) + x == Encode(b) + y
    ensures a == b && x == y
  {
    RoundTrip(t, a, x);
    RoundTrip(t, b, y);
  }

  // --- the loops

  /** The vector decoder's loop. */
  method DecodeVec(item: Ty, bs: bytes) returns (r: Decoded<Val>)
    ensures r == Decode(VecTy(item), bs)
  {
    var count := DecodeVarUInt(bs);
    if count.Malformed? || count.value > U64_MAX {
      return Malformed;
    }
    var rest, read: seq<Val> := count.rest, [];
    for i := 0 to count.value
      invariant Decode(VecTy(item), bs) == DecodeItems(VecTy(item), count.value - i, read, rest)
    {
      var one := Decode(item, rest);
      if one.Malformed? {
        return Malformed;
      }
      read, rest := read + [one.value], one.rest;
    }
    return Decoded(Items(read), rest);
  }

  /** The map decoder's loop. */
  method DecodeMap(key: Ty, value: Ty, bs: bytes) returns (r: Decoded<Val>)
    ensures r == Decode(MapTy(key, value), bs)
  {
    var count := DecodeVarUInt(bs);
    if count.Malformed? || count.value > U64_MAX {
      return Malformed;
    }
    var rest, read: seq<Val> := count.rest, [];
    for i := 0 to count.value
      invariant Decode(MapTy(key, value), bs) == DecodeEntries(MapTy(key, value), count.value - i, read, rest)
    {
      var k := Decode(key, rest);
      if k.Malformed? {
        return Malformed;
      }
      var v := Decode(value, k.rest);
      if v.Malformed? {
        return Malformed;
      }
      read, rest := Insert(read, Record([k.value, v.value])), v.rest;
    }
    return Decoded(Items(read), rest);
  }
}
