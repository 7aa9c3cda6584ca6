/** How an output and its runes are stored: the runes are a list, in any order, encoded inside the
    output's extended data. Reading it back gives the output of the model. */
module ValueCodes {
  import opened Wrappers
  import opened Types
  import opened Bytes
  import opened Encoding
  import opened KeyCodes

  const UnitTy := StructTy([])

  /** Which indexer an extended entry belongs to; runes are the second kind. */
  const IndexerTy := EnumTy([UnitTy, UnitTy, UnitTy, UnitTy])

  const RunesTag := Variant(1, Record([]))

  const ExtendedTy := MapTy(IndexerTy, BytesTy)

  const UtxoTy := StructTy([U64Ty, BytesTy, U64Ty, ExtendedTy])

  const RunesTy := VecTy(StructTy([RuneIdTy, U128Ty]))

  // --- runes

  /** A list of all the runes held, each once. */
  ghost predicate Lists(order: seq<RuneId>, m: Balances) {
    && (forall id :: id in m <==> id in order)
    && (forall i, j | 0 <= i < j < |order| :: order[i] != order[j])
  }

  function RuneEntries(order: seq<RuneId>, m: Balances): seq<Val>
    requires forall id | id in order :: id in m
  {
    if order == [] then []
    else [Record([IdVal(order[0]), Uint(m[order[0]])])] + RuneEntries(order[1..], m)
  }

  function RunesVal(order: seq<RuneId>, m: Balances): Val
    requires forall id | id in order :: id in m
  {
    Items(RuneEntries(order, m))
  }

  function IdOf(v: Val): RuneId {
    if IsPair(v) && v.parts[0].Uint? && v.parts[1].Uint? then RuneId(v.parts[0].n, v.parts[1].n) else DEFAULT_RUNE_ID
  }

  /** The balances that a list of entries says. */
  function BalancesOf(entries: seq<Val>): Balances {
    if entries == [] then map[] else
    var e := entries[0];
    if IsPair(e) && e.parts[1].Uint? then BalancesOf(entries[1..])[IdOf(e.parts[0]) := e.parts[1].n]
    else BalancesOf(entries[1..])
  }

  lemma {:induction false} EntriesRead(order: seq<RuneId>, m: Balances)
    requires forall id | id in order :: id in m
    ensures BalancesOf(RuneEntries(order, m)) == Restrict(m, set id | id in order)
  {
    if order != [] {
      EntriesRead(order[1..], m);
      var e := Record([IdVal(order[0]), Uint(m[order[0]])]);
      assert RuneEntries(order, m)[0] == e && RuneEntries(order, m)[1..] == RuneEntries(order[1..], m);
      assert e.parts[0] == IdVal(order[0]) && e.parts[1] == Uint(m[order[0]]);
      assert IdOf(IdVal(order[0])) == order[0];
      assert order == [order[0]] + order[1..];
    }
  }

  predicate GoodRunes(m: Balances) {
    forall id | id in m :: GoodId(id) && m[id] <= U128_MAX
  }

  lemma {:induction false} EntriesTyped(order: seq<RuneId>, m: Balances)
    requires (forall id | id in order :: id in m) && GoodRunes(m)
    ensures AllHave(StructTy([RuneIdTy, U128Ty]), RuneEntries(order, m))
    ensures |RuneEntries(order, m)| == |order|
  {
    hide Encode, EncodeAll;
    if order != [] {
      EntriesTyped(order[1..], m);
      IdTyped(order[0]);
      Fields2(RuneIdTy, U128Ty, IdVal(order[0]), Uint(m[order[0]]));
      assert RuneEntries(order, m)[1..] == RuneEntries(order[1..], m);
    }
  }

  /** The bytes of the runes, decoded again, give the balances back whatever the order was. */
  lemma RunesRoundTrip(order: seq<RuneId>, m: Balances)
    requires Lists(order, m) && GoodRunes(m) && |order| <= U64_MAX
    ensures var d := Decode(RunesTy, Encode(RunesVal(order, m)));
            d.Decoded? && d.value.Items? && BalancesOf(d.value.items) == m
  {
    EntriesTyped(order, m);
    RoundTrip(RunesTy, RunesVal(order, m), []);
    assert Encode(RunesVal(order, m)) + [] == Encode(RunesVal(order, m));
    EntriesRead(order, m);
    assert Restrict(m, set id | id in order) == m;
  }

  // --- outputs

  function ExtendedVal(order: seq<RuneId>, m: Balances): Val
    requires forall id | id in order :: id in m
  {
    Items(if m == map[] then [] else [Record([RunesTag, BytesVal(Encode(RunesVal(order, m)))])])
  }

  function UtxoVal(u: Utxo, order: seq<RuneId>): Val
    requires forall id | id in order :: id in u.runes
  {
    Record([Uint(u.satoshis), BytesVal(u.script), Uint(u.height), ExtendedVal(order, u.runes)])
  }

  function BytesOf(vs: seq<Val>): bytes {
    if vs == [] then [] else if vs[0].Byte? then [vs[0].b] + BytesOf(vs[1..]) else BytesOf(vs[1..])
  }

  lemma {:induction false} BytesRead(s: bytes)
    ensures BytesOf(ByteVals(s)) == s
  {
    if s != [] {
      BytesRead(s[1..]);
      var vs := ByteVals(s);
      assert vs[0] == Byte(s[0]) && vs[1..] == ByteVals(s[1..]);
      assert BytesOf(vs) == [s[0]] + BytesOf(vs[1..]);
    }
  }

  /** The runes among the extended data: absent, or decoded from their bytes. */
  function RunesIn(entries: seq<Val>): Option<Balances> {
    if entries == [] then Some(map[])
    else if IsPair(entries[0]) && entries[0].parts[0] == RunesTag && entries[0].parts[1].Items? then
      match Decode(RunesTy, BytesOf(entries[0].parts[1].items))
      case Decoded(v, _) => if v.Items? then Some(BalancesOf(v.items)) else None
      case Malformed => None
    else RunesIn(entries[1..])
  }

  function ReadUtxo(v: Val): Option<Utxo> {
    if v.Record? && |v.parts| == 4 && v.parts[0].Uint? && v.parts[1].Items? && v.parts[2].Uint? && v.parts[3].Items?
    then
      match RunesIn(v.parts[3].items)
      case Some(runes) => Some(Utxo(v.parts[0].n, BytesOf(v.parts[1].items), v.parts[2].n, runes))
      case None => None
    else None
  }

  /** The sizes the source's types guarantee. */
  ghost predicate GoodUtxo(u: Utxo, order: seq<RuneId>) {
    && u.satoshis <= U64_MAX && |u.script| <= U64_MAX && u.height <= U64_MAX
    && GoodRunes(u.runes) && Lists(order, u.runes) && |order| <= U64_MAX
    && |Encode(RunesVal(order, u.runes))| <= U64_MAX
  }

  lemma TagTyped()
    ensures HasType(IndexerTy, RunesTag)
  {
    assert IndexerTy.variants[1] == UnitTy;
  }

  lemma ExtendedTyped(order: seq<RuneId>, m: Balances)
    requires (forall id | id in order :: id in m) && |Encode(RunesVal(order, m))| <= U64_MAX
    ensures HasType(ExtendedTy, ExtendedVal(order, m))
  {
    hide Encode, EncodeAll, RunesVal, BytesVal;
    if m != map[] {
      TagTyped();
      BytesTyped(Encode(RunesVal(order, m)));
      Fields2(IndexerTy, BytesTy, RunesTag, BytesVal(Encode(RunesVal(order, m))));
      var e := Record([RunesTag, BytesVal(Encode(RunesVal(order, m)))]);
      assert HasType(StructTy([IndexerTy, BytesTy]), e);
      assert [e][1..] == [];
      assert AllHave(StructTy([IndexerTy, BytesTy]), [e]);
      assert ExtendedVal(order, m) == Items([e]);
    }
  }

  lemma {:induction false} UtxoTyped(u: Utxo, order: seq<RuneId>)
    requires GoodUtxo(u, order)
    ensures HasType(UtxoTy, UtxoVal(u, order))
  {
    hide Encode, EncodeAll, RunesVal, BytesVal, ExtendedVal;
    BytesTyped(u.script);
    ExtendedTyped(order, u.runes);
    var ts := [U64Ty, BytesTy, U64Ty, ExtendedTy];
    var vs := [Uint(u.satoshis), BytesVal(u.script), Uint(u.height), ExtendedVal(order, u.runes)];
    Fields3(BytesTy, U64Ty, ExtendedTy, vs[1], vs[2], vs[3]);
    assert ts[1..] == [BytesTy, U64Ty, ExtendedTy] && vs[1..] == [vs[1], vs[2], vs[3]];
    assert FieldsHave(ts, vs);
    assert UtxoVal(u, order) == Record(vs);
  }

  lemma ExtendedRead(order: seq<RuneId>, m: Balances)
    requires Lists(order, m) && GoodRunes(m) && |order| <= U64_MAX
    ensures RunesIn(ExtendedVal(order, m).items) == Some(m)
  {
    if m != map[] {
      RunesRoundTrip(order, m);
      BytesRead(Encode(RunesVal(order, m)));
      var e := Record([RunesTag, BytesVal(Encode(RunesVal(order, m)))]);
      assert ExtendedVal(order, m).items[0] == e;
      assert e.parts[0] == RunesTag && e.parts[1] == BytesVal(Encode(RunesVal(order, m)));
    }
  }

  /** A stored output decodes to itself, whatever follows it, and reads back as the model's output: with
      exactly its runes, and none when it has no rune entry. */
  lemma UtxoRoundTrip(u: Utxo, order: seq<RuneId>, rest: bytes)
    requires GoodUtxo(u, order)
    ensures Decode(UtxoTy, Encode(UtxoVal(u, order)) + rest) == Decoded(UtxoVal(u, order), rest)
    ensures ReadUtxo(UtxoVal(u, order)) == Some(u)
  {
    hide Encode, Decode, HasType, ExtendedVal, RunesIn;
    UtxoTyped(u, order);
    RoundTrip(UtxoTy, UtxoVal(u, order), rest);
    ExtendedRead(order, u.runes);
    BytesRead(u.script);
    var v := UtxoVal(u, order);
    assert v.parts[0] == Uint(u.satoshis) && v.parts[1] == BytesVal(u.script);
    assert v.parts[2] == Uint(u.height) && v.parts[3] == ExtendedVal(order, u.runes);
    ExtendedIsItems(order, u.runes);
  }

  lemma ExtendedIsItems(order: seq<RuneId>, m: Balances)
    requires forall id | id in order :: id in m
    ensures ExtendedVal(order, m).Items?
  {
  }
}
