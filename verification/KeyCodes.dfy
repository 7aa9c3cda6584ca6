/** How the store's keys are spelled in bytes, and that scans over bytes find exactly the keys they are
    meant to find. */
module KeyCodes {
  import opened Wrappers
  import opened Types
  import opened Bytes
  import opened Encoding

  const HashTy := ArrayTy(32)
  const U64Ty := UintTy(U64_MAX)
  const U32Ty := UintTy(0xFFFF_FFFF)
  const U128Ty := UintTy(U128_MAX)
  const BytesTy := VecTy(ByteTy)
  const TxoRefTy := StructTy([HashTy, U32Ty])
  const RuneIdTy := StructTy([U64Ty, U32Ty])

  /** A byte vector as a value: its items one by one. */
  function BytesVal(s: bytes): Val {
    Items(ByteVals(s))
  }

  function ByteVals(s: bytes): (r: seq<Val>)
    ensures |r| == |s|
  {
    if s == [] then [] else [Byte(s[0])] + ByteVals(s[1..])
  }

  function RefVal(r: TxoRef): Val {
    Record([Blob(r.txid), Uint(r.vout)])
  }

  function IdVal(id: RuneId): Val {
    Record([Uint(id.block), Uint(id.tx)])
  }

  // --- tables

  /** The tag of a core table, or of an indexer's table: 'C' and the table, or 'U', the indexer on two
      bytes and its table. */
  function TablePrefix(k: Key): bytes {
    match k
    case UtxoKey(_) => [67, 85]
    case InfoKey => [67, 73]
    case TimestampKey(_) => [67, 84]
    case HashKey(_) => [67, 72]
    case JournalKey(_, _, _) => [67, 82]
    case CountKey(_) => [85, 0, 0, 0]
    case RuneInfoKey(_) => [85, 0, 1, 0]
    case RuneNameKey(_) => [85, 0, 1, 1]
    case RuneMintsKey(_) => [85, 0, 1, 2]
    case RuneUtxoKey(_, _, _) => [85, 0, 1, 3]
    case AddressKey(_, _, _) => [85, 0, 2, 0]
  }

  function KeyTy(k: Key): Ty {
    match k
    case UtxoKey(_) => TxoRefTy
    case InfoKey => StructTy([])
    case TimestampKey(_) => EnumTy([StructTy([]), StructTy([])])
    case HashKey(_) => U64Ty
    case JournalKey(_, _, _) => StructTy([U64Ty, HashTy, BytesTy])
    case CountKey(_) => BytesTy
    case RuneInfoKey(_) => RuneIdTy
    case RuneNameKey(_) => U128Ty
    case RuneMintsKey(_) => RuneIdTy
    case RuneUtxoKey(_, _, _) => StructTy([BytesTy, U64Ty, TxoRefTy])
    case AddressKey(_, _, _) => StructTy([BytesTy, U64Ty, TxoRefTy])
  }

  function KeyVal(k: Key): Val
    decreases k, 0
  {
    match k
    case UtxoKey(r) => RefVal(r)
    case InfoKey => Record([])
    case TimestampKey(kind) => Variant(if kind == Confirmed then 0 else 1, Record([]))
    case HashKey(h) => Uint(h)
    case JournalKey(h, hash, key) => Record([Uint(h), Blob(hash), BytesVal(KeyCode(key))])
    case CountKey(s) => BytesVal(s)
    case RuneInfoKey(id) => IdVal(id)
    case RuneNameKey(n) => Uint(n)
    case RuneMintsKey(id) => IdVal(id)
    case RuneUtxoKey(s, h, r) => Record([BytesVal(s), Uint(h), RefVal(r)])
    case AddressKey(s, h, r) => Record([BytesVal(s), Uint(h), RefVal(r)])
  }

  /** The bytes of a key. */
  function KeyCode(k: Key): bytes
    decreases k, 1
  {
    TablePrefix(k) + Encode(KeyVal(k))
  }

  predicate GoodRef(r: TxoRef) {
    |r.txid| == 32 && r.vout <= 0xFFFF_FFFF
  }

  predicate GoodId(id: RuneId) {
    id.block <= U64_MAX && id.tx <= 0xFFFF_FFFF
  }

  /** The sizes the source's types guarantee. */
  predicate Storable(k: Key)
    decreases k
  {
    match k
    case UtxoKey(r) => GoodRef(r)
    case InfoKey => true
    case TimestampKey(_) => true
    case HashKey(h) => h <= U64_MAX
    case JournalKey(h, hash, key) => h <= U64_MAX && |hash| == 32 && Storable(key) && |KeyCode(key)| <= U64_MAX
    case CountKey(s) => |s| <= U64_MAX
    case RuneInfoKey(id) => GoodId(id)
    case RuneNameKey(n) => n <= U128_MAX
    case RuneMintsKey(id) => GoodId(id)
    case RuneUtxoKey(s, h, r) => |s| <= U64_MAX && h <= U64_MAX && GoodRef(r)
    case AddressKey(s, h, r) => |s| <= U64_MAX && h <= U64_MAX && GoodRef(r)
  }

  // --- keys are values of their types

  lemma {:induction false} ByteValsTyped(s: bytes)
    ensures AllHave(ByteTy, ByteVals(s))
  {
    if s != [] {
      ByteValsTyped(s[1..]);
    }
  }

  lemma BytesTyped(s: bytes)
    requires |s| <= U64_MAX
    ensures HasType(BytesTy, BytesVal(s))
  {
    ByteValsTyped(s);
  }

  lemma {:induction false} ByteValsInjective(a: bytes, b: bytes)
    requires ByteVals(a) == ByteVals(b)
    ensures a == b
  {
    if a != [] {
      assert ByteVals(a)[0] == Byte(a[0]) && ByteVals(b)[0] == Byte(b[0]);
      assert ByteVals(a)[1..] == ByteVals(a[1..]) && ByteVals(b)[1..] == ByteVals(b[1..]);
      ByteValsInjective(a[1..], b[1..]);
      assert a == [a[0]] + a[1..] && b == [b[0]] + b[1..];
    }
  }

  lemma Fields1(t: Ty, v: Val)
    ensures FieldsHave([t], [v]) <==> HasType(t, v)
    ensures EncodeAll([v]) == Encode(v)
  {
    assert [t][1..] == [] && [v][1..] == [];
    assert EncodeAll([v][1..]) == [];
  }

  lemma Fields2(t: Ty, u: Ty, v: Val, w: Val)
    ensures FieldsHave([t, u], [v, w]) <==> HasType(t, v) && HasType(u, w)
    ensures EncodeAll([v, w]) == Encode(v) + Encode(w)
  {
    Fields1(u, w);
    assert [t, u][1..] == [u] && [v, w][1..] == [w];
  }

  lemma Fields3(t: Ty, u: Ty, x: Ty, v: Val, w: Val, y: Val)
    ensures FieldsHave([t, u, x], [v, w, y]) <==> HasType(t, v) && HasType(u, w) && HasType(x, y)
    ensures EncodeAll([v, w, y]) == Encode(v) + (Encode(w) + Encode(y))
  {
    Fields2(u, x, w, y);
    assert [t, u, x][1..] == [u, x] && [v, w, y][1..] == [w, y];
  }

  lemma RefTyped(r: TxoRef)
    requires GoodRef(r)
    ensures HasType(TxoRefTy, RefVal(r))
  {
    Fields2(HashTy, U32Ty, Blob(r.txid), Uint(r.vout));
  }

  lemma IdTyped(id: RuneId)
    requires GoodId(id)
    ensures HasType(RuneIdTy, IdVal(id))
  {
    Fields2(U64Ty, U32Ty, Uint(id.block), Uint(id.tx));
  }

  lemma ScriptKeyTyped(s: Script, h: nat, r: TxoRef)
    requires |s| <= U64_MAX && h <= U64_MAX && GoodRef(r)
    ensures HasType(StructTy([BytesTy, U64Ty, TxoRefTy]), Record([BytesVal(s), Uint(h), RefVal(r)]))
  {
    hide Encode, EncodeAll;
    BytesTyped(s);
    RefTyped(r);
    Fields3(BytesTy, U64Ty, TxoRefTy, BytesVal(s), Uint(h), RefVal(r));
  }

  lemma JournalKeyTyped(h: nat, hash: Hash, code: bytes)
    requires h <= U64_MAX && |hash| == 32 && |code| <= U64_MAX
    ensures HasType(StructTy([U64Ty, HashTy, BytesTy]), Record([Uint(h), Blob(hash), BytesVal(code)]))
  {
    hide Encode, EncodeAll;
    BytesTyped(code);
    Fields3(U64Ty, HashTy, BytesTy, Uint(h), Blob(hash), BytesVal(code));
  }

  lemma KeyTyped(k: Key)
    requires Storable(k)
    ensures HasType(KeyTy(k), KeyVal(k))
  {
    hide Encode, EncodeAll, KeyCode;
    match k {
      case UtxoKey(r) => RefTyped(r);
      case InfoKey =>
      case TimestampKey(_) =>
      case HashKey(_) =>
      case JournalKey(h, hash, key) => JournalKeyTyped(h, hash, KeyCode(key));
      case CountKey(s) => BytesTyped(s);
      case RuneInfoKey(id) => IdTyped(id);
      case RuneNameKey(_) =>
      case RuneMintsKey(id) => IdTyped(id);
      case RuneUtxoKey(s, h, r) => ScriptKeyTyped(s, h, r);
      case AddressKey(s, h, r) => ScriptKeyTyped(s, h, r);
    }
  }

  // --- different keys, different bytes

  predicate SameTable(a: Key, b: Key) {
    TablePrefix(a) == TablePrefix(b)
  }

  /** No table's prefix begins another's, so a key's bytes tell its table. */
  lemma TableOf(k: Key, j: Key, rest: bytes)
    requires KeyCode(k) == TablePrefix(j) + rest
    ensures SameTable(k, j) && rest == Encode(KeyVal(k))
  {
    hide Encode, KeyVal;
    var code := KeyCode(k);
    assert code == TablePrefix(k) + Encode(KeyVal(k));
    assert code[0] == TablePrefix(k)[0] == TablePrefix(j)[0];
    assert |TablePrefix(k)| == |TablePrefix(j)|;
    assert code[..|TablePrefix(k)|] == TablePrefix(k) && code[..|TablePrefix(j)|] == TablePrefix(j);
    assert code[|TablePrefix(k)|..] == Encode(KeyVal(k)) && code[|TablePrefix(j)|..] == rest;
  }

  /** The typed keys of this model stand for the source's byte strings one to one. */
  lemma {:induction false} KeyCodeInjective(a: Key, b: Key)
    requires Storable(a) && Storable(b) && KeyCode(a) == KeyCode(b)
    ensures a == b
    decreases a
  {
    hide Encode, EncodeAll, HasType, ByteVals;
    TableOf(a, b, Encode(KeyVal(b)));
    KeyTyped(a);
    KeyTyped(b);
    assert Encode(KeyVal(a)) + [] == Encode(KeyVal(b)) + [];
    PrefixFree(KeyTy(a), KeyVal(a), KeyVal(b), [], []);
    SameKey(a, b);
  }

  lemma SameKey(a: Key, b: Key)
    requires Storable(a) && Storable(b) && SameTable(a, b) && KeyVal(a) == KeyVal(b)
    ensures a == b
    decreases a, 0
  {
    hide Encode, EncodeAll, HasType, ByteVals, KeyCode;
    match a {
      case JournalKey(_, _, key) =>
        assert b.JournalKey?;
        assert KeyVal(a).parts[2] == KeyVal(b).parts[2];
        ByteValsInjective(KeyCode(key), KeyCode(b.key));
        KeyCodeInjective(key, b.key);
      case CountKey(s) =>
        assert b.CountKey?;
        ByteValsInjective(s, b.script);
      case RuneUtxoKey(s, _, _) =>
        assert b.RuneUtxoKey?;
        SameScriptVals(KeyVal(a), s, a.height, a.r, b.script, b.height, b.r);
      case AddressKey(s, _, _) =>
        assert b.AddressKey?;
        SameScriptVals(KeyVal(a), s, a.height, a.r, b.script, b.height, b.r);
      case _ =>
    }
  }

  lemma SameScriptVals(v: Val, s: Script, h: nat, r: TxoRef, s': Script, h': nat, r': TxoRef)
    requires v == Record([BytesVal(s), Uint(h), RefVal(r)]) == Record([BytesVal(s'), Uint(h'), RefVal(r')])
    ensures s == s' && h == h' && r == r'
  {
    assert v.parts[0] == BytesVal(s) == BytesVal(s');
    assert v.parts[1] == Uint(h) == Uint(h');
    assert v.parts[2] == RefVal(r) == RefVal(r');
    assert RefVal(r).parts[0] == Blob(r.txid) && RefVal(r).parts[1] == Uint(r.vout);
    assert RefVal(r').parts[0] == Blob(r'.txid) && RefVal(r').parts[1] == Uint(r'.vout);
    ByteValsInjective(s, s');
  }

  // --- scans

  lemma TablesNotMax(k: Key)
    ensures !AllMax(TablePrefix(k))
  {
    assert TablePrefix(k)[0] != 255;
  }

  /** The range of the table of `j` between optional bounds. */
  method EncodeRange(j: Key, start: Option<bytes>, to: Option<bytes>) returns (first: bytes, end: bytes)
    ensures first == TablePrefix(j) + start.UnwrapOr([])
    ensures to.Some? ==> end == TablePrefix(j) + to.value
    ensures start.None? && to.None? ==> forall k :: InRange(k, first, end) <==> TablePrefix(j) <= k
  {
    var prefix := TablePrefix(j);
    TablesNotMax(j);
    var s, e := PrefixKeyRange(prefix);
    first := prefix + start.UnwrapOr([]);
    end := if to.Some? then prefix + to.value else e;
    assert prefix + [] == prefix;
  }

  /** A scan of a whole table finds exactly its keys. */
  lemma TableScan(k: Key, j: Key)
    ensures TablePrefix(j) <= KeyCode(k) <==> SameTable(k, j)
  {
    hide Encode, KeyVal;
    if TablePrefix(j) <= KeyCode(k) {
      var rest := KeyCode(k)[|TablePrefix(j)|..];
      assert KeyCode(k) == TablePrefix(j) + rest;
      TableOf(k, j, rest);
    }
  }

  lemma {:induction false} BetweenPrefix(q: bytes, a: bytes, b: bytes, k: bytes)
    requires !Less(k, q + a) && Less(k, q + b)
    ensures q <= k
  {
    if q != [] {
      assert (q + a)[1..] == q[1..] + a && (q + b)[1..] == q[1..] + b;
      BetweenPrefix(q[1..], a, b, k[1..]);
      assert q == [q[0]] + q[1..] && k == [k[0]] + k[1..];
    }
  }

  lemma NotBefore(n: nat, t: bytes, m: nat)
    requires n <= U128_MAX && m <= U128_MAX
    ensures Less(VarUInt(n) + t, VarUInt(m)) <==> n < m
  {
    assert VarUInt(m) + [] == VarUInt(m);
    if n < m {
      VarUIntOrder(n, m, t, []);
    } else if n == m {
      PrefixOrEqual(VarUInt(m), t);
    } else {
      VarUIntOrder(m, n, [], t);
      if Less(VarUInt(n) + t, VarUInt(m)) {
        LessTransitive(VarUInt(m), VarUInt(n) + t, VarUInt(m));
        LessIrreflexive(VarUInt(m));
      }
    }
  }

  /** A key that continues a prefix with a number is in the range from one number to another after that
      prefix exactly when its own number is. */
  lemma NumberRange(q: bytes, n: nat, t: bytes, from: nat, to: nat)
    requires n <= U128_MAX && from <= U128_MAX && to <= U128_MAX
    ensures InRange(q + (VarUInt(n) + t), q + VarUInt(from), q + VarUInt(to)) <==> from <= n < to
  {
    LessAfter(q, VarUInt(n) + t, VarUInt(from));
    LessAfter(q, VarUInt(n) + t, VarUInt(to));
    NotBefore(n, t, from);
    NotBefore(n, t, to);
  }

  /** The sizes of a key that a script scan relies on. */
  predicate ScriptReadable(k: Key) {
    k.RuneUtxoKey? || k.AddressKey? ==> |k.script| <= U64_MAX && k.height <= U64_MAX
  }

  /** The sizes of a key that journal collection relies on. */
  predicate HeightReadable(k: Key) {
    k.JournalKey? ==> k.height <= U64_MAX
  }

  /** What follows the height in a script table's key. */
  lemma ScriptKeyCode(k: Key)
    requires (k.RuneUtxoKey? || k.AddressKey?) && k.height <= U64_MAX
    ensures Encode(KeyVal(k)) == Encode(BytesVal(k.script)) + (VarUInt(k.height) + Encode(RefVal(k.r)))
  {
    hide VarUInt, BytesVal, RefVal;
    Fields3(BytesTy, U64Ty, TxoRefTy, BytesVal(k.script), Uint(k.height), RefVal(k.r));
  }

  /** Range-scan exactness: the scan of a script from height zero to the greatest height finds, among all
      keys of all tables, exactly that script's entries of that table below the greatest height. */
  lemma ScriptScan(k: Key, j: Key, script: Script)
    requires ScriptReadable(k) && |script| <= U64_MAX && (j.RuneUtxoKey? || j.AddressKey?)
    ensures var q := TablePrefix(j) + Encode(BytesVal(script));
            InRange(KeyCode(k), q + VarUInt(0), q + VarUInt(U64_MAX))
            <==> SameTable(k, j) && k.script == script && k.height < U64_MAX
  {
    hide VarUInt, BytesVal, Encode, KeyVal, KeyCode, InRange;
    var q := TablePrefix(j) + Encode(BytesVal(script));
    if SameTable(k, j) && k.script == script {
      ScriptKeyCode(k);
      CodeIs(k);
      assert KeyCode(k) == q + (VarUInt(k.height) + Encode(RefVal(k.r)));
      NumberRange(q, k.height, Encode(RefVal(k.r)), 0, U64_MAX);
    }
    if InRange(KeyCode(k), q + VarUInt(0), q + VarUInt(U64_MAX)) {
      InBetween(q, VarUInt(0), VarUInt(U64_MAX), KeyCode(k));
      ScanScript(k, j, script);
    }
  }

  lemma InBetween(q: bytes, a: bytes, b: bytes, k: bytes)
    requires InRange(k, q + a, q + b)
    ensures q <= k
  {
    BetweenPrefix(q, a, b, k);
  }

  lemma CodeIs(k: Key)
    ensures KeyCode(k) == TablePrefix(k) + Encode(KeyVal(k))
  {
  }

  lemma ScanScript(k: Key, j: Key, script: Script)
    requires ScriptReadable(k) && |script| <= U64_MAX && (j.RuneUtxoKey? || j.AddressKey?)
    requires TablePrefix(j) + Encode(BytesVal(script)) <= KeyCode(k)
    ensures SameTable(k, j) && k.script == script
  {
    hide VarUInt, BytesVal, Encode, KeyVal, KeyCode, HasType;
    var q := TablePrefix(j) + Encode(BytesVal(script));
    var rest := KeyCode(k)[|q|..];
    assert KeyCode(k) == q + rest;
    assert KeyCode(k) == TablePrefix(j) + (Encode(BytesVal(script)) + rest);
    TableOf(k, j, Encode(BytesVal(script)) + rest);
    ScriptKeyCode(k);
    BytesTyped(script);
    BytesTyped(k.script);
    PrefixFree(BytesTy, BytesVal(script), BytesVal(k.script), rest, VarUInt(k.height) + Encode(RefVal(k.r)));
    SameScript(script, k.script);
  }

  lemma SameScript(a: Script, b: Script)
    requires BytesVal(a) == BytesVal(b)
    ensures a == b
  {
    ByteValsInjective(a, b);
  }

  /** A script's entries come in the order of their heights. */
  lemma ScriptScanOrder(a: Key, b: Key)
    requires (a.RuneUtxoKey? || a.AddressKey?) && SameTable(a, b) && a.script == b.script
    requires a.height < b.height <= U64_MAX
    ensures Less(KeyCode(a), KeyCode(b))
  {
    hide VarUInt, BytesVal, Encode, KeyVal, KeyCode;
    var q := TablePrefix(a) + Encode(BytesVal(a.script));
    ScriptKeyCode(a);
    ScriptKeyCode(b);
    CodeIs(a);
    CodeIs(b);
    assert KeyCode(a) == q + (VarUInt(a.height) + Encode(RefVal(a.r)));
    assert KeyCode(b) == q + (VarUInt(b.height) + Encode(RefVal(b.r)));
    VarUIntOrder(a.height, b.height, Encode(RefVal(a.r)), Encode(RefVal(b.r)));
    LessAfter(q, VarUInt(a.height) + Encode(RefVal(a.r)), VarUInt(b.height) + Encode(RefVal(b.r)));
  }

  /** The first and the last key of the scan of a script's rune entries. */
  function ScriptStart(script: Script): bytes {
    [85, 0, 1, 3] + Encode(BytesVal(script)) + VarUInt(0)
  }

  function ScriptEnd(script: Script): bytes {
    [85, 0, 1, 3] + Encode(BytesVal(script)) + VarUInt(U64_MAX)
  }

  // --- heights

  /** What follows the height in a key that starts with one. */
  function AfterHeight(k: Key): bytes {
    match k
    case JournalKey(_, hash, key) => hash + Encode(BytesVal(KeyCode(key)))
    case _ => []
  }

  lemma HeightKeyCode(k: Key)
    requires (k.HashKey? || k.JournalKey?) && k.height <= U64_MAX
    ensures KeyCode(k) == TablePrefix(k) + (VarUInt(k.height) + AfterHeight(k))
  {
    hide VarUInt, BytesVal;
    if k.JournalKey? {
      Fields3(U64Ty, HashTy, BytesTy, Uint(k.height), Blob(k.hash), BytesVal(KeyCode(k.key)));
    } else {
      assert VarUInt(k.height) + [] == VarUInt(k.height);
    }
  }

  /** Journal entries and hashes are stored in the order of their heights. */
  lemma HeightOrder(a: Key, b: Key)
    requires (a.HashKey? || a.JournalKey?) && SameTable(a, b) && a.height < b.height <= U64_MAX
    ensures Less(KeyCode(a), KeyCode(b))
  {
    hide VarUInt, KeyCode, AfterHeight;
    HeightKeyCode(a);
    HeightKeyCode(b);
    VarUIntOrder(a.height, b.height, AfterHeight(a), AfterHeight(b));
    LessAfter(TablePrefix(a), VarUInt(a.height) + AfterHeight(a), VarUInt(b.height) + AfterHeight(b));
  }

  /** Journal collection: the range from the table's first key up to a height holds, among all keys of
      all tables, exactly the journal entries below that height. */
  lemma CollectionScan(k: Key, j: Key, below: nat)
    requires HeightReadable(k) && j.JournalKey? && below <= U64_MAX
    ensures InRange(KeyCode(k), TablePrefix(j), TablePrefix(j) + VarUInt(below))
            <==> k.JournalKey? && k.height < below
  {
    hide VarUInt, KeyCode, AfterHeight;
    var p := TablePrefix(j);
    assert p + [] == p;
    if k.JournalKey? {
      HeightKeyCode(k);
      var tail := VarUInt(k.height) + AfterHeight(k);
      PrefixOrEqual(p, tail);
      LessAfter(p, tail, VarUInt(below));
      NotBefore(k.height, AfterHeight(k), below);
    }
    if InRange(KeyCode(k), p, p + VarUInt(below)) {
      BetweenPrefix(p, [], VarUInt(below), KeyCode(k));
      TableScan(k, j);
    }
  }
}
