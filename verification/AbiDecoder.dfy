/** The recursive felt decoder (decoder.go) against a specification-level encoder. Felts
    and lengths are mathematical naturals. */
module AbiDecoder {
  import opened AbiTypes
  import opened Bytes
  import opened Wrappers

  const PRIME: nat := 0x800000000000011000000000000000000000000000000000000000000000001

  type Felt = nat

  datatype Value =
    | Num(n: nat)
    | Int(i: int)
    | Truth(b: bool)
    | Text(s: seq<byte>)
    | Nil
    | List(items: seq<Value>)
    | Record(fields: map<string, Value>)
    | Variant(name: string, payload: Option<Value>)

  datatype Result = Ok(value: Value, next: nat) | Err
  datatype Items = ItemsOk(items: seq<Value>, next: nat) | ItemsErr
  datatype Fields = FieldsOk(fields: map<string, Value>, next: nat) | FieldsErr

  /** The widths the source passes as `bits`; Full is 1 << bits and Half 1 << (bits - 1). */
  datatype Width = W8 | W16 | W32 | W64 | W128

  function Full(w: Width): nat {
    match w
    case W8 => 0x100
    case W16 => 0x1_0000
    case W32 => 0x1_0000_0000
    case W64 => 0x1_0000_0000_0000_0000
    case W128 => 0x1_0000_0000_0000_0000_0000_0000_0000_0000
  }

  function Half(w: Width): nat {
    Full(w) / 2
  }

  /** big.Int's Int64: the low 64 bits of the magnitude as an int64, negated (with
      wrap-around) if negative. */
  function Int64(x: int): int {
    var low: int := (if x >= 0 then x else -x) % Full(W64);
    var signed := if low >= Half(W64) then low - Full(W64) else low;
    if x >= 0 || signed == -(Half(W64) as int) then signed else -signed
  }

  // ---- Leaves ---------------------------------------------------------------------

  function DecodeUint(felts: seq<Felt>, offset: nat, w: Width): Result {
    if offset >= |felts| || felts[offset] >= Full(w) then Err else Ok(Num(felts[offset]), offset + 1)
  }

  function DecodeU256(felts: seq<Felt>, offset: nat): Result {
    if offset + 1 >= |felts| then Err else Ok(Num(felts[offset + 1] * Full(W128) + felts[offset]), offset + 2)
  }

  function Recentred(n: int, w: Width): int
  {
    if n >= Half(w) then n - Full(w) else n
  }

  function DecodeSigned(felts: seq<Felt>, offset: nat, w: Width): Result
  {
    if offset >= |felts| then Err else Ok(Int(Int64(Recentred(felts[offset], w))), offset + 1)
  }

  function DecodeI128(felts: seq<Felt>, offset: nat): Result {
    if offset >= |felts| then Err else Ok(Int(Recentred(felts[offset], W128)), offset + 1)
  }

  /** A ByteArray's bytes come 31 to a felt. */
  const WORD: nat := 31

  /** The low 31 bytes of each of `n` felts. */
  function Chunks(felts: seq<Felt>, start: nat, n: nat): seq<byte>
    requires start + n <= |felts|
  {
    if n == 0 then [] else Chunks(felts, start, n - 1) + BigEndian(felts[start + n - 1], WORD)
  }

  function Pending(word: Felt, len: nat): seq<byte> {
    if 0 < len <= WORD then BigEndian(word, len) else []
  }

  function DecodeByteArray(felts: seq<Felt>, offset: nat): Result {
    if offset >= |felts| then Err else
    var n := felts[offset];
    if offset + 1 + n + 2 > |felts| then Err
    else Ok(Text(Chunks(felts, offset + 1, n) + Pending(felts[offset + 1 + n], felts[offset + 2 + n])), offset + 3 + n)
  }

  function DecodePrimitive(p: Primitive, felts: seq<Felt>, offset: nat): Result {
    match p
    case U8 => DecodeUint(felts, offset, W8)
    case U16 => DecodeUint(felts, offset, W16)
    case U32 => DecodeUint(felts, offset, W32)
    case U64 => DecodeUint(felts, offset, W64)
    case U256 => DecodeU256(felts, offset)
    case I8 => DecodeSigned(felts, offset, W8)
    case I16 => DecodeSigned(felts, offset, W16)
    case I32 => DecodeSigned(felts, offset, W32)
    case I64 => DecodeSigned(felts, offset, W64)
    case I128 => DecodeI128(felts, offset)
    case Bool => if offset >= |felts| then Err else Ok(Truth(felts[offset] != 0), offset + 1)
    case ByteArray => DecodeByteArray(felts, offset)
    case Unit => Ok(Nil, offset)
    case _ => if offset >= |felts| then Err else Ok(Num(felts[offset]), offset + 1) // felts, addresses, u128
  }

  // ---- The decoder -----------------------------------------------------------------

  function Decode(t: Type, felts: seq<Felt>, offset: nat): Result
    decreases t, 2, 0
  {
    match t
    case Prim(p) => DecodePrimitive(p, felts, offset)
    case Array(inner) => DecodeArray(t, felts, offset)
    case Span(inner) => DecodeArray(t, felts, offset)
    case Tuple(_) => AsRecord(FieldsFrom(t, 0, felts, offset, map[]))
    case Struct(_, _) => AsRecord(FieldsFrom(t, 0, felts, offset, map[]))
    case Enum(_, variants) =>
      if offset >= |felts| || felts[offset] >= |variants| then Err else
      var variant := variants[felts[offset]];
      if variant.ty == Prim(Unit) then Ok(Variant(variant.name, None), offset + 1) else
      match Decode(variant.ty, felts, offset + 1)
      case Ok(v, next) => Ok(Variant(variant.name, Some(v)), next)
      case Err => Err
  }

  function DecodeArray(t: Type, felts: seq<Felt>, offset: nat): Result
    requires t.Array? || t.Span?
    decreases t, 1, 0
  {
    if offset >= |felts| then Err else
    match ItemsFrom(t.inner, felts[offset], felts, offset + 1, [])
    case ItemsOk(items, next) => Ok(List(items), next)
    case ItemsErr => Err
  }

  function ItemsFrom(t: Type, count: nat, felts: seq<Felt>, offset: nat, done: seq<Value>): Items
    decreases t, 3, count
  {
    if count == 0 then ItemsOk(done, offset) else
    match Decode(t, felts, offset)
    case Ok(v, next) => ItemsFrom(t, count - 1, felts, next, done + [v])
    case Err => ItemsErr
  }

  function FieldsFrom(t: Type, i: nat, felts: seq<Felt>, offset: nat, done: map<string, Value>): Fields
    requires (t.Struct? || t.Tuple?) && i <= |t.members|
    decreases t, 1, |t.members| - i
  {
    if i == |t.members| then FieldsOk(done, offset) else
    match Decode(t.members[i].ty, felts, offset)
    case Ok(v, next) => FieldsFrom(t, i + 1, felts, next, done[t.members[i].name := v])
    case Err => FieldsErr
  }

  function AsRecord(r: Fields): Result {
    match r
    case FieldsOk(fields, next) => Ok(Record(fields), next)
    case FieldsErr => Err
  }

  // ---- The encoder -----------------------------------------------------------------

  ghost predicate InRange(p: Primitive, v: Value) {
    match p
    case U8 => v.Num? && v.n < Full(W8)
    case U16 => v.Num? && v.n < Full(W16)
    case U32 => v.Num? && v.n < Full(W32)
    case U64 => v.Num? && v.n < Full(W64)
    case U128 => v.Num? && v.n < Full(W128)
    case U256 => v.Num? && v.n < Full(W128) * Full(W128)
    case I8 => v.Int? && SignedRange(v.i, W8)
    case I16 => v.Int? && SignedRange(v.i, W16)
    case I32 => v.Int? && SignedRange(v.i, W32)
    case I64 => v.Int? && SignedRange(v.i, W64)
    case I128 => v.Int? && SignedRange(v.i, W128)
    case Bool => v.Truth?
    case ByteArray => v.Text?
    case Unit => v.Nil?
    case _ => v.Num? && v.n < PRIME
  }

  predicate SignedRange(i: int, w: Width)
  {
    -(Half(w) as int) <= i < Half(w)
  }

  /** Where `name` first occurs from `i` on. */
  function IndexOf(fields: seq<Field>, name: string, i: nat): (k: nat)
    requires i <= |fields|
    ensures i <= k <= |fields| && (k < |fields| ==> fields[k].name == name)
    decreases |fields| - i
  {
    if i == |fields| || fields[i].name == name then i else IndexOf(fields, name, i + 1)
  }

  ghost predicate Typed(t: Type, v: Value)
    decreases t, 1
  {
    match t
    case Prim(p) => InRange(p, v)
    case Array(inner) => v.List? && forall i | 0 <= i < |v.items| :: Typed(inner, v.items[i])
    case Span(inner) => v.List? && forall i | 0 <= i < |v.items| :: Typed(inner, v.items[i])
    case Tuple(members) => v.Record? && TypedFields(t, v.fields)
    case Struct(_, members) => v.Record? && TypedFields(t, v.fields)
    case Enum(_, variants) => v.Variant? && TypedVariant(t, IndexOf(variants, v.name, 0), v)
  }

  ghost predicate TypedFields(t: Type, fields: map<string, Value>)
    requires t.Struct? || t.Tuple?
    decreases t, 0
  {
    && (forall i | 0 <= i < |t.members| ::
        t.members[i].name in fields && Typed(t.members[i].ty, fields[t.members[i].name]))
    && (forall name | name in fields :: IndexOf(t.members, name, 0) < |t.members|)
  }

  ghost predicate TypedVariant(t: Type, i: nat, v: Value)
    requires t.Enum? && v.Variant?
    decreases t, 0
  {
    && i < |t.variants|
    && if t.variants[i].ty == Prim(Unit) then v.payload.None?
       else v.payload.Some? && Typed(t.variants[i].ty, v.payload.value)
  }

  function TwosComplement(i: int, w: Width): nat
    requires SignedRange(i, w)
  {
    if i < 0 then i + Full(w) else i
  }

  /** Whole 31-byte words of `s`. */
  function Words(s: seq<byte>, n: nat): (words: seq<Felt>)
    requires WORD * n <= |s|
    ensures |words| == n
  {
    if n == 0 then [] else Words(s, n - 1) + [FromBigEndian(s[WORD * (n - 1)..WORD * n])]
  }

  function EncodeByteArray(s: seq<byte>): seq<Felt> {
    var n := |s| / WORD;
    [n] + Words(s, n) + [FromBigEndian(s[WORD * n..]), |s| % WORD]
  }

  ghost function EncodePrimitive(p: Primitive, v: Value): seq<Felt>
    requires InRange(p, v)
  {
    match p
    case U256 => [v.n % Full(W128), v.n / Full(W128)]
    case I8 => [TwosComplement(v.i, W8)]
    case I16 => [TwosComplement(v.i, W16)]
    case I32 => [TwosComplement(v.i, W32)]
    case I64 => [TwosComplement(v.i, W64)]
    case I128 => [TwosComplement(v.i, W128)]
    case Bool => [if v.b then 1 else 0]
    case ByteArray => EncodeByteArray(v.s)
    case Unit => []
    case _ => [v.n]
  }

  function Concat(codes: seq<seq<Felt>>): seq<Felt> {
    if codes == [] then [] else codes[0] + Concat(codes[1..])
  }

  /** A value's serialization. */
  ghost function Encode(t: Type, v: Value): seq<Felt>
    requires Typed(t, v)
    decreases t, 1
  {
    match t
    case Prim(p) => EncodePrimitive(p, v)
    case Array(inner) => [|v.items|] + Concat(ItemCodes(inner, v.items))
    case Span(inner) => [|v.items|] + Concat(ItemCodes(inner, v.items))
    case Tuple(_) => Concat(MemberCodes(t, v.fields))
    case Struct(_, _) => Concat(MemberCodes(t, v.fields))
    case Enum(_, variants) =>
      var i := IndexOf(variants, v.name, 0);
      assert TypedVariant(t, i, v);
      [i] + if variants[i].ty == Prim(Unit) then [] else Encode(variants[i].ty, v.payload.value)
  }

  ghost function ItemCodes(t: Type, items: seq<Value>): seq<seq<Felt>>
    requires forall k | 0 <= k < |items| :: Typed(t, items[k])
    decreases t, 2
  {
    seq(|items|, k requires 0 <= k < |items| => Encode(t, items[k]))
  }

  ghost function MemberCodes(t: Type, fields: map<string, Value>): seq<seq<Felt>>
    requires (t.Struct? || t.Tuple?) && TypedFields(t, fields)
    decreases t, 0
  {
    seq(|t.members|, k requires 0 <= k < |t.members| => Encode(t.members[k].ty, fields[t.members[k].name]))
  }

  // ---- Leaves come back --------------------------------------------------------------

  /** `code` stands in the stream at `offset`, whatever is around it. */
  ghost predicate At(felts: seq<Felt>, offset: nat, code: seq<Felt>) {
    offset + |code| <= |felts| && felts[offset..offset + |code|] == code
  }

  lemma AtSplit(felts: seq<Felt>, offset: nat, a: seq<Felt>, b: seq<Felt>)
    ensures At(felts, offset, a + b) <==> At(felts, offset, a) && At(felts, offset + |a|, b)
  {
    if offset + |a| + |b| <= |felts| {
      var whole := felts[offset..offset + |a| + |b|];
      assert whole[..|a|] == felts[offset..offset + |a|] && whole[|a|..] == felts[offset + |a|..offset + |a| + |b|];
      assert (a + b)[..|a|] == a && (a + b)[|a|..] == b;
    }
  }

  lemma AtHead(felts: seq<Felt>, offset: nat, x: Felt, rest: seq<Felt>)
    ensures At(felts, offset, [x] + rest) <==> offset < |felts| && felts[offset] == x && At(felts, offset + 1, rest)
  {
    AtSplit(felts, offset, [x], rest);
  }

  lemma SignedComesBack(i: int, w: Width)
    requires SignedRange(i, w)
    ensures TwosComplement(i, w) >= 0 && Recentred(TwosComplement(i, w), w) == i
    ensures !w.W128? ==> Int64(i) == i
  {
  }

  /** The last of n words, and the ones before it. */
  lemma LastWordStands(words: seq<Felt>, word: Felt, felts: seq<Felt>, start: nat)
    requires At(felts, start, words + [word])
    ensures At(felts, start, words) && felts[start + |words|] == word
  {
    AtSplit(felts, start, words, [word]);
    assert felts[start + |words|] == felts[start + |words|..start + |words| + 1][0];
  }

  lemma {:induction false} WordsComeBack(s: seq<byte>, felts: seq<Felt>, start: nat, n: nat)
    requires WORD * n <= |s| && At(felts, start, Words(s, n))
    ensures Chunks(felts, start, n) == s[..WORD * n]
  {
    if n > 0 {
      var m := WORD * (n - 1);
      LastWordStands(Words(s, n - 1), FromBigEndian(s[m..m + WORD]), felts, start);
      WordsComeBack(s, felts, start, n - 1);
      BigEndianEncodes(s[m..m + WORD]);
      SplitAt(s, m, m + WORD);
    }
  }

  lemma SplitAt(s: seq<byte>, m: nat, k: nat)
    requires m <= k <= |s|
    ensures s[..k] == s[..m] + s[m..k]
  {
  }

  lemma AtPair(felts: seq<Felt>, offset: nat, x: Felt, y: Felt)
    requires At(felts, offset, [x, y])
    ensures felts[offset] == x && felts[offset + 1] == y
  {
    assert felts[offset] == felts[offset..offset + 2][0] && felts[offset + 1] == felts[offset..offset + 2][1];
  }

  /** Where the four pieces of an encoded byte array stand. */
  lemma PiecesStand(n: nat, words: seq<Felt>, x: Felt, y: Felt, felts: seq<Felt>, offset: nat)
    requires |words| == n && At(felts, offset, [n] + words + [x, y])
    ensures offset + 3 + n <= |felts| && felts[offset] == n && At(felts, offset + 1, words)
    ensures felts[offset + 1 + n] == x && felts[offset + 2 + n] == y
  {
    assert [n] + words + [x, y] == [n] + (words + [x, y]);
    AtHead(felts, offset, n, words + [x, y]);
    AtSplit(felts, offset + 1, words, [x, y]);
    AtPair(felts, offset + 1 + n, x, y);
  }

  lemma LastPieces(s: seq<byte>, n: nat)
    requires WORD * n <= |s| < WORD * n + WORD
    ensures s[..WORD * n] + Pending(FromBigEndian(s[WORD * n..]), |s| - WORD * n) == s
  {
    BigEndianEncodes(s[WORD * n..]);
    assert s == s[..WORD * n] + s[WORD * n..];
  }

  lemma PiecesDecode(felts: seq<Felt>, offset: nat, n: nat)
    requires offset + 3 + n <= |felts| && felts[offset] == n
    ensures DecodeByteArray(felts, offset) ==
              Ok(Text(Chunks(felts, offset + 1, n) + Pending(felts[offset + 1 + n], felts[offset + 2 + n])),
                 offset + 3 + n)
  {
  }

  lemma ByteArrayReads(s: seq<byte>, n: nat, felts: seq<Felt>, offset: nat)
    requires WORD * n <= |s| < WORD * n + WORD
    requires At(felts, offset, [n] + Words(s, n) + [FromBigEndian(s[WORD * n..]), |s| - WORD * n])
    ensures DecodeByteArray(felts, offset) == Ok(Text(s), offset + 3 + n)
  {
    PiecesStand(n, Words(s, n), FromBigEndian(s[WORD * n..]), |s| - WORD * n, felts, offset);
    WordsComeBack(s, felts, offset + 1, n);
    LastPieces(s, n);
    PiecesDecode(felts, offset, n);
  }

  lemma ByteArrayComesBack(s: seq<byte>, felts: seq<Felt>, offset: nat)
    requires At(felts, offset, EncodeByteArray(s))
    ensures DecodeByteArray(felts, offset) == Ok(Text(s), offset + |EncodeByteArray(s)|)
  {
    ByteArrayReads(s, |s| / WORD, felts, offset);
  }

  lemma FirstFelt(felts: seq<Felt>, offset: nat, code: seq<Felt>)
    requires At(felts, offset, code) && code != []
    ensures offset < |felts| && felts[offset] == code[0]
  {
    assert felts[offset..offset + |code|][0] == felts[offset];
  }

  lemma U256ComesBack(n: nat, felts: seq<Felt>, offset: nat)
    requires At(felts, offset, [n % Full(W128), n / Full(W128)])
    ensures DecodeU256(felts, offset) == Ok(Num(n), offset + 2)
  {
    AtPair(felts, offset, n % Full(W128), n / Full(W128));
  }

  function WidthOf(p: Primitive): Width {
    match p
    case I8 => W8
    case I16 => W16
    case I32 => W32
    case I64 => W64
    case _ => W128
  }

  lemma SignedPrimitiveComesBack(p: Primitive, i: int, felts: seq<Felt>, offset: nat)
    requires (p.I8? || p.I16? || p.I32? || p.I64? || p.I128?) && SignedRange(i, WidthOf(p))
    requires offset < |felts| && felts[offset] == TwosComplement(i, WidthOf(p))
    ensures DecodePrimitive(p, felts, offset) == Ok(Int(i), offset + 1)
  {
    SignedComesBack(i, WidthOf(p));
  }

  lemma PrimitiveComesBack(p: Primitive, v: Value, felts: seq<Felt>, offset: nat)
    requires InRange(p, v) && At(felts, offset, EncodePrimitive(p, v))
    ensures DecodePrimitive(p, felts, offset) == Ok(v, offset + |EncodePrimitive(p, v)|)
  {
    if p.ByteArray? {
      ByteArrayComesBack(v.s, felts, offset);
    } else if p.U256? {
      U256ComesBack(v.n, felts, offset);
    } else if !p.Unit? {
      FirstFelt(felts, offset, EncodePrimitive(p, v));
      if v.Int? {
        SignedPrimitiveComesBack(p, v.i, felts, offset);
      }
    }
  }

  // ---- The round trip ---------------------------------------------------------------

  /** Wherever `code` stands in the stream, it is read as `v` and consumed exactly. */
  ghost predicate Reads(t: Type, v: Value, code: seq<Felt>, felts: seq<Felt>) {
    forall offset: nat {:trigger At(felts, offset, code)} ::
      At(felts, offset, code) ==> Decode(t, felts, offset) == Ok(v, offset + |code|)
  }

  lemma {:induction false} ItemsRead(t: Type, items: seq<Value>, codes: seq<seq<Felt>>, felts: seq<Felt>, offset: nat,
                                     done: seq<Value>)
    requires |items| == |codes| && forall k | 0 <= k < |items| :: Reads(t, items[k], codes[k], felts)
    requires At(felts, offset, Concat(codes))
    ensures ItemsFrom(t, |items|, felts, offset, done) == ItemsOk(done + items, offset + |Concat(codes)|)
    decreases |items|
  {
    if items != [] {
      AtSplit(felts, offset, codes[0], Concat(codes[1..]));
      assert Reads(t, items[0], codes[0], felts);
      ItemsRead(t, items[1..], codes[1..], felts, offset + |codes[0]|, done + [items[0]]);
      assert done + [items[0]] + items[1..] == done + items;
    } else {
      assert done + items == done;
    }
  }

  lemma {:induction false} FieldsRead(t: Type, i: nat, fields: map<string, Value>, codes: seq<seq<Felt>>,
                                      felts: seq<Felt>,
                                      offset: nat, done: map<string, Value>)
    requires (t.Struct? || t.Tuple?) && i <= |t.members| && |codes| == |t.members| - i
    requires forall k | 0 <= k < |t.members| :: t.members[k].name in fields
    requires forall k | i <= k < |t.members| :: Reads(t.members[k].ty, fields[t.members[k].name], codes[k - i], felts)
    requires At(felts, offset, Concat(codes))
    requires forall k | 0 <= k < i :: t.members[k].name in done
    requires forall name | name in done :: name in fields && done[name] == fields[name]
    ensures var r := FieldsFrom(t, i, felts, offset, done);
            && r.FieldsOk? && r.next == offset + |Concat(codes)|
            && (forall k | 0 <= k < |t.members| :: t.members[k].name in r.fields)
            && (forall name | name in r.fields :: name in fields && r.fields[name] == fields[name])
    decreases |codes|
  {
    if i < |t.members| {
      var name := t.members[i].name;
      AtSplit(felts, offset, codes[0], Concat(codes[1..]));
      assert Reads(t.members[i].ty, fields[name], codes[0], felts);
      FieldsRead(t, i + 1, fields, codes[1..], felts, offset + |codes[0]|, done[name := fields[name]]);
    }
  }

  lemma RecordIsWhole(t: Type, fields: map<string, Value>, read: map<string, Value>)
    requires (t.Struct? || t.Tuple?) && TypedFields(t, fields)
    requires forall k | 0 <= k < |t.members| :: t.members[k].name in read
    requires forall name | name in read :: name in fields && read[name] == fields[name]
    ensures read == fields
  {
    forall name | name in fields ensures name in read {
      assert t.members[IndexOf(t.members, name, 0)].name == name;
    }
  }

  /** Decoding a value's serialization, wherever it stands and whatever surrounds it, gives
      the value and consumes exactly the serialization. */
  lemma {:induction false} RoundTrip(t: Type, v: Value, felts: seq<Felt>)
    requires Typed(t, v)
    ensures Reads(t, v, Encode(t, v), felts)
    decreases t, 1
  {
    match t
    case Prim(p) =>
      forall offset: nat | At(felts, offset, Encode(t, v))
          ensures Decode(t, felts, offset) == Ok(v, offset + |Encode(t, v)|) {
        PrimitiveComesBack(p, v, felts, offset);
      }
    case Array(_) => ArrayComesBack(t, v, felts);
    case Span(_) => ArrayComesBack(t, v, felts);
    case Tuple(_) => RecordComesBack(t, v, felts);
    case Struct(_, _) => RecordComesBack(t, v, felts);
    case Enum(_, _) => VariantComesBack(t, v, felts);
  }

  lemma {:induction false} ArrayComesBack(t: Type, v: Value, felts: seq<Felt>)
    requires (t.Array? || t.Span?) && Typed(t, v)
    ensures Reads(t, v, Encode(t, v), felts)
    decreases t, 0
  {
    var codes := ItemCodes(t.inner, v.items);
    forall k | 0 <= k < |v.items| ensures Reads(t.inner, v.items[k], codes[k], felts) {
      RoundTrip(t.inner, v.items[k], felts);
    }
    forall offset: nat | At(felts, offset, Encode(t, v))
        ensures Decode(t, felts, offset) == Ok(v, offset + |Encode(t, v)|) {
      AtHead(felts, offset, |v.items|, Concat(codes));
      ItemsRead(t.inner, v.items, codes, felts, offset + 1, []);
      assert [] + v.items == v.items;
    }
  }

  lemma {:induction false} MembersComeBack(t: Type, fields: map<string, Value>, felts: seq<Felt>)
    requires (t.Struct? || t.Tuple?) && TypedFields(t, fields)
    ensures forall k | 0 <= k < |t.members| ::
              Reads(t.members[k].ty, fields[t.members[k].name], MemberCodes(t, fields)[k], felts)
    decreases t, 0, 0
  {
    forall k | 0 <= k < |t.members|
      ensures Reads(t.members[k].ty, fields[t.members[k].name], MemberCodes(t, fields)[k], felts)
    {
      RoundTrip(t.members[k].ty, fields[t.members[k].name], felts);
    }
  }

  lemma RecordRead(t: Type, fields: map<string, Value>, felts: seq<Felt>, offset: nat)
    requires (t.Struct? || t.Tuple?) && TypedFields(t, fields)
    requires forall k | 0 <= k < |t.members| ::
             Reads(t.members[k].ty, fields[t.members[k].name], MemberCodes(t, fields)[k], felts)
    requires At(felts, offset, Concat(MemberCodes(t, fields)))
    ensures FieldsFrom(t, 0, felts, offset, map[]) == FieldsOk(fields, offset + |Concat(MemberCodes(t, fields))|)
  {
    FieldsRead(t, 0, fields, MemberCodes(t, fields), felts, offset, map[]);
    RecordIsWhole(t, fields, FieldsFrom(t, 0, felts, offset, map[]).fields);
  }

  lemma {:induction false} RecordComesBack(t: Type, v: Value, felts: seq<Felt>)
    requires (t.Struct? || t.Tuple?) && Typed(t, v)
    ensures Reads(t, v, Encode(t, v), felts)
    decreases t, 0, 1
  {
    MembersComeBack(t, v.fields, felts);
    forall offset: nat | At(felts, offset, Encode(t, v))
        ensures Decode(t, felts, offset) == Ok(v, offset + |Encode(t, v)|) {
      RecordRead(t, v.fields, felts, offset);
    }
  }

  lemma {:induction false} VariantComesBack(t: Type, v: Value, felts: seq<Felt>)
    requires t.Enum? && Typed(t, v)
    ensures Reads(t, v, Encode(t, v), felts)
    decreases t, 0
  {
    var i := IndexOf(t.variants, v.name, 0);
    var ty := t.variants[i].ty;
    assert TypedVariant(t, i, v);
    var payload := if ty == Prim(Unit) then [] else Encode(ty, v.payload.value);
    if ty != Prim(Unit) {
      RoundTrip(ty, v.payload.value, felts);
    }
    forall offset: nat | At(felts, offset, Encode(t, v))
        ensures Decode(t, felts, offset) == Ok(v, offset + |Encode(t, v)|) {
      AtHead(felts, offset, i, payload);
    }
  }

  /** The same with the surroundings spelled out. */
  lemma DecodesInPlace(t: Type, v: Value, before: seq<Felt>, after: seq<Felt>)
    requires Typed(t, v)
    ensures Decode(t, before + Encode(t, v) + after, |before|) == Ok(v, |before| + |Encode(t, v)|)
  {
    var felts := before + Encode(t, v) + after;
    RoundTrip(t, v, felts);
    assert felts[|before|..|before| + |Encode(t, v)|] == Encode(t, v);
    assert At(felts, |before|, Encode(t, v));
  }

  // ---- FeltSize ----------------------------------------------------------------------

  /** Never more than the code takes, and as much exactly if nothing varies in size. */
  ghost predicate Sized(t: Type, code: seq<Felt>) {
    FeltSize(t) <= |code| && (FeltSize(t) == |code| <==> Fixed(t))
  }

  ghost function SizeFrom(t: Type, i: nat): int
    requires (t.Struct? || t.Tuple?) && i <= |t.members|
    decreases |t.members| - i
  {
    if i == |t.members| then 0 else FeltSize(t.members[i].ty) + SizeFrom(t, i + 1)
  }

  lemma {:induction false} SizeSplits(t: Type, i: nat)
    requires (t.Struct? || t.Tuple?) && i <= |t.members|
    ensures StructSize(t, i) + SizeFrom(t, i) == StructSize(t, |t.members|)
    decreases |t.members| - i
  {
    if i < |t.members| {
      SizeSplits(t, i + 1);
    }
  }

  lemma {:induction false} SizesAddUp(t: Type, i: nat, codes: seq<seq<Felt>>)
    requires (t.Struct? || t.Tuple?) && i <= |t.members| && |codes| == |t.members| - i
    requires forall k | i <= k < |t.members| :: Sized(t.members[k].ty, codes[k - i])
    ensures SizeFrom(t, i) <= |Concat(codes)|
    ensures SizeFrom(t, i) == |Concat(codes)| <==> forall k | i <= k < |t.members| :: Fixed(t.members[k].ty)
    decreases |codes|
  {
    if i < |t.members| {
      assert Sized(t.members[i].ty, codes[0]);
      SizesAddUp(t, i + 1, codes[1..]);
    }
  }

  /** FeltSize never exceeds what a value takes, and it is what every value takes exactly
      when no part of the type has variable size. */
  lemma {:induction false} FeltSizeIff(t: Type, v: Value)
    requires Typed(t, v)
    ensures Sized(t, Encode(t, v))
    decreases t, 1
  {
    if t.Struct? || t.Tuple? {
      RecordSize(t, v);
    }
  }

  lemma {:induction false} MembersSized(t: Type, fields: map<string, Value>)
    requires (t.Struct? || t.Tuple?) && TypedFields(t, fields)
    ensures forall k | 0 <= k < |t.members| :: Sized(t.members[k].ty, MemberCodes(t, fields)[k])
    decreases t, 0, 0
  {
    forall k | 0 <= k < |t.members| ensures Sized(t.members[k].ty, MemberCodes(t, fields)[k]) {
      FeltSizeIff(t.members[k].ty, fields[t.members[k].name]);
    }
  }

  lemma SizeOfMembers(t: Type, codes: seq<seq<Felt>>)
    requires (t.Struct? || t.Tuple?) && |codes| == |t.members|
    requires forall k | 0 <= k < |t.members| :: Sized(t.members[k].ty, codes[k])
    ensures Sized(t, Concat(codes))
  {
    SizeSplits(t, 0);
    SizesAddUp(t, 0, codes);
    AllFixed(t);
    if t.Tuple? {
      forall k | 0 <= k < |t.members| && FeltSize(t.members[k].ty) < 0 ensures !Fixed(t) {
        VaryingMember(t, k, codes[k]);
      }
      TupleSize(t);
    } else {
      assert FeltSize(t) == StructSize(t, |t.members|);
    }
  }

  lemma AllFixed(t: Type)
    requires t.Struct? || t.Tuple?
    ensures Fixed(t) <==> forall k | 0 <= k < |t.members| :: Fixed(t.members[k].ty)
  {
  }

  lemma VaryingMember(t: Type, k: nat, code: seq<Felt>)
    requires t.Tuple? && k < |t.members| && FeltSize(t.members[k].ty) < 0 && Sized(t.members[k].ty, code)
    ensures !Fixed(t)
  {
  }

  lemma TupleSize(t: Type)
    requires t.Tuple?
    ensures FeltSize(t) == StructSize(t, |t.members|) ||
            (FeltSize(t) == -1 && exists k | 0 <= k < |t.members| :: FeltSize(t.members[k].ty) < 0)
  {
  }

  lemma {:induction false} RecordSize(t: Type, v: Value)
    requires (t.Struct? || t.Tuple?) && Typed(t, v)
    ensures Sized(t, Encode(t, v))
    decreases t, 0, 1
  {
    MembersSized(t, v.fields);
    SizeOfMembers(t, MemberCodes(t, v.fields));
  }

  // ---- Negative numbers --------------------------------------------------------------

  function SignedOf(w: Width): Primitive {
    match w
    case W8 => I8
    case W16 => I16
    case W32 => I32
    case W64 => I64
    case W128 => I128
  }

  /** Cairo's own serialization writes a negative number as a field element, PRIME - |i|.
      The decoder reads such a number back exactly when it is not negative. */
  lemma FieldSignedIff(i: int, w: Width)
    requires SignedRange(i, w)
    ensures DecodePrimitive(SignedOf(w), [FieldElement(i)], 0) == Ok(Int(i), 1) <==> i >= 0
  {
    if i >= 0 {
      SignedPrimitiveComesBack(SignedOf(w), i, [i], 0);
    } else if !w.W128? {
      NegativeMisread(i, w);
    }
  }

  /** PRIME is 1 modulo 1 << 64, and no width's Full is. */
  lemma NegativeMisread(i: int, w: Width)
    requires SignedRange(i, w) && i < 0 && !w.W128?
    ensures Int64(Recentred(PRIME + i, w)) == if w.W64? then i + 1 else i + 1 - Full(w)
  {
    var k, d := PRIME / Full(W64), if w.W64? then 1 + i else 1 + i - Full(w);
    assert PRIME == k * Full(W64) + 1;
    var m := if w.W64? then k - 1 else k;
    assert PRIME + i - Full(w) == m * Full(W64) + d;
    if d >= 0 {
      Shifted(m, d);
    } else {
      assert m * Full(W64) + d == (m - 1) * Full(W64) + (Full(W64) + d);
      Shifted(m - 1, Full(W64) + d);
    }
  }

  lemma Shifted(k: nat, low: nat)
    requires low < Full(W64)
    ensures (k * Full(W64) + low) % Full(W64) == low
  {
  }

  /** An i8 of -1 comes out as -256. */
  lemma MinusOneMisread()
    ensures DecodePrimitive(I8, [FieldElement(-1)], 0) == Ok(Int(-256), 1)
  {
    assert PRIME % Full(W64) == 1;
  }

  function FieldElement(i: int): nat
    requires -(PRIME as int) < i < PRIME
  {
    if i >= 0 then i else PRIME + i
  }

  // ---- Events ------------------------------------------------------------------------

  datatype EventDef = EventDef(keyMembers: seq<Field>, dataMembers: seq<Field>)

  /** DecodeEvent: key members from the keys after the selector, data members from the data. */
  function DecodeEvent(ev: EventDef, keys: seq<Felt>, data: seq<Felt>): Option<map<string, Value>> {
    match FieldsFrom(Struct("", ev.keyMembers), 0, keys, 0, map[])
    case FieldsErr => None
    case FieldsOk(fields, _) =>
      match FieldsFrom(Struct("", ev.dataMembers), 0, data, 0, fields)
      case FieldsErr => None
      case FieldsOk(fields, _) => Some(fields)
  }

  function AllMembers(ev: EventDef): Type {
    Struct("", ev.keyMembers + ev.dataMembers)
  }

  /** Members i, ..., i + |part.members| - 1 of a record, read from a stream of their own. */
  lemma PartRead(t: Type, fields: map<string, Value>, part: Type, i: nat, felts: seq<Felt>, done: map<string, Value>)
    requires t.Struct? && part.Struct? && TypedFields(t, fields)
    requires i + |part.members| <= |t.members| && part.members == t.members[i..i + |part.members|]
    requires At(felts, 0, Concat(MemberCodes(t, fields)[i..i + |part.members|]))
    requires forall name | name in done :: name in fields && done[name] == fields[name]
    ensures var r := FieldsFrom(part, 0, felts, 0, done);
            && r.FieldsOk?
            && (forall k | 0 <= k < |part.members| :: part.members[k].name in r.fields)
            && (forall name | name in r.fields :: name in fields && r.fields[name] == fields[name])
  {
    var codes := MemberCodes(t, fields)[i..i + |part.members|];
    PartReads(t, fields, part, i, felts);
    FieldsRead(part, 0, fields, codes, felts, 0, done);
  }

  lemma PartReads(t: Type, fields: map<string, Value>, part: Type, i: nat, felts: seq<Felt>)
    requires t.Struct? && part.Struct? && TypedFields(t, fields)
    requires i + |part.members| <= |t.members| && part.members == t.members[i..i + |part.members|]
    ensures forall k | 0 <= k < |part.members| ::
              part.members[k].name in fields &&
              Reads(part.members[k].ty, fields[part.members[k].name], MemberCodes(t, fields)[i..i + |part.members|][k],
                    felts)
  {
    MembersComeBack(t, fields, felts);
    forall k | 0 <= k < |part.members|
      ensures part.members[k].name in fields
      ensures Reads(part.members[k].ty, fields[part.members[k].name], MemberCodes(t, fields)[i..i + |part.members|][k],
                    felts)
    {
      assert part.members[k] == t.members[i + k];
    }
  }

  lemma KeysRead(ev: EventDef, fields: map<string, Value>, keys: seq<Felt>)
    requires TypedFields(AllMembers(ev), fields)
    requires At(keys, 0, Concat(MemberCodes(AllMembers(ev), fields)[..|ev.keyMembers|]))
    ensures var r := FieldsFrom(Struct("", ev.keyMembers), 0, keys, 0, map[]);
            && r.FieldsOk?
            && (forall k | 0 <= k < |ev.keyMembers| :: ev.keyMembers[k].name in r.fields)
            && (forall name | name in r.fields :: name in fields && r.fields[name] == fields[name])
  {
    var codes, n := MemberCodes(AllMembers(ev), fields), |ev.keyMembers|;
    assert codes[0..n] == codes[..n];
    PartRead(AllMembers(ev), fields, Struct("", ev.keyMembers), 0, keys, map[]);
  }

  lemma DataRead(ev: EventDef, fields: map<string, Value>, data: seq<Felt>, done: map<string, Value>)
    requires TypedFields(AllMembers(ev), fields)
    requires At(data, 0, Concat(MemberCodes(AllMembers(ev), fields)[|ev.keyMembers|..]))
    requires forall name | name in done :: name in fields && done[name] == fields[name]
    ensures var r := FieldsFrom(Struct("", ev.dataMembers), 0, data, 0, done);
            && r.FieldsOk? && done.Keys <= r.fields.Keys
            && (forall k | 0 <= k < |ev.dataMembers| :: ev.dataMembers[k].name in r.fields)
            && (forall name | name in r.fields :: name in fields && r.fields[name] == fields[name])
  {
    var codes, n := MemberCodes(AllMembers(ev), fields), |ev.keyMembers|;
    assert codes[n..n + |ev.dataMembers|] == codes[n..];
    PartRead(AllMembers(ev), fields, Struct("", ev.dataMembers), n, data, done);
    FieldsKeep(Struct("", ev.dataMembers), 0, data, 0, done);
  }

  /** An event's fields survive being split between keys and data. */
  lemma EventComesBack(ev: EventDef, fields: map<string, Value>, keys: seq<Felt>, data: seq<Felt>)
    requires TypedFields(AllMembers(ev), fields)
    requires At(keys, 0, Concat(MemberCodes(AllMembers(ev), fields)[..|ev.keyMembers|]))
    requires At(data, 0, Concat(MemberCodes(AllMembers(ev), fields)[|ev.keyMembers|..]))
    ensures DecodeEvent(ev, keys, data) == Some(fields)
  {
    KeysRead(ev, fields, keys);
    var first := FieldsFrom(Struct("", ev.keyMembers), 0, keys, 0, map[]).fields;
    DataRead(ev, fields, data, first);
    BothParts(ev, fields, FieldsFrom(Struct("", ev.dataMembers), 0, data, 0, first).fields);
  }

  lemma BothParts(ev: EventDef, fields: map<string, Value>, read: map<string, Value>)
    requires TypedFields(AllMembers(ev), fields)
    requires forall i | 0 <= i < |ev.keyMembers| :: ev.keyMembers[i].name in read
    requires forall i | 0 <= i < |ev.dataMembers| :: ev.dataMembers[i].name in read
    requires forall name | name in read :: name in fields && read[name] == fields[name]
    ensures read == fields
  {
    var all, n := AllMembers(ev), |ev.keyMembers|;
    forall i | 0 <= i < |all.members| ensures all.members[i].name in read {
      assert all.members[i] == if i < n then ev.keyMembers[i] else ev.dataMembers[i - n];
    }
    RecordIsWhole(all, fields, read);
  }

  lemma {:induction false} FieldsKeep(t: Type, i: nat, felts: seq<Felt>, offset: nat, done: map<string, Value>)
    requires (t.Struct? || t.Tuple?) && i <= |t.members|
    ensures FieldsFrom(t, i, felts, offset, done).FieldsOk? ==>
            done.Keys <= FieldsFrom(t, i, felts, offset, done).fields.Keys
    decreases |t.members| - i
  {
    if i < |t.members| {
      var r := Decode(t.members[i].ty, felts, offset);
      if r.Ok? {
        FieldsKeep(t, i + 1, felts, r.next, done[t.members[i].name := r.value]);
      }
    }
  }

  // ---- The loops ---------------------------------------------------------------------

  /** decodeType. */
  method DecodeType(t: Type, felts: seq<Felt>, offset: nat) returns (r: Result)
    ensures r == Decode(t, felts, offset)
    decreases t, 1
  {
    match t {
      case Prim(p) =>
        if p.ByteArray? {
          r := ReadByteArray(felts, offset);
        } else {
          r := DecodePrimitive(p, felts, offset);
        }
      case Array(_) => r := ReadArray(t, felts, offset);
      case Span(_) => r := ReadArray(t, felts, offset);
      case Tuple(_) => r := ReadMembers(t, felts, offset);
      case Struct(_, _) => r := ReadMembers(t, felts, offset);
      case Enum(_, variants) =>
        if offset >= |felts| || felts[offset] >= |variants| {
          return Err;
        }
        var variant := variants[felts[offset]];
        if variant.ty == Prim(Unit) {
          return Ok(Variant(variant.name, None), offset + 1);
        }
        r := DecodeType(variant.ty, felts, offset + 1);
        if r.Ok? {
          r := Ok(Variant(variant.name, Some(r.value)), r.next);
        }
    }
  }

  /** decodeByteArray. */
  method ReadByteArray(felts: seq<Felt>, offset: nat) returns (r: Result)
    ensures r == DecodeByteArray(felts, offset)
  {
    if offset >= |felts| {
      return Err;
    }
    var n := felts[offset];
    if offset + 1 + n + 2 > |felts| {
      return Err;
    }
    var text: seq<byte> := [];
    for i := 0 to n
      invariant text == Chunks(felts, offset + 1, i)
    {
      text := text + BigEndian(felts[offset + 1 + i], WORD + 1)[1..];
      LowBytes(felts[offset + 1 + i], WORD + 1, 1);
    }
    var word, len := felts[offset + 1 + n], felts[offset + 2 + n];
    if 0 < len <= WORD {
      text := text + BigEndian(word, WORD + 1)[WORD + 1 - len..];
      LowBytes(word, WORD + 1, WORD + 1 - len);
    } else {
      assert text + [] == text;
    }
    return Ok(Text(text), offset + 3 + n);
  }

  /** Dropping leading bytes keeps the low ones. */
  lemma {:induction false} LowBytes(n: nat, k: nat, drop: nat)
    requires drop <= k
    ensures BigEndian(n, k)[drop..] == BigEndian(n, k - drop)
    decreases k
  {
    if drop < k {
      LowBytes(n / 256, k - 1, drop);
    }
  }

  /** decodeArray. */
  method ReadArray(t: Type, felts: seq<Felt>, offset: nat) returns (r: Result)
    requires t.Array? || t.Span?
    ensures r == Decode(t, felts, offset)
    decreases t, 0
  {
    if offset >= |felts| {
      return Err;
    }
    var items: seq<Value>, next: nat, left := [], offset + 1, felts[offset];
    while left > 0
      invariant ItemsFrom(t.inner, left, felts, next, items) == ItemsFrom(t.inner, felts[offset], felts, offset + 1, [])
    {
      var item := DecodeType(t.inner, felts, next);
      if item.Err? {
        return Err;
      }
      items, next, left := items + [item.value], item.next, left - 1;
    }
    return Ok(List(items), next);
  }

  /** decodeStruct and decodeTuple. */
  method ReadMembers(t: Type, felts: seq<Felt>, offset: nat) returns (r: Result)
    requires t.Struct? || t.Tuple?
    ensures r == Decode(t, felts, offset)
    decreases t, 0
  {
    var fields: map<string, Value>, next: nat := map[], offset;
    for i := 0 to |t.members|
      invariant FieldsFrom(t, i, felts, next, fields) == FieldsFrom(t, 0, felts, offset, map[])
    {
      var field := DecodeType(t.members[i].ty, felts, next);
      if field.Err? {
        return Err;
      }
      fields, next := fields[t.members[i].name := field.value], field.next;
    }
    return Ok(Record(fields), next);
  }
}
