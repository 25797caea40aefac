/** Cairo type names (parser.go): resolveType against a printer. Names are ASCII. */
module AbiParser {
  import opened AbiTypes

  const ARRAY: string := "core::array::Array::<"
  const SPAN: string := "core::array::Span::<"

  // ---- Splitting ------------------------------------------------------------------

  function Deeper(c: char, depth: int): int {
    if c == '(' || c == '<' then depth + 1
    else if c == ')' || c == '>' then depth - 1
    else depth
  }

  /** The parts of `s` between commas at depth 0. */
  function Split(s: string, depth: int): (parts: seq<string>)
    ensures |parts| > 0
    ensures forall i | 0 <= i < |parts| :: |parts[i]| <= |s|
  {
    if s == "" then [""]
    else if s[0] == ',' && depth == 0 then [""] + Split(s[1..], depth)
    else
      var rest := Split(s[1..], Deeper(s[0], depth));
      [[s[0]] + rest[0]] + rest[1..]
  }

  /** What is split off so far, completed by what the rest will give. */
  function Completed(parts: seq<string>, current: string, rest: seq<string>): seq<string>
    requires rest != []
  {
    parts + [current + rest[0]] + rest[1..]
  }

  lemma CompletedComma(parts: seq<string>, current: string, rest: seq<string>)
    requires rest != []
    ensures Completed(parts, current, [""] + rest) == Completed(parts + [current], "", rest)
  {
    assert current + "" == current && "" + rest[0] == rest[0];
    assert ([""] + rest)[1..] == rest && rest == [rest[0]] + rest[1..];
    assert parts + [current] + rest == parts + [current] + ([rest[0]] + rest[1..]);
  }

  lemma CompletedChar(parts: seq<string>, current: string, c: char, rest: seq<string>)
    requires rest != []
    ensures Completed(parts, current, [[c] + rest[0]] + rest[1..]) == Completed(parts, current + [c], rest)
  {
    assert current + ([c] + rest[0]) == current + [c] + rest[0];
    assert ([[c] + rest[0]] + rest[1..])[1..] == rest[1..];
  }

  lemma SplitStep(parts: seq<string>, current: string, s: string, depth: int)
    requires s != ""
    ensures Completed(parts, current, Split(s, depth)) ==
            if s[0] == ',' && depth == 0 then Completed(parts + [current], "", Split(s[1..], depth))
            else Completed(parts, current + [s[0]], Split(s[1..], Deeper(s[0], depth)))
  {
    if s[0] == ',' && depth == 0 {
      CompletedComma(parts, current, Split(s[1..], depth));
    } else {
      CompletedChar(parts, current, s[0], Split(s[1..], Deeper(s[0], depth)));
    }
  }

  lemma CompletedNothing(s: string, depth: int)
    ensures Completed([], "", Split(s, depth)) == Split(s, depth)
  {
    assert "" + Split(s, depth)[0] == Split(s, depth)[0];
  }

  lemma CompletedAtEnd(parts: seq<string>, current: string, depth: int)
    ensures Completed(parts, current, Split("", depth)) == parts + [current]
  {
    assert current + "" == current;
  }

  /** The scan has given off `parts` and is in the middle of the member that began at `start`. */
  ghost predicate Scanned(s: string, parts: seq<string>, start: nat, i: nat, depth: int) {
    start <= i <= |s| && Completed(parts, s[start..i], Split(s[i..], depth)) == Split(s, 0)
  }

  lemma ScannedComma(s: string, parts: seq<string>, start: nat, i: nat)
    requires Scanned(s, parts, start, i, 0) && i < |s| && s[i] == ','
    ensures Scanned(s, parts + [s[start..i]], i + 1, i + 1, 0)
  {
    SplitStep(parts, s[start..i], s[i..], 0);
    assert s[i..][1..] == s[i + 1..] && s[i + 1..i + 1] == "";
  }

  lemma ScannedChar(s: string, parts: seq<string>, start: nat, i: nat, depth: int)
    requires Scanned(s, parts, start, i, depth) && i < |s| && !(s[i] == ',' && depth == 0)
    ensures Scanned(s, parts, start, i + 1, Deeper(s[i], depth))
  {
    SplitStep(parts, s[start..i], s[i..], depth);
    assert s[i..][1..] == s[i + 1..] && s[start..i + 1] == s[start..i] + [s[i]];
  }

  lemma ScannedAll(s: string, parts: seq<string>, start: nat, depth: int)
    requires Scanned(s, parts, start, |s|, depth)
    ensures parts + [s[start..]] == Split(s, 0)
  {
    assert s[|s|..] == "" && s[start..] == s[start..|s|];
    CompletedAtEnd(parts, s[start..], depth);
  }

  lemma NothingScanned(s: string)
    ensures Scanned(s, [], 0, 0, 0)
  {
    CompletedNothing(s, 0);
    assert s[0..] == s;
  }

  /** splitTupleMembers. */
  method SplitTupleMembers(s: string) returns (parts: seq<string>)
    ensures parts == Split(s, 0)
  {
    parts := [];
    var depth, start := 0, 0;
    NothingScanned(s);
    for i := 0 to |s|
      invariant Scanned(s, parts, start, i, depth)
    {
      if s[i] == ',' && depth == 0 {
        ScannedComma(s, parts, start, i);
      } else {
        ScannedChar(s, parts, start, i, depth);
      }
      match s[i] {
        case '(' => depth := depth + 1;
        case '<' => depth := depth + 1;
        case ')' => depth := depth - 1;
        case '>' => depth := depth - 1;
        case ',' =>
          if depth == 0 {
            parts := parts + [s[start..i]];
            start := i + 1;
          }
        case _ =>
      }
    }
    ScannedAll(s, parts, start, depth);
    parts := parts + [s[start..]];
  }

  function Join(parts: seq<string>): string
    requires parts != []
  {
    if |parts| == 1 then parts[0] else parts[0] + "," + Join(parts[1..])
  }

  function DepthAfter(s: string, depth: int): int {
    if s == "" then depth else DepthAfter(s[1..], Deeper(s[0], depth))
  }

  /** No comma at depth 0. */
  predicate NoTopComma(s: string, depth: int) {
    s == "" || (!(s[0] == ',' && depth == 0) && NoTopComma(s[1..], Deeper(s[0], depth)))
  }

  predicate Balanced(s: string) {
    DepthAfter(s, 0) == 0 && NoTopComma(s, 0)
  }

  lemma {:induction false} ScanConcat(a: string, b: string, depth: int)
    ensures DepthAfter(a + b, depth) == DepthAfter(b, DepthAfter(a, depth))
    ensures NoTopComma(a + b, depth) <==> NoTopComma(a, depth) && NoTopComma(b, DepthAfter(a, depth))
  {
    if a == "" {
      assert a + b == b;
    } else {
      assert (a + b)[1..] == a[1..] + b;
      ScanConcat(a[1..], b, Deeper(a[0], depth));
    }
  }

  lemma {:induction false} SplitAfter(a: string, b: string, depth: int)
    requires NoTopComma(a, depth)
    ensures Split(a + b, depth) == Completed([], a, Split(b, DepthAfter(a, depth)))
  {
    if a == "" {
      assert a + b == b;
      CompletedNothing(b, depth);
    } else {
      assert (a + b)[1..] == a[1..] + b;
      SplitAfter(a[1..], b, Deeper(a[0], depth));
      CompletedFront(a[0], a[1..], Split(b, DepthAfter(a, depth)));
      assert [a[0]] + a[1..] == a;
    }
  }

  lemma CompletedFront(c: char, current: string, rest: seq<string>)
    requires rest != []
    ensures var done := Completed([], current, rest); [[c] + done[0]] + done[1..] == Completed([], [c] + current, rest)
  {
    assert [c] + (current + rest[0]) == [c] + current + rest[0];
    assert Completed([], current, rest)[1..] == rest[1..];
  }

  /** Splitting undoes joining, for parts with balanced brackets and no comma outside them. */
  lemma {:induction false} SplitInvertsJoin(parts: seq<string>)
    requires parts != [] && forall i | 0 <= i < |parts| :: Balanced(parts[i])
    ensures Split(Join(parts), 0) == parts
  {
    if |parts| == 1 {
      SplitAfter(parts[0], "", 0);
      assert parts[0] + "" == parts[0];
    } else {
      SplitAfter(parts[0], "," + Join(parts[1..]), 0);
      SplitStep([], parts[0], "," + Join(parts[1..]), 0);
      assert ("," + Join(parts[1..]))[1..] == Join(parts[1..]);
      assert parts[0] + ("," + Join(parts[1..])) == Join(parts);
      SplitInvertsJoin(parts[1..]);
      assert "" + parts[1] == parts[1] && [parts[0]] + [parts[1]] + parts[1..][1..] == parts;
    }
  }

  /** And joining undoes splitting, for every string at every depth. */
  lemma {:induction false} JoinInvertsSplit(s: string, depth: int)
    ensures Join(Split(s, depth)) == s
  {
    if s != "" {
      if s[0] == ',' && depth == 0 {
        JoinInvertsSplit(s[1..], depth);
        assert Split(s, depth)[1..] == Split(s[1..], depth);
        assert Join(Split(s, depth)) == "" + "," + s[1..];
      } else {
        var rest := Split(s[1..], Deeper(s[0], depth));
        JoinInvertsSplit(s[1..], Deeper(s[0], depth));
        PrependToFirst(s[0], rest);
      }
    }
  }

  lemma PrependToFirst(c: char, rest: seq<string>)
    requires rest != []
    ensures Join([[c] + rest[0]] + rest[1..]) == [c] + Join(rest)
  {
    var all := [[c] + rest[0]] + rest[1..];
    assert all[1..] == rest[1..];
    if |rest| > 1 {
      assert [c] + rest[0] + "," + Join(rest[1..]) == [c] + (rest[0] + "," + Join(rest[1..]));
    }
  }

  // ---- Resolving --------------------------------------------------------------------

  function PrimitiveName(p: Primitive): string {
    match p
    case Felt252 => "core::felt252"
    case U8 => "core::integer::" + "u8"
    case U16 => "core::integer::" + "u16"
    case U32 => "core::integer::" + "u32"
    case U64 => "core::integer::" + "u64"
    case U128 => "core::integer::" + "u128"
    case U256 => "core::integer::" + "u256"
    case I8 => "core::integer::" + "i8"
    case I16 => "core::integer::" + "i16"
    case I32 => "core::integer::" + "i32"
    case I64 => "core::integer::" + "i64"
    case I128 => "core::integer::" + "i128"
    case Bool => "core::bool"
    case ContractAddress => "core::starknet::" + ("contract_address::" + "ContractAddress")
    case ClassHash => "core::starknet::" + ("class_hash::" + "ClassHash")
    case ByteArray => "core::byte_array::" + "ByteArray"
    case Unit => "()"
  }

  const NON_ZERO_UNIT: string := "core::zeroable::NonZero::<()>"

  const PRIMITIVES: seq<Primitive> :=
    [Felt252, U8, U16, U32, U64, U128, U256, I8, I16, I32, I64, I128, Bool, ContractAddress, ClassHash, ByteArray, Unit]

  /** The first known primitive of that name, from `i` on. */
  function Known(name: string, i: nat): (k: nat)
    requires i <= |PRIMITIVES|
    ensures i <= k <= |PRIMITIVES| && (k < |PRIMITIVES| ==> PrimitiveName(PRIMITIVES[k]) == name)
    ensures forall j | i <= j < k :: PrimitiveName(PRIMITIVES[j]) != name
    decreases |PRIMITIVES| - i
  {
    if i == |PRIMITIVES| || PrimitiveName(PRIMITIVES[i]) == name then i else Known(name, i + 1)
  }

  predicate HasPrefix(s: string, prefix: string) {
    prefix <= s
  }

  predicate IsKnownPrimitive(name: string) {
    Known(name, 0) < |PRIMITIVES| || name == NON_ZERO_UNIT || HasPrefix(name, ARRAY) || HasPrefix(name, SPAN)
  }

  /** extractGenericInner: what stands between `prefix` and a final '>'. */
  predicate IsGeneric(name: string, prefix: string) {
    HasPrefix(name, prefix) && name[|prefix|..] != "" && name[|name| - 1] == '>'
  }

  function Inner(name: string, prefix: string): string
    requires IsGeneric(name, prefix)
  {
    name[|prefix|..|name| - 1]
  }

  function ResolvePrimitive(name: string): Type
    decreases |name|
  {
    if Known(name, 0) < |PRIMITIVES| then Prim(PRIMITIVES[Known(name, 0)])
    else if name == NON_ZERO_UNIT then Prim(Unit)
    else if IsGeneric(name, ARRAY) then Array(ResolvePrimitive(Inner(name, ARRAY)))
    else if IsGeneric(name, SPAN) then Span(ResolvePrimitive(Inner(name, SPAN)))
    else Prim(Felt252)
  }

  predicate IsSpace(c: char) {
    c == ' ' || c == '\t' || c == '\n' || c == '\r' || c == 11 as char || c == 12 as char
  }

  function TrimSpace(s: string): (r: string)
    ensures |r| <= |s|
  {
    if s == "" then ""
    else if IsSpace(s[0]) then TrimSpace(s[1..])
    else if IsSpace(s[|s| - 1]) then TrimSpace(s[..|s| - 1])
    else s
  }

  function Decimal(n: nat): string {
    if n < 10 then [('0' as int + n) as char] else Decimal(n / 10) + [('0' as int + n % 10) as char]
  }

  function TrimSnapshot(s: string): string {
    if s != "" && s[0] == '@' then s[1..] else s
  }

  predicate IsTuple(s: string) {
    |s| > 2 && s[0] == '(' && s[|s| - 1] == ')'
  }

  /** resolveType, with the struct and enum types of the ABI in `types`. */
  function Resolve(types: map<string, Type>, typeName: string): Type
    decreases |typeName|, 1
  {
    var s := TrimSnapshot(typeName);
    if IsGeneric(s, ARRAY) then Array(Resolve(types, Inner(s, ARRAY)))
    else if IsGeneric(s, SPAN) then Span(Resolve(types, Inner(s, SPAN)))
    else if IsTuple(s) then Tuple(ResolveParts(types, Split(s[1..|s| - 1], 0), |s| - 2))
    else if IsKnownPrimitive(s) then ResolvePrimitive(s)
    else if s in types then types[s]
    else ResolvePrimitive(s)
  }

  function ResolveParts(types: map<string, Type>, parts: seq<string>, n: nat): seq<Field>
    requires forall i | 0 <= i < |parts| :: |parts[i]| <= n
    decreases n, 2
  {
    seq(|parts|, i requires 0 <= i < |parts| => Field(Decimal(i), Resolve(types, TrimSpace(parts[i]))))
  }

  lemma TupleResolves(types: map<string, Type>, s: string)
    requires IsTuple(s)
    ensures Resolve(types, s) == Tuple(ResolveParts(types, Split(s[1..|s| - 1], 0), |s| - 2))
  {
    assert !HasPrefix(s, ARRAY) && !HasPrefix(s, SPAN);
  }

  method ResolveMembers(types: map<string, Type>, parts: seq<string>, n: nat) returns (members: seq<Field>)
    requires forall i | 0 <= i < |parts| :: |parts[i]| <= n
    ensures members == ResolveParts(types, parts, n)
  {
    members := [];
    for i := 0 to |parts|
      invariant members == ResolveParts(types, parts, n)[..i]
    {
      members := members + [Field(Decimal(i), Resolve(types, TrimSpace(parts[i])))];
    }
  }

  /** resolveTuple. */
  method ResolveTuple(types: map<string, Type>, typeName: string) returns (t: Type)
    requires IsTuple(typeName)
    ensures t == Resolve(types, typeName)
  {
    var parts := SplitTupleMembers(typeName[1..|typeName| - 1]);
    var members := ResolveMembers(types, parts, |typeName| - 2);
    t := Tuple(members);
    TupleResolves(types, typeName);
  }

  // ---- Printing ---------------------------------------------------------------------

  /** A type's name, tuple members separated by ", ". */
  function Print(t: Type): string
    decreases t, 1
  {
    match t
    case Prim(p) => PrimitiveName(p)
    case Array(inner) => ARRAY + Print(inner) + ">"
    case Span(inner) => SPAN + Print(inner) + ">"
    case Tuple(members) => if members == [] then "()" else "(" + Join(Parts(t)) + ")"
    case Struct(name, _) => name
    case Enum(name, _) => name
  }

  function Parts(t: Type): seq<string>
    requires t.Tuple?
    decreases t, 0
  {
    seq(|t.members|, i requires 0 <= i < |t.members| => (if i == 0 then "" else " ") + Print(t.members[i].ty))
  }

  predicate Plain(s: string) {
    '(' !in s && ')' !in s && '<' !in s && '>' !in s && ',' !in s
  }

  predicate Trimmed(s: string) {
    s != "" && s[0] != '@' && !IsSpace(s[0]) && !IsSpace(s[|s| - 1])
  }

  /** Primitives, registered structs and enums with plain names, Array, Span and
      non-empty tuples. */
  ghost predicate Printable(types: map<string, Type>, t: Type) {
    match t
    case Prim(_) => true
    case Array(inner) => Printable(types, inner)
    case Span(inner) => Printable(types, inner)
    case Tuple(members) =>
      members != [] && forall i | 0 <= i < |members| :: members[i].name == Decimal(i) && Printable(types, members[i].ty)
    case Struct(name, _) => Registered(types, name, t)
    case Enum(name, _) => Registered(types, name, t)
  }

  ghost predicate Registered(types: map<string, Type>, name: string, t: Type) {
    name in types && types[name] == t && Plain(name) && Trimmed(name) && Known(name, 0) == |PRIMITIVES|
  }

  lemma {:induction false} PlainScan(s: string, depth: int)
    requires Plain(s)
    ensures DepthAfter(s, depth) == depth && NoTopComma(s, depth)
  {
    if s != "" {
      PlainScan(s[1..], depth);
    }
  }

  /** The last character of each name. */
  function LastOf(p: Primitive): char {
    match p
    case Felt252 => '2' case U8 => '8' case U16 => '6' case U32 => '2' case U64 => '4' case U128 => '8' case U256 => '6'
    case I8 => '8' case I16 => '6' case I32 => '2' case I64 => '4' case I128 => '8'
    case Bool => 'l' case ContractAddress => 's' case ClassHash => 'h' case ByteArray => 'y' case Unit => ')'
  }

  lemma IntegerNamesEnd(p: Primitive)
    requires !p.Felt252? && !p.Bool? && !p.ContractAddress? && !p.ClassHash? && !p.ByteArray? && !p.Unit?
    ensures var s := PrimitiveName(p); s != "" && s[0] == 'c' && s[|s| - 1] == LastOf(p)
  {
    var s := PrimitiveName(p);
    assert |s| == 17 || |s| == 18 || |s| == 19;
    assert s[|s| - 1] == if |s| == 17 then s[16] else if |s| == 18 then s[17] else s[18];
  }

  lemma OtherNamesEnd(p: Primitive)
    requires p.Felt252? || p.Bool? || p.ContractAddress? || p.ClassHash? || p.ByteArray? || p.Unit?
    ensures var s := PrimitiveName(p); s != "" && s[0] == (if p.Unit? then '(' else 'c') && s[|s| - 1] == LastOf(p)
  {
    match p
    case Felt252 => assert "core::felt252"[12] == '2';
    case Bool => assert "core::bool"[9] == 'l';
    case ContractAddress => assert "ContractAddress"[14] == 's';
    case ClassHash => assert "ClassHash"[8] == 'h';
    case ByteArray => assert "ByteArray"[8] == 'y';
    case Unit => assert "()"[1] == ')';
  }

  lemma NamesAreTrimmed(p: Primitive)
    ensures Trimmed(PrimitiveName(p)) && PrimitiveName(p)[0] == if p.Unit? then '(' else 'c'
  {
    if p.Felt252? || p.Bool? || p.ContractAddress? || p.ClassHash? || p.ByteArray? || p.Unit? {
      OtherNamesEnd(p);
    } else {
      IntegerNamesEnd(p);
    }
  }

  lemma IntegerIsPlain()
    ensures Plain("core::integer::")
  {
  }

  lemma IntegerNamesArePlain(p: Primitive)
    requires !p.Felt252? && !p.Bool? && !p.ContractAddress? && !p.ClassHash? && !p.ByteArray? && !p.Unit?
    ensures Plain(PrimitiveName(p))
  {
    IntegerIsPlain();
  }

  lemma ShortNamesArePlain(p: Primitive)
    requires p.Felt252? || p.Bool?
    ensures Plain(PrimitiveName(p))
  {
  }

  lemma StarknetIsPlain()
    ensures Plain("core::starknet::")
  {
  }

  lemma AddressIsPlain()
    ensures Plain("contract_address::" + "ContractAddress")
  {
    assert Plain("contract_address::");
    assert Plain("ContractAddress");
  }

  lemma HashIsPlain()
    ensures Plain("class_hash::" + "ClassHash")
  {
    assert Plain("class_hash::");
    assert Plain("ClassHash");
  }

  lemma ByteArrayIsPlain()
    ensures Plain("core::byte_array::" + "ByteArray")
  {
    assert Plain("core::byte_array::");
    assert Plain("ByteArray");
  }

  lemma LongNamesArePlain(p: Primitive)
    requires p.ClassHash? || p.ContractAddress? || p.ByteArray?
    ensures Plain(PrimitiveName(p))
  {
    StarknetIsPlain();
    AddressIsPlain();
    HashIsPlain();
    ByteArrayIsPlain();
  }

  lemma NamesArePlain(p: Primitive)
    requires !p.Unit?
    ensures Plain(PrimitiveName(p))
  {
    if p.Felt252? || p.Bool? {
      ShortNamesArePlain(p);
    } else if p.ContractAddress? || p.ClassHash? || p.ByteArray? {
      LongNamesArePlain(p);
    } else {
      IntegerNamesArePlain(p);
    }
  }

  lemma SameNameSamePrimitive(p: Primitive, q: Primitive)
    requires PrimitiveName(p) == PrimitiveName(q)
    ensures p == q
  {
    var a, b := PrimitiveName(p), PrimitiveName(q);
    assert |a| > 16 && |b| > 16 ==> a[6] == b[6] && a[15] == b[15] && a[16] == b[16];
    assert |a| > 17 && |b| > 17 ==> a[17] == b[17];
    assert |a| > 18 && |b| > 18 ==> a[18] == b[18];
  }

  // ---- The round trip ---------------------------------------------------------------

  /** A printed name survives trimming, has its brackets balanced from any depth on, and
      no comma where the depth starts. */
  ghost predicate Shaped(s: string) {
    Trimmed(s) && forall d: nat :: DepthAfter(s, d) == d && NoTopComma(s, d)
  }

  lemma PlainIsShaped(s: string)
    requires Plain(s) && Trimmed(s)
    ensures Shaped(s)
  {
    forall d: nat ensures DepthAfter(s, d) == d && NoTopComma(s, d) {
      PlainScan(s, d);
    }
  }

  /** Brackets around something that is balanced one level deeper. */
  lemma BracketsAreShaped(open: string, body: string, close: string)
    requires open in [ARRAY, SPAN, "("] && close == if open == "(" then ")" else ">"
    requires forall d: nat | d > 0 :: DepthAfter(body, d) == d && NoTopComma(body, d)
    ensures Shaped(open + body + close)
  {
    var s := open + body + close;
    assert s[0] == open[0] && s[|s| - 1] == close[0];
    forall d: nat ensures DepthAfter(s, d) == d && NoTopComma(s, d) {
      OpeningScan(open, d);
      ScanConcat(open, body, d);
      ScanConcat(open + body, close, d);
      assert close[1..] == "" && DepthAfter(close, d + 1) == d && NoTopComma(close, d + 1);
    }
  }

  lemma ArrayPartsArePlain()
    ensures Plain("core::array::Array::") && Plain("core::array::Span::")
  {
    assert Plain("core::array::Array::");
    assert Plain("core::array::Span::");
  }

  lemma OpeningScan(open: string, d: nat)
    requires open in [ARRAY, SPAN, "("]
    ensures DepthAfter(open, d) == d + 1 && NoTopComma(open, d)
  {
    var n := |open| - 1;
    ArrayPartsArePlain();
    assert ARRAY == "core::array::Array::" + "<" && SPAN == "core::array::Span::" + "<" && "(" == "" + "(";
    var name := if open == ARRAY then "core::array::Array::" else if open == SPAN then "core::array::Span::" else "";
    var bracket := if open == "(" then "(" else "<";
    assert open == name + bracket;
    PlainScan(name, d);
    ScanConcat(name, bracket, d);
    assert bracket[1..] == "";
  }

  lemma {:induction false} JoinedScan(parts: seq<string>, d: nat)
    requires parts != [] && d > 0 && forall i | 0 <= i < |parts| ::
             DepthAfter(parts[i], d) == d && NoTopComma(parts[i], d)
    ensures DepthAfter(Join(parts), d) == d && NoTopComma(Join(parts), d)
  {
    if |parts| > 1 {
      var rest := Join(parts[1..]);
      JoinedScan(parts[1..], d);
      assert ("," + rest)[1..] == rest && parts[0] + "," + rest == parts[0] + ("," + rest);
      ScanConcat(parts[0], "," + rest, d);
    }
  }

  lemma SpacedScan(s: string, d: nat)
    requires Shaped(s)
    ensures DepthAfter(" " + s, d) == d && NoTopComma(" " + s, d)
  {
    assert (" " + s)[1..] == s;
    assert DepthAfter(s, d) == d && NoTopComma(s, d);
  }

  lemma {:induction false} PrintIsShaped(types: map<string, Type>, t: Type)
    requires Printable(types, t)
    ensures Shaped(Print(t))
    decreases t, 1
  {
    match t
    case Prim(p) =>
      if p.Unit? {
        UnitIsShaped();
      } else {
        NamesArePlain(p);
        NamesAreTrimmed(p);
        PlainIsShaped(PrimitiveName(p));
      }
    case Array(inner) =>
      PrintIsShaped(types, inner);
      BracketsAreShaped(ARRAY, Print(inner), ">");
    case Span(inner) =>
      PrintIsShaped(types, inner);
      BracketsAreShaped(SPAN, Print(inner), ">");
    case Tuple(members) => TupleIsShaped(types, t);
    case Struct(name, _) => PlainIsShaped(name);
    case Enum(name, _) => PlainIsShaped(name);
  }

  lemma UnitIsShaped()
    ensures Shaped("()")
  {
    BracketsAreShaped("(", "", ")");
    assert "(" + "" + ")" == "()";
  }

  lemma {:induction false} TupleIsShaped(types: map<string, Type>, t: Type)
    requires t.Tuple? && Printable(types, t)
    ensures Shaped(Print(t))
    decreases t, 0
  {
    forall d: nat | d > 0 ensures DepthAfter(Join(Parts(t)), d) == d && NoTopComma(Join(Parts(t)), d) {
      forall i | 0 <= i < |t.members| ensures DepthAfter(Parts(t)[i], d) == d && NoTopComma(Parts(t)[i], d) {
        PrintIsShaped(types, t.members[i].ty);
        PartScan(t, i, d);
      }
      JoinedScan(Parts(t), d);
    }
    BracketsAreShaped("(", Join(Parts(t)), ")");
  }

  lemma PartScan(t: Type, i: nat, d: nat)
    requires t.Tuple? && i < |t.members| && Shaped(Print(t.members[i].ty))
    ensures DepthAfter(Parts(t)[i], d) == d && NoTopComma(Parts(t)[i], d)
  {
    var s := Print(t.members[i].ty);
    SpacedScan(s, d);
    assert "" + s == s;
    assert DepthAfter(s, d) == d && NoTopComma(s, d);
  }

  lemma TrimPart(t: Type, i: nat)
    requires t.Tuple? && i < |t.members| && Trimmed(Print(t.members[i].ty))
    ensures TrimSpace(Parts(t)[i]) == Print(t.members[i].ty)
  {
    var s := Print(t.members[i].ty);
    assert "" + s == s && (" " + s)[1..] == s;
  }

  lemma NotGeneric(s: string)
    requires '<' !in s
    ensures !HasPrefix(s, ARRAY) && !HasPrefix(s, SPAN) && s != NON_ZERO_UNIT
  {
    assert ARRAY[20] == '<' && SPAN[19] == '<' && NON_ZERO_UNIT[25] == '<';
    PrefixMembers(ARRAY, s, 20);
    PrefixMembers(SPAN, s, 19);
    assert NON_ZERO_UNIT[25] in NON_ZERO_UNIT;
  }

  lemma PrefixMembers(prefix: string, s: string, i: nat)
    requires i < |prefix|
    ensures HasPrefix(s, prefix) ==> prefix[i] in s
  {
    if HasPrefix(s, prefix) {
      assert s[i] == prefix[i];
    }
  }

  lemma PrimitiveResolves(types: map<string, Type>, p: Primitive)
    ensures Resolve(types, PrimitiveName(p)) == Prim(p)
  {
    var s := PrimitiveName(p);
    NamesAreTrimmed(p);
    if p.Unit? {
      assert '<' !in "()";
    } else {
      NamesArePlain(p);
    }
    NotGeneric(s);
    KnownPrimitive(p);
  }

  lemma KnownPrimitive(p: Primitive)
    ensures Known(PrimitiveName(p), 0) < |PRIMITIVES| && PRIMITIVES[Known(PrimitiveName(p), 0)] == p
  {
    var k := Known(PrimitiveName(p), 0);
    PrimitiveListed(p);
    var j :| 0 <= j < |PRIMITIVES| && PRIMITIVES[j] == p;
    SameNameSamePrimitive(PRIMITIVES[k], p);
  }

  lemma PrimitiveListed(p: Primitive)
    ensures exists j | 0 <= j < |PRIMITIVES| :: PRIMITIVES[j] == p
  {
    match p
    case Felt252 => assert PRIMITIVES[0] == p;
    case U8 => assert PRIMITIVES[1] == p;
    case U16 => assert PRIMITIVES[2] == p;
    case U32 => assert PRIMITIVES[3] == p;
    case U64 => assert PRIMITIVES[4] == p;
    case U128 => assert PRIMITIVES[5] == p;
    case U256 => assert PRIMITIVES[6] == p;
    case I8 => assert PRIMITIVES[7] == p;
    case I16 => assert PRIMITIVES[8] == p;
    case I32 => assert PRIMITIVES[9] == p;
    case I64 => assert PRIMITIVES[10] == p;
    case I128 => assert PRIMITIVES[11] == p;
    case Bool => assert PRIMITIVES[12] == p;
    case ContractAddress => assert PRIMITIVES[13] == p;
    case ClassHash => assert PRIMITIVES[14] == p;
    case ByteArray => assert PRIMITIVES[15] == p;
    case Unit => assert PRIMITIVES[16] == p;
  }

  lemma GenericResolves(types: map<string, Type>, inner: string)
    ensures Resolve(types, ARRAY + inner + ">") == Array(Resolve(types, inner))
    ensures Resolve(types, SPAN + inner + ">") == Span(Resolve(types, inner))
  {
    var a, s := ARRAY + inner + ">", SPAN + inner + ">";
    assert a[0] == 'c' && s[0] == 'c' && a[|a| - 1] == '>' && s[|s| - 1] == '>';
    assert a[..|ARRAY|] == ARRAY && s[..|SPAN|] == SPAN;
    assert Inner(a, ARRAY) == inner && Inner(s, SPAN) == inner;
    assert s[13] == SPAN[13] == 'S' && ARRAY[13] == 'A';
    assert !HasPrefix(s, ARRAY);
  }

  lemma RegisteredResolves(types: map<string, Type>, name: string, t: Type)
    requires Registered(types, name, t)
    ensures Resolve(types, name) == t
  {
    NotGeneric(name);
    assert name[0] in name;
    assert !IsTuple(name) && !IsKnownPrimitive(name) && TrimSnapshot(name) == name;
  }

  /** Resolving a printed type gives the type back, whatever else the ABI registers. */
  lemma {:induction false} ResolveInvertsPrint(types: map<string, Type>, t: Type)
    requires Printable(types, t)
    ensures Resolve(types, Print(t)) == t
    decreases t, 1
  {
    match t
    case Prim(p) => PrimitiveResolves(types, p);
    case Array(inner) =>
      GenericResolves(types, Print(inner));
      ResolveInvertsPrint(types, inner);
    case Span(inner) =>
      GenericResolves(types, Print(inner));
      ResolveInvertsPrint(types, inner);
    case Tuple(_) => TupleInvertsPrint(types, t);
    case Struct(name, _) => RegisteredResolves(types, name, t);
    case Enum(name, _) => RegisteredResolves(types, name, t);
  }

  lemma {:induction false} TupleInvertsPrint(types: map<string, Type>, t: Type)
    requires t.Tuple? && Printable(types, t)
    ensures Resolve(types, Print(t)) == t
    decreases t, 0
  {
    var s, joined := Print(t), Join(Parts(t));
    forall i | 0 <= i < |t.members|
      ensures Balanced(Parts(t)[i]) && TrimSpace(Parts(t)[i]) == Print(t.members[i].ty)
      ensures Resolve(types, TrimSpace(Parts(t)[i])) == t.members[i].ty
    {
      PrintIsShaped(types, t.members[i].ty);
      PartScan(t, i, 0);
      TrimPart(t, i);
      ResolveInvertsPrint(types, t.members[i].ty);
    }
    SplitInvertsJoin(Parts(t));
    assert s[1..|s| - 1] == joined;
    TupleResolves(types, s);
    MembersMatch(types, t, |s| - 2);
  }

  lemma MembersMatch(types: map<string, Type>, t: Type, n: nat)
    requires t.Tuple? && forall i | 0 <= i < |t.members| :: |Parts(t)[i]| <= n
    requires forall i | 0 <= i < |t.members| ::
               t.members[i].name == Decimal(i) && Resolve(types, TrimSpace(Parts(t)[i])) == t.members[i].ty
    ensures ResolveParts(types, Parts(t), n) == t.members
  {
  }

  /** A snapshot resolves like what it is a snapshot of. */
  lemma SnapshotResolves(types: map<string, Type>, s: string)
    requires s == "" || s[0] != '@'
    ensures Resolve(types, "@" + s) == Resolve(types, s)
  {
    assert ("@" + s)[1..] == s;
  }

  /** A trailing comma, as in a one-element tuple written "(T,)", adds a member: the empty
      name after it, taken for a felt. */
  lemma TrailingCommaAddsAMember(types: map<string, Type>, t: Type)
    requires Printable(types, t) && "" !in types
    ensures Resolve(types, "(" + Print(t) + ",)") == Tuple([Field("0", t), Field("1", Prim(Felt252))])
  {
    var p := Print(t);
    var s := "(" + p + ",)";
    PrintIsShaped(types, t);
    assert s[1..|s| - 1] == p + "," && DepthAfter(p, 0) == 0 && NoTopComma(p, 0);
    assert Balanced("") && Join([p, ""]) == p + "," + "" == p + ",";
    SplitInvertsJoin([p, ""]);
    TupleResolves(types, s);
    ResolveInvertsPrint(types, t);
    EmptyIsFelt(types);
    assert ResolveParts(types, [p, ""], |s| - 2) == [Field("0", t), Field("1", Prim(Felt252))];
  }

  lemma EmptyIsFelt(types: map<string, Type>)
    requires "" !in types
    ensures Resolve(types, "") == Prim(Felt252)
  {
    NotGeneric("");
    EmptyIsUnknown();
    assert TrimSnapshot("") == "" && !IsTuple("") && !IsKnownPrimitive("");
  }

  lemma EmptyIsUnknown()
    ensures Known("", 0) == |PRIMITIVES|
  {
    var k := Known("", 0);
    if k < |PRIMITIVES| {
      NamesAreTrimmed(PRIMITIVES[k]);
      assert false;
    }
  }
}
