/** Resolved Cairo types (types.go). */
module AbiTypes {

  datatype Primitive =
    | Felt252 | U8 | U16 | U32 | U64 | U128 | U256 | I8 | I16 | I32 | I64 | I128
    | Bool | ContractAddress | ClassHash | ByteArray | Unit

  datatype Field = Field(name: string, ty: Type)

  datatype Type =
    | Prim(p: Primitive)
    | Array(inner: Type)
    | Span(inner: Type)
    | Tuple(members: seq<Field>)  // named "0", "1", ...
    | Struct(name: string, members: seq<Field>)
    | Enum(name: string, variants: seq<Field>)

  function PrimSize(p: Primitive): int {
    match p
    case Unit => 0
    case U256 => 2
    case ByteArray => -1
    case _ => 1
  }

  /** FeltSize: a struct adds up whatever its members report, a tuple gives up on -1. */
  function FeltSize(t: Type): int
    decreases t, 1
  {
    match t
    case Prim(p) => PrimSize(p)
    case Struct(_, members) => StructSize(t, |members|)
    case Tuple(members) => if exists i | 0 <= i < |members| ::
         FeltSize(members[i].ty) < 0 then -1 else StructSize(t, |members|)
    case Enum(_, _) => -1
    case Array(_) => -1
    case Span(_) => -1
  }

  /** The sum over the first `n` members. */
  function StructSize(t: Type, n: nat): int
    requires (t.Struct? || t.Tuple?) && n <= |t.members|
    decreases t, 0, n
  {
    if n == 0 then 0 else StructSize(t, n - 1) + FeltSize(t.members[n - 1].ty)
  }

  /** The loops of FeltSize. */
  method ComputeFeltSize(t: Type) returns (size: int)
    ensures size == FeltSize(t)
    decreases t
  {
    match t {
      case Prim(p) => return PrimSize(p);
      case Struct(_, members) =>
        size := 0;
        for i := 0 to |members|
          invariant size == StructSize(t, i)
        {
          var m := ComputeFeltSize(members[i].ty);
          size := size + m;
        }
      case Tuple(members) =>
        size := 0;
        for i := 0 to |members|
          invariant size == StructSize(t, i)
          invariant forall j | 0 <= j < i :: FeltSize(members[j].ty) >= 0
        {
          var m := ComputeFeltSize(members[i].ty);
          if m < 0 {
            return -1;
          }
          size := size + m;
        }
      case Enum(_, _) => return -1;
      case Array(_) => return -1;
      case Span(_) => return -1;
    }
  }

  /** No part of variable size. */
  ghost predicate Fixed(t: Type) {
    match t
    case Prim(p) => !p.ByteArray?
    case Tuple(members) => forall i | 0 <= i < |members| :: Fixed(members[i].ty)
    case Struct(_, members) => forall i | 0 <= i < |members| :: Fixed(members[i].ty)
    case Array(_) => false
    case Span(_) => false
    case Enum(_, _) => false
  }
}
