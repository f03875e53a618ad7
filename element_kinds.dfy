/**
 * The ten pixel element types the library knows, in the order of the
 * `image_data` variant, together with the numeric type codes the readers
 * dispatch on and the type names tensorstore reports for them.
 */
module ElementKinds {

  /** The alternatives of `image_data`, in declaration order. */
  datatype ElementKind = U8 | U16 | U32 | U64 | I8 | I16 | I32 | I64 | F32 | F64

  /** Position of the alternative inside the variant (`std::variant::index`). */
  function VariantIndex(k: ElementKind): (i: nat)
    ensures i < 10
  {
    match k
    case U8 => 0 case U16 => 1 case U32 => 2 case U64 => 3
    case I8 => 4 case I16 => 5 case I32 => 6 case I64 => 7
    case F32 => 8 case F64 => 9
  }

  /** The alternative at a variant position. */
  function KindAt(i: nat): ElementKind
    requires i < 10
  {
    [U8, U16, U32, U64, I8, I16, I32, I64, F32, F64][i]
  }

  function Pow2(n: nat): (p: nat)
    ensures p >= 1
  {
    if n == 0 then 1 else 2 * Pow2(n - 1)
  }

  /** The type code of a kind: one bit per alternative, 1 for uint8 up to 512 for float64. */
  function KindCode(k: ElementKind): nat
  {
    Pow2(VariantIndex(k))
  }

  /** The ten codes the readers' switch statements handle. */
  predicate IsTypeCode(code: int)
  {
    code in {1, 2, 4, 8, 16, 32, 64, 128, 256, 512}
  }

  /** The tensorstore data type name of a kind (`DataType::name()`). */
  function TypeName(k: ElementKind): string
  {
    match k
    case U8 => "uint8" case U16 => "uint16" case U32 => "uint32" case U64 => "uint64"
    case I8 => "int8" case I16 => "int16" case I32 => "int32" case I64 => "int64"
    case F32 => "float32" case F64 => "float64"
  }

  /**
   * The element type chosen by a reader's `GetImageData` switch for a type code:
   * one arm per code. The switch has no arm for any other code (its `default`
   * falls off the end of a value-returning function), so the code is required
   * to be one of the ten.
   */
  function DispatchKind(code: int): (k: ElementKind)
    requires IsTypeCode(code)
    ensures KindCode(k) == code
  {
    if code == 1 then U8
    else if code == 2 then U16
    else if code == 4 then U32
    else if code == 8 then U64
    else if code == 16 then I8
    else if code == 32 then I16
    else if code == 64 then I32
    else if code == 128 then I64
    else if code == 256 then F32
    else F64
  }

  /** The codes are exactly the ten powers of two 2^0 .. 2^9, one per kind, in variant order. */
  lemma KindCodes()
    ensures forall k :: IsTypeCode(KindCode(k))
    ensures forall k, k' :: KindCode(k) == KindCode(k') ==> k == k'
    ensures forall k :: DispatchKind(KindCode(k)) == k
    ensures forall code :: IsTypeCode(code) ==> KindCode(DispatchKind(code)) == code
    ensures forall i: nat :: i < 10 ==> VariantIndex(KindAt(i)) == i && KindCode(KindAt(i)) == Pow2(i)
  {
    assert Pow2(0) == 1 && Pow2(1) == 2 && Pow2(2) == 4 && Pow2(3) == 8 && Pow2(4) == 16;
    assert Pow2(5) == 32 && Pow2(6) == 64 && Pow2(7) == 128 && Pow2(8) == 256 && Pow2(9) == 512;
  }

  /** The names and codes of the ten kinds, spelled out. */
  lemma KindTable()
    ensures TypeName(U8) == "uint8" && KindCode(U8) == 1
    ensures TypeName(U16) == "uint16" && KindCode(U16) == 2
    ensures TypeName(U32) == "uint32" && KindCode(U32) == 4
    ensures TypeName(U64) == "uint64" && KindCode(U64) == 8
    ensures TypeName(I8) == "int8" && KindCode(I8) == 16
    ensures TypeName(I16) == "int16" && KindCode(I16) == 32
    ensures TypeName(I32) == "int32" && KindCode(I32) == 64
    ensures TypeName(I64) == "int64" && KindCode(I64) == 128
    ensures TypeName(F32) == "float32" && KindCode(F32) == 256
    ensures TypeName(F64) == "float64" && KindCode(F64) == 512
  {
    KindCodes();
  }

  /** The ten type names are pairwise distinct. */
  lemma TypeNamesDistinct()
    ensures forall k, k' :: TypeName(k) == TypeName(k') ==> k == k'
  {
  }

  /** The element data a reader hands back: which alternative, and how many elements. */
  datatype ImageData = ImageData(kind: ElementKind, length: int)
}
