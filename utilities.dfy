/**
 * src/cpp/utilities/utilities.cpp: the type-name to type-code map, the type-code
 * to encoded-dtype map and the axis resolver used by the zarr reader.
 */
module Utilities {
  import opened Wrappers
  import opened ElementKinds

  // ---------------------------------------------------------------------------
  // Type names and codes
  // ---------------------------------------------------------------------------

  /**
   * `GetDataTypeCode`: the ten tensorstore type names map to their kind's code,
   * "double" is accepted as an alias of "float64", and every other name falls back
   * to 2, the uint16 code, without an error.
   */
  function GetDataTypeCode(typeName: string): (code: int)
    ensures forall k :: typeName == TypeName(k) ==> code == KindCode(k)
    ensures typeName == "double" ==> code == KindCode(F64)
    ensures (forall k :: typeName != TypeName(k)) && typeName != "double" ==> code == KindCode(U16)
    ensures IsTypeCode(code)
  {
    KindTable();
    if typeName == "uint8" then 1
    else if typeName == "uint16" then 2
    else if typeName == "uint32" then 4
    else if typeName == "uint64" then 8
    else if typeName == "int8" then 16
    else if typeName == "int16" then 32
    else if typeName == "int32" then 64
    else if typeName == "int64" then 128
    else if typeName == "float32" then 256
    else if typeName == "float64" then 512
    else if typeName == "double" then 512
    else 2
  }

  /**
   * The encoded dtype token tensorstore's zarr driver chooses for an element type
   * (`ChooseBaseDType(dtype).encoded_dtype`): determined by, and determining, the kind.
   */
  datatype EncodedDType = BaseDType(kind: ElementKind)

  /**
   * The text of an encoded dtype: a NumPy type string, that is a byte-order mark
   * ('|' for one-byte types, '<' for the little-endian encoding of wider ones), a
   * kind letter and the byte width. What the readers rely on is only that the text
   * starts with a byte-order mark.
   */
  function EncodedText(e: EncodedDType): (s: string)
    ensures |s| == 3 && (s[0] == '<' || s[0] == '|')
  {
    match e.kind
    case U8 => "|u1" case U16 => "<u2" case U32 => "<u4" case U64 => "<u8"
    case I8 => "|i1" case I16 => "<i2" case I32 => "<i4" case I64 => "<i8"
    case F32 => "<f4" case F64 => "<f8"
  }

  /** Different encodings have different texts, and no text is one of the ten type names or "double". */
  lemma EncodedTextLaws()
    ensures forall e, e' :: EncodedText(e) == EncodedText(e') ==> e == e'
    ensures forall e, k :: EncodedText(e) != TypeName(k)
    ensures forall e :: EncodedText(e) != "double"
  {
    forall e, k
      ensures EncodedText(e) != TypeName(k)
    {
      assert TypeName(k)[0] != '<' && TypeName(k)[0] != '|';
    }
  }

  /**
   * `GetEncodedType` as written: the switch maps each code to the encoding of its
   * kind, except that the arm for 8 (uint64) returns the uint16 encoding; any
   * other code also yields the uint16 encoding.
   */
  function GetEncodedType(dataTypeCode: int): (e: EncodedDType)
    ensures !IsTypeCode(dataTypeCode) ==> e == BaseDType(U16)
    ensures dataTypeCode == KindCode(U64) ==> e == BaseDType(U16)
  {
    match dataTypeCode
    case 1 => BaseDType(U8)
    case 2 => BaseDType(U16)
    case 4 => BaseDType(U32)
    case 8 => BaseDType(U16)
    case 16 => BaseDType(I8)
    case 32 => BaseDType(I16)
    case 64 => BaseDType(I32)
    case 128 => BaseDType(I64)
    case 256 => BaseDType(F32)
    case 512 => BaseDType(F64)
    case _ => BaseDType(U16)
  }

  /** `GetEncodedType` with the uint64 arm returning the uint64 encoding. */
  function GetEncodedTypeCorrected(dataTypeCode: int): (e: EncodedDType)
    ensures !IsTypeCode(dataTypeCode) ==> e == BaseDType(U16)
  {
    match dataTypeCode
    case 1 => BaseDType(U8)
    case 2 => BaseDType(U16)
    case 4 => BaseDType(U32)
    case 8 => BaseDType(U64)
    case 16 => BaseDType(I8)
    case 32 => BaseDType(I16)
    case 64 => BaseDType(I32)
    case 128 => BaseDType(I64)
    case 256 => BaseDType(F32)
    case 512 => BaseDType(F64)
    case _ => BaseDType(U16)
  }

  /**
   * As written, the name -> code -> encoding round trip returns the kind's own
   * encoding for nine of the ten names; for "uint64" it returns the uint16 encoding.
   */
  lemma EncodedRoundTripAsWritten()
    ensures forall k :: k != U64 ==> GetEncodedType(GetDataTypeCode(TypeName(k))) == BaseDType(k)
    ensures GetEncodedType(GetDataTypeCode("uint64")) == BaseDType(U16)
    ensures GetEncodedType(GetDataTypeCode("uint64")) != BaseDType(U64)
  {
    KindTable();
  }

  /**
   * With the corrected arm, the round trip is the identity on every kind, and the
   * encoding decides the code back: codes with equal encodings are equal.
   */
  lemma EncodedRoundTripCorrected()
    ensures forall k :: GetEncodedTypeCorrected(GetDataTypeCode(TypeName(k))) == BaseDType(k)
    ensures forall k :: GetEncodedTypeCorrected(KindCode(k)) == BaseDType(k)
    ensures forall code :: IsTypeCode(code) ==> GetEncodedTypeCorrected(code) == BaseDType(DispatchKind(code))
  {
    KindTable();
    forall k
      ensures GetEncodedTypeCorrected(KindCode(k)) == BaseDType(k)
    {
      match k
      case U8 => case U16 => case U32 => case U64 => case I8 =>
      case I16 => case I32 => case I64 => case F32 => case F64 =>
    }
    forall k
      ensures GetEncodedTypeCorrected(GetDataTypeCode(TypeName(k))) == BaseDType(k)
    {
      assert GetDataTypeCode(TypeName(k)) == KindCode(k);
    }
  }

  // ---------------------------------------------------------------------------
  // Axis resolution
  // ---------------------------------------------------------------------------

  /** Last position of `ch` in `s`, if any. */
  function LastIndexOf(s: string, ch: char): (r: Option<nat>)
    ensures r.Some? ==> r.value < |s| && s[r.value] == ch
    ensures r.Some? ==> forall q :: r.value < q < |s| ==> s[q] != ch
    ensures r.None? <==> ch !in s
  {
    if |s| == 0 then None
    else if s[|s| - 1] == ch then Some(|s| - 1)
    else
      var r := LastIndexOf(s[..|s| - 1], ch);
      assert forall q :: 0 <= q < |s| - 1 ==> s[..|s| - 1][q] == s[q];
      assert ch in s <==> ch in s[..|s| - 1];
      r
  }

  /** The (t, c, z) axis positions resolved for a zarr store. */
  datatype AxisIndices = AxisIndices(t: Option<nat>, c: Option<nat>, z: Option<nat>)

  /**
   * What `ParseMultiscaleMetadata` computes: when the axis string is as long as the
   * store's rank, each of T, C, Z is at its last position in the string (absent if
   * the letter is absent); otherwise the axes are guessed from the rank alone.
   */
  function ResolveAxes(axes: string, rank: int): AxisIndices
  {
    if |axes| == rank then AxisIndices(LastIndexOf(axes, 'T'), LastIndexOf(axes, 'C'), LastIndexOf(axes, 'Z'))
    else if rank == 3 then AxisIndices(None, None, Some(0))
    else if rank == 4 then AxisIndices(None, Some(0), Some(1))
    else AxisIndices(None, None, None)
  }

  /**
   * `ParseMultiscaleMetadata`: scans the axis string, overwriting the T, C and Z
   * positions whenever the letter is met; falls back to the rank-based guess when
   * the string length differs from the rank. The source asserts the string has at
   * most five letters.
   */
  method ParseMultiscaleMetadata(axesList: string, len: int) returns (tIndex: Option<nat>, cIndex: Option<nat>, zIndex: Option<nat>)
    requires |axesList| <= 5
    ensures AxisIndices(tIndex, cIndex, zIndex) == ResolveAxes(axesList, len)
  {
    tIndex, cIndex, zIndex := None, None, None;
    if |axesList| == len {
      var i := 0;
      while i < |axesList|
        invariant 0 <= i <= |axesList|
        invariant tIndex == LastIndexOf(axesList[..i], 'T')
        invariant cIndex == LastIndexOf(axesList[..i], 'C')
        invariant zIndex == LastIndexOf(axesList[..i], 'Z')
      {
        assert axesList[..i + 1][..i] == axesList[..i];
        if axesList[i] == 'T' { tIndex := Some(i); }
        if axesList[i] == 'C' { cIndex := Some(i); }
        if axesList[i] == 'Z' { zIndex := Some(i); }
        i := i + 1;
      }
      assert axesList[..i] == axesList;
    } else {
      if len == 3 {
        zIndex := Some(0);
      } else if len == 4 {
        zIndex := Some(1);
        cIndex := Some(0);
      }
    }
  }

  /**
   * Every resolved index is a valid dimension of the store, and the three present
   * indices are pairwise distinct: no two of T, C, Z claim the same dimension.
   */
  lemma ResolvedAxesWellFormed(axes: string, rank: int)
    requires rank >= 0
    ensures var r := ResolveAxes(axes, rank);
      && (r.t.Some? ==> r.t.value < rank)
      && (r.c.Some? ==> r.c.value < rank)
      && (r.z.Some? ==> r.z.value < rank)
      && (r.t.Some? && r.c.Some? ==> r.t.value != r.c.value)
      && (r.t.Some? && r.z.Some? ==> r.t.value != r.z.value)
      && (r.c.Some? && r.z.Some? ==> r.c.value != r.z.value)
  {
  }

  /** The canonical orders: "TCZYX" gives 0, 1, 2; "CZYX" gives C = 0, Z = 1; "ZYX" gives Z = 0. */
  lemma CanonicalAxes()
    ensures ResolveAxes("TCZYX", 5) == AxisIndices(Some(0), Some(1), Some(2))
    ensures ResolveAxes("CZYX", 4) == AxisIndices(None, Some(0), Some(1))
    ensures ResolveAxes("ZYX", 3) == AxisIndices(None, None, Some(0))
    ensures ResolveAxes("YX", 2) == AxisIndices(None, None, None)
  {
    assert "TCZYX"[..4] == "TCZY" && "TCZY"[..3] == "TCZ" && "TCZ"[..2] == "TC" && "TC"[..1] == "T";
    assert "CZYX"[..3] == "CZY" && "CZY"[..2] == "CZ" && "CZ"[..1] == "C";
    assert "ZYX"[..2] == "ZY" && "ZY"[..1] == "Z";
    assert "YX"[..1] == "Y" && "Y"[..0] == "";
  }

  /**
   * The rank-based guess agrees with the canonical suffix of "TCZYX" for ranks 3
   * and 4: a store whose axis string is missing or of the wrong length is read as
   * ZYX or CZYX.
   */
  lemma GuessMatchesCanonical(axes: string)
    ensures |axes| != 3 ==> ResolveAxes(axes, 3) == ResolveAxes("ZYX", 3)
    ensures |axes| != 4 ==> ResolveAxes(axes, 4) == ResolveAxes("CZYX", 4)
  {
    CanonicalAxes();
  }
}
