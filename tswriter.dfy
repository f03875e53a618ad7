/**
 * src/cpp/writer/tswriter.h: the names the writer gives the alternatives of
 * `image_data` (`get_variant_type`).
 */
module TsWriter {
  import opened ElementKinds
  import Utilities

  /**
   * `get_variant_type`: one name per alternative. The single-precision alternative
   * is called "float" and the double-precision one "double"; the "Unknown type"
   * arm cannot be reached because the variant has no other alternative.
   */
  function GetVariantType(image: ImageData): (name: string)
    ensures name != "Unknown type"
  {
    match image.kind
    case U8 => "uint8" case U16 => "uint16" case U32 => "uint32" case U64 => "uint64"
    case I8 => "int8" case I16 => "int16" case I32 => "int32" case I64 => "int64"
    case F32 => "float" case F64 => "double"
  }

  /** Different alternatives get different names. */
  lemma VariantNamesDistinct(a: ImageData, b: ImageData)
    ensures GetVariantType(a) == GetVariantType(b) <==> a.kind == b.kind
  {
  }

  /**
   * Feeding the variant name back into the type-code map gives the alternative's own
   * code for nine alternatives; "float" is not a name the map knows, so the float32
   * alternative comes back as 2 (uint16) rather than 256. "double" maps to 512.
   */
  lemma VariantNamesToCodes(image: ImageData)
    ensures image.kind != F32 ==> Utilities.GetDataTypeCode(GetVariantType(image)) == KindCode(image.kind)
    ensures image.kind == F32 ==> Utilities.GetDataTypeCode(GetVariantType(image)) == 2
  {
    KindTable();
    assert forall k :: TypeName(k) != "float" && TypeName(k) != "double";
  }
}
