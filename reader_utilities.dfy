/**
 * src/cpp/reader/utilities.cpp: the older revision of the type-name map, without
 * the "double" alias, and the placeholder axis resolver that ignores its input.
 */
module ReaderUtilities {
  import opened Wrappers
  import opened ElementKinds
  import Utilities

  /**
   * `GetDataTypeCode` (older revision): the ten tensorstore type names map to their
   * kind's code and every other name, "double" included, falls back to 2.
   */
  function GetDataTypeCode(typeName: string): (code: int)
    ensures forall k :: typeName == TypeName(k) ==> code == KindCode(k)
    ensures (forall k :: typeName != TypeName(k)) ==> code == KindCode(U16)
    ensures IsTypeCode(code)
  {
    KindTable();
    if typeName == "uint8" then 1
    else if typeName == "uint16" then 2
    else if typeName == "uint32" then 4
    else if typeName == "uint64" then 8
    else if typeName == "int8" then 16
    else if typeName == "int16" then 32
    else if typeName == "int32" then 64
    else if typeName == "int64" then 128
    else if typeName == "float32" then 256
    else if typeName == "float64" then 512
    else 2
  }

  /** The two revisions agree on every name except "double", which only the newer one knows. */
  lemma RevisionsDifferOnlyOnDouble(typeName: string)
    ensures typeName != "double" ==> GetDataTypeCode(typeName) == Utilities.GetDataTypeCode(typeName)
    ensures GetDataTypeCode("double") == 2 && Utilities.GetDataTypeCode("double") == 512
  {
    KindTable();
    assert forall k :: TypeName(k) != "double";
  }

  /** `ParseMultiscaleMetadata` (placeholder): always T = 0, C = 1, Z = 2, whatever the path. */
  function ParseMultiscaleMetadata(path: string): (r: Utilities.AxisIndices)
    ensures r == Utilities.ResolveAxes("TCZYX", 5)
  {
    Utilities.CanonicalAxes();
    Utilities.AxisIndices(Some(0), Some(1), Some(2))
  }
}
