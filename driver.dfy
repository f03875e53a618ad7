/**
 * src/cpp/ts_driver/ometiff/driver.cc: the key and table bookkeeping of the
 * OME-TIFF tensorstore driver. The driver keeps its metadata (OME-XML turned
 * into JSON) in the TIFF ImageDescription tag of the same file, builds a table
 * from (z, c, t) to the TIFF directory (IFD) holding that plane, and names each
 * chunk by its pixel offsets and IFD.
 */
module OmeTiffDriver {
  import opened Wrappers
  import opened Decimal
  import opened Arith

  /** Key of the metadata entry inside the file (the TIFF ImageDescription tag). */
  const MetadataKey: string := "IMAGE_DESCRIPTION"

  /** Pseudo-directory under which the driver addresses the parts of one TIFF file. */
  const TagDirectory: string := "__TAG__/"

  /** `kImplicit`: the smallest 64-bit index, marking a bound the caller left open. */
  const Implicit: int := -0x8000_0000_0000_0000

  /** A (z, c, t) plane position, as stored in the lookup table. */
  datatype Triplet = Triplet(z: int, c: int, t: int)

  /** One `tiffData` entry of the metadata: the IFD number (its JSON key) and the plane it holds. */
  datatype TiffDataEntry = TiffDataEntry(ifd: nat, zct: Triplet)

  /**
   * The driver's metadata as far as this model needs it: the shape, the chunk
   * shape, the compatibility key and the (z, c, t) -> IFD lookup table.
   */
  datatype OmeTiffMetadata = OmeTiffMetadata(
    shape: seq<int>,
    chunkShape: seq<int>,
    compatibilityKey: string,
    ifdLookupTable: map<Triplet, nat>)

  /**
   * A metadata text that parsed as JSON: its `omeXml.tiffData` entries in the
   * object's iteration order, and what `OmeTiffMetadata::FromJson` makes of it.
   */
  datatype Json = Json(tiffData: seq<TiffDataEntry>, fromJson: Result<OmeTiffMetadata>)

  // ---------------------------------------------------------------------------
  // Metadata
  // ---------------------------------------------------------------------------

  /** `MetadataCache::GetMetadataStorageKey`: the metadata lives in a tag of the same file. */
  function GetMetadataStorageKey(entryKey: string): (key: string)
    ensures |key| == |entryKey| + |TagDirectory| + |MetadataKey|
    ensures key[..|entryKey|] == entryKey
    ensures key[|entryKey|..] == "__TAG__/IMAGE_DESCRIPTION"
  {
    entryKey + TagDirectory + MetadataKey
  }

  /** Different files have different metadata keys. */
  lemma MetadataStorageKeyInjective(a: string, b: string)
    requires GetMetadataStorageKey(a) == GetMetadataStorageKey(b)
    ensures a == b
  {
    var ka := GetMetadataStorageKey(a);
    assert |a| == |b|;
    assert a == ka[..|a|] == b;
  }

  /**
   * The lookup table the entries build when each is inserted with `emplace`: an
   * entry whose plane is already in the table is ignored.
   */
  function BuildTable(entries: seq<TiffDataEntry>): map<Triplet, nat>
  {
    if |entries| == 0 then map[]
    else
      var m := BuildTable(entries[..|entries| - 1]);
      var e := entries[|entries| - 1];
      if e.zct in m then m else m[e.zct := e.ifd]
  }

  /** Entry j is the first one naming its plane. */
  predicate FirstForPlane(entries: seq<TiffDataEntry>, j: int)
    requires 0 <= j < |entries|
  {
    forall k :: 0 <= k < j ==> entries[k].zct != entries[j].zct
  }

  /** The planes the entries name. */
  function Planes(entries: seq<TiffDataEntry>): set<Triplet>
  {
    set i | 0 <= i < |entries| :: entries[i].zct
  }

  /** The table holds exactly the planes the entries name. */
  lemma {:induction false} BuildTableDomain(entries: seq<TiffDataEntry>)
    ensures BuildTable(entries).Keys == Planes(entries)
  {
    if |entries| > 0 {
      var front := entries[..|entries| - 1];
      BuildTableDomain(front);
      assert forall i :: 0 <= i < |front| ==> front[i] == entries[i];
      assert Planes(entries) == Planes(front) + {entries[|entries| - 1].zct};
    }
  }

  /** Entry j, the first naming its plane, is the one the table keeps for that plane. */
  lemma {:induction false} FirstEntryKept(entries: seq<TiffDataEntry>, j: int)
    requires 0 <= j < |entries| && FirstForPlane(entries, j)
    ensures entries[j].zct in BuildTable(entries) && BuildTable(entries)[entries[j].zct] == entries[j].ifd
    decreases |entries|
  {
    var front := entries[..|entries| - 1];
    var last := entries[|entries| - 1];
    var m := BuildTable(front);
    assert BuildTable(entries) == if last.zct in m then m else m[last.zct := last.ifd];
    if j < |front| {
      assert front[j] == entries[j];
      assert FirstForPlane(front, j) by {
        forall k | 0 <= k < j ensures front[k].zct != front[j].zct {
          assert front[k] == entries[k];
        }
      }
      FirstEntryKept(front, j);
    } else {
      BuildTableDomain(front);
      assert last.zct !in Planes(front) by {
        forall i | 0 <= i < |front| ensures front[i].zct != last.zct {
          assert front[i] == entries[i];
        }
      }
    }
  }

  /**
   * Each plane maps to the IFD of the first entry naming it: later duplicates
   * never overwrite (`emplace`).
   */
  lemma BuildTableFirstWins(entries: seq<TiffDataEntry>)
    ensures forall j :: 0 <= j < |entries| && FirstForPlane(entries, j) ==>
              entries[j].zct in BuildTable(entries) && BuildTable(entries)[entries[j].zct] == entries[j].ifd
  {
    forall j | 0 <= j < |entries| && FirstForPlane(entries, j)
      ensures entries[j].zct in BuildTable(entries) && BuildTable(entries)[entries[j].zct] == entries[j].ifd
    {
      FirstEntryKept(entries, j);
    }
  }

  /** When the IFD numbers are distinct, so are the table's values: no two planes share an IFD. */
  lemma BuildTableInjective(entries: seq<TiffDataEntry>)
    requires forall i, j :: 0 <= i < j < |entries| ==> entries[i].ifd != entries[j].ifd
    ensures forall x, y :: x in BuildTable(entries) && y in BuildTable(entries) && x != y ==>
              BuildTable(entries)[x] != BuildTable(entries)[y]
  {
    BuildTableDomain(entries);
    BuildTableFirstWins(entries);
    forall x, y | x in BuildTable(entries) && y in BuildTable(entries) && x != y
      ensures BuildTable(entries)[x] != BuildTable(entries)[y]
    {
      var jx := FirstIndex(entries, x);
      var jy := FirstIndex(entries, y);
      assert jx != jy;
    }
  }

  /** Index of the first entry naming plane x. */
  function FirstIndex(entries: seq<TiffDataEntry>, x: Triplet): (j: nat)
    requires exists i :: 0 <= i < |entries| && entries[i].zct == x
    ensures j < |entries| && entries[j].zct == x && FirstForPlane(entries, j)
  {
    if entries[0].zct == x then 0
    else
      var j := 1 + FirstIndex(entries[1..], x);
      assert entries[1..][j - 1] == entries[j];
      j
  }

  /**
   * `ParseEncodedMetadata`: a text that is not JSON fails with "Invalid JSON";
   * otherwise the lookup table is built from the `tiffData` entries, the rest of
   * the metadata comes from `FromJson` (whose failure is passed on), and the table
   * replaces the one in the metadata.
   */
  method ParseEncodedMetadata(encoded: Option<Json>) returns (r: Result<OmeTiffMetadata>)
    ensures encoded.None? ==> r == Failure("Invalid JSON")
    ensures encoded.Some? && encoded.value.fromJson.Failure? ==> r == encoded.value.fromJson
    ensures encoded.Some? && encoded.value.fromJson.Success? ==>
              r == Success(encoded.value.fromJson.value.(ifdLookupTable := BuildTable(encoded.value.tiffData)))
  {
    if encoded.None? {
      return Failure("Invalid JSON");
    }
    var rawData := encoded.value;
    var ifdLookupTable: map<Triplet, nat> := map[];
    var i := 0;
    while i < |rawData.tiffData|
      invariant 0 <= i <= |rawData.tiffData|
      invariant ifdLookupTable == BuildTable(rawData.tiffData[..i])
    {
      var el := rawData.tiffData[i];
      assert rawData.tiffData[..i + 1][..i] == rawData.tiffData[..i];
      if el.zct !in ifdLookupTable {
        ifdLookupTable := ifdLookupTable[el.zct := el.ifd];
      }
      i := i + 1;
    }
    assert rawData.tiffData[..i] == rawData.tiffData;
    if rawData.fromJson.Failure? {
      return rawData.fromJson;
    }
    var metadata := rawData.fromJson.value;
    metadata := metadata.(ifdLookupTable := ifdLookupTable);
    return Success(metadata);
  }

  /** `GetIfdIndex`: the IFD holding plane (z, c, t); only defined for planes in the table. */
  function GetIfdIndex(md: OmeTiffMetadata, z: int, c: int, t: int): nat
    requires Triplet(z, c, t) in md.ifdLookupTable
  {
    md.ifdLookupTable[Triplet(z, c, t)]
  }

  // ---------------------------------------------------------------------------
  // Chunk keys
  // ---------------------------------------------------------------------------

  /** `y_x_ifd`: the part of a chunk key after the file's tag directory and the leading `_`. */
  function OffsetsText(y: int, x: int, ifd: nat): string
  {
    IntText(y) + ("_" + (IntText(x) + ("_" + IntText(ifd))))
  }

  /** The key of the chunk at pixel offsets (y, x) in directory ifd: `prefix__TAG__/_y_x_ifd`. */
  function ChunkStorageKey(prefix: string, y: int, x: int, ifd: nat): string
  {
    prefix + TagDirectory + "_" + OffsetsText(y, x, ifd)
  }

  /** An integer's text followed by `_` can be cut off again. */
  lemma CutNumber(n: int, rest: string, n': int, rest': string)
    requires IntText(n) + ("_" + rest) == IntText(n') + ("_" + rest')
    ensures n == n' && rest == rest'
  {
    SplitAtSeparator(IntText(n), rest, IntText(n'), rest', '_');
    IntTextInjective(n, n');
  }

  /** The offsets text determines the offsets and the IFD. */
  lemma OffsetsTextInjective(y: int, x: int, ifd: nat, y': int, x': int, ifd': nat)
    requires OffsetsText(y, x, ifd) == OffsetsText(y', x', ifd')
    ensures y == y' && x == x' && ifd == ifd'
  {
    CutNumber(y, IntText(x) + ("_" + IntText(ifd)), y', IntText(x') + ("_" + IntText(ifd')));
    CutNumber(x, IntText(ifd), x', IntText(ifd'));
    IntTextInjective(ifd, ifd');
  }

  /** A chunk key determines the pixel offsets and the IFD it was built from. */
  lemma ChunkStorageKeyInjective(prefix: string, y: int, x: int, ifd: nat, y': int, x': int, ifd': nat)
    requires ChunkStorageKey(prefix, y, x, ifd) == ChunkStorageKey(prefix, y', x', ifd')
    ensures y == y' && x == x' && ifd == ifd'
  {
    PrefixCancel(prefix + TagDirectory + "_", OffsetsText(y, x, ifd), OffsetsText(y', x', ifd'));
    OffsetsTextInjective(y, x, ifd, y', x', ifd');
  }

  /** The metadata key and the chunk keys of a file never collide. */
  lemma MetadataKeyIsNotAChunkKey(prefix: string, y: int, x: int, ifd: nat)
    ensures GetMetadataStorageKey(prefix) != ChunkStorageKey(prefix, y, x, ifd)
  {
    var n := |prefix + TagDirectory|;
    assert GetMetadataStorageKey(prefix)[n] == 'I';
    assert ChunkStorageKey(prefix, y, x, ifd)[n] == '_';
  }

  /** The transform from a caller's indices to the stored array's indices. */
  datatype IndexTransform = IndexTransform(inputShape: seq<int>, implicitUpperBounds: bool, outputInputDimension: seq<nat>)

  /** Index vector seen by the store when the caller addresses `index` through `t`. */
  function Apply(t: IndexTransform, index: seq<int>): seq<int>
    requires forall i :: 0 <= i < |t.outputInputDimension| ==> t.outputInputDimension[i] < |index|
  {
    seq(|t.outputInputDimension|, i requires 0 <= i < |t.outputInputDimension| => index[t.outputInputDimension[i]])
  }

  /** Resizing: dimensions whose new exclusive max is `Implicit` keep their size. */
  function ResizedShape(shape: seq<int>, newExclusiveMax: seq<int>): (r: seq<int>)
    requires |newExclusiveMax| == |shape|
    ensures |r| == |shape|
  {
    seq(|shape|, i requires 0 <= i < |shape| => if newExclusiveMax[i] == Implicit then shape[i] else newExclusiveMax[i])
  }

  /** `ExplicitIndexOr`: a bound, or the default when the bound is implicit. */
  function ExplicitIndexOr(value: int, defaultValue: int): int
  {
    if value == Implicit then defaultValue else value
  }

  /** Resizing with every bound implicit changes nothing; resizing twice keeps the latest explicit size. */
  lemma ResizedShapeLaws(shape: seq<int>, m1: seq<int>, m2: seq<int>)
    requires |m1| == |shape| && |m2| == |shape|
    ensures (forall i :: 0 <= i < |m1| ==> m1[i] == Implicit) ==> ResizedShape(shape, m1) == shape
    ensures ResizedShape(ResizedShape(shape, m1), m2)
         == ResizedShape(shape, seq(|shape|, i requires 0 <= i < |shape| => if m2[i] == Implicit then m1[i] else m2[i]))
  {
  }

  /**
   * A driver's data cache: the key prefix of its file and the metadata it was
   * opened with.
   */
  class DataCache {
    const keyPrefix: string
    const metadata: OmeTiffMetadata

    constructor(metadata: OmeTiffMetadata, keyPrefix: string)
      ensures this.metadata == metadata && this.keyPrefix == keyPrefix
    {
      this.metadata := metadata;
      this.keyPrefix := keyPrefix;
    }

    /**
     * `ValidateMetadataCompatibility`: new metadata is accepted exactly when its
     * compatibility key equals the existing one; the error names both keys.
     */
    function ValidateMetadataCompatibility(existing: OmeTiffMetadata, updated: OmeTiffMetadata): (r: Status)
      ensures r.Ok? <==> existing.compatibilityKey == updated.compatibilityKey
      ensures r.Error? ==> r.message == "Updated OmeTiff metadata " + updated.compatibilityKey
                                        + " is incompatible with existing metadata " + existing.compatibilityKey
    {
      if existing.compatibilityKey == updated.compatibilityKey then Ok
      else Error("Updated OmeTiff metadata " + updated.compatibilityKey
                 + " is incompatible with existing metadata " + existing.compatibilityKey)
    }

    /**
     * `GetChunkGridBounds`: the grid starts at 0 in every dimension and extends over
     * the metadata's shape; lower bounds are fixed, upper bounds may grow (implicit).
     */
    method GetChunkGridBounds(md: OmeTiffMetadata, origin: array<int>, shape: array<int>)
      returns (implicitLowerBounds: bool, implicitUpperBounds: bool)
      requires origin.Length == |md.shape| && shape.Length == |md.shape| && origin != shape
      modifies origin, shape
      ensures forall i :: 0 <= i < origin.Length ==> origin[i] == 0
      ensures shape[..] == md.shape
      ensures !implicitLowerBounds && implicitUpperBounds
    {
      var i := 0;
      while i < origin.Length
        invariant 0 <= i <= origin.Length
        invariant forall k :: 0 <= k < i ==> origin[k] == 0
      {
        origin[i] := 0;
        i := i + 1;
      }
      i := 0;
      while i < shape.Length
        invariant 0 <= i <= shape.Length
        invariant forall k :: 0 <= k < origin.Length ==> origin[k] == 0
        invariant shape[..i] == md.shape[..i]
      {
        shape[i] := md.shape[i];
        i := i + 1;
      }
      assert shape[..i] == shape[..];
      implicitLowerBounds := false;
      implicitUpperBounds := true;
    }

    /**
     * `GetResizedMetadata`: a copy of the metadata whose shape takes each new
     * exclusive max that is not `Implicit`; every new inclusive min must be 0 (or
     * implicit) and nothing but the shape changes.
     */
    method GetResizedMetadata(existingMetadata: OmeTiffMetadata, newInclusiveMin: seq<int>, newExclusiveMax: seq<int>)
      returns (newMetadata: OmeTiffMetadata)
      requires |newInclusiveMin| == |existingMetadata.shape| && |newExclusiveMax| == |existingMetadata.shape|
      requires forall i :: 0 <= i < |newInclusiveMin| ==> ExplicitIndexOr(newInclusiveMin[i], 0) == 0
      ensures newMetadata.shape == ResizedShape(existingMetadata.shape, newExclusiveMax)
      ensures newMetadata.(shape := existingMetadata.shape) == existingMetadata
    {
      newMetadata := existingMetadata;
      var rank := |newMetadata.shape|;
      var i := 0;
      while i < rank
        invariant 0 <= i <= rank
        invariant |newMetadata.shape| == rank
        invariant newMetadata.(shape := existingMetadata.shape) == existingMetadata
        invariant newMetadata.shape[..i] == ResizedShape(existingMetadata.shape, newExclusiveMax)[..i]
        invariant newMetadata.shape[i..] == existingMetadata.shape[i..]
      {
        var newSize := newExclusiveMax[i];
        if newSize != Implicit {
          newMetadata := newMetadata.(shape := newMetadata.shape[i := newSize]);
        }
        i := i + 1;
      }
      assert newMetadata.shape == newMetadata.shape[..i];
    }

    /** `EncodeChunk`: the driver writes nothing; every chunk encodes to an empty payload. */
    function EncodeChunk(chunkIndices: seq<int>, componentArrays: seq<seq<int>>): (r: Result<seq<bv8>>)
      ensures r.Success? && |r.value| == 0
    {
      Success([])
    }

    /**
     * `GetChunkStorageKey`: the chunk at grid cell (t, c, z, y, x) is stored under
     * its pixel offsets y * chunk height and x * chunk width and the IFD of its
     * (z, c, t) plane. The source reads five cell indices and looks the plane up
     * in the table.
     */
    method GetChunkStorageKey(cellIndices: seq<int>) returns (key: string)
      requires |cellIndices| >= 5 && |metadata.chunkShape| >= 5
      requires Triplet(cellIndices[2], cellIndices[1], cellIndices[0]) in metadata.ifdLookupTable
      ensures key == ChunkStorageKey(keyPrefix, cellIndices[3] * metadata.chunkShape[3], cellIndices[4] * metadata.chunkShape[4],
                                     GetIfdIndex(metadata, cellIndices[2], cellIndices[1], cellIndices[0]))
    {
      var md := metadata;
      var ifd := GetIfdIndex(md, cellIndices[2], cellIndices[1], cellIndices[0]);
      key := keyPrefix + TagDirectory;
      var chunkShape := md.chunkShape;
      key := key + "_" + IntText(cellIndices[3] * chunkShape[3]);
      key := key + "_" + IntText(cellIndices[4] * chunkShape[4]);
      key := key + "_" + IntText(ifd);
    }

    /**
     * `GetExternalToInternalTransform`: the identity on the metadata's shape, with
     * upper bounds left implicit; the store sees the caller's indices unchanged.
     */
    method GetExternalToInternalTransform(md: OmeTiffMetadata, componentIndex: nat) returns (t: IndexTransform)
      requires componentIndex == 0
      ensures t.inputShape == md.shape && t.implicitUpperBounds
      ensures |t.outputInputDimension| == |md.shape|
      ensures forall k :: 0 <= k < |md.shape| ==> t.outputInputDimension[k] == k
      ensures forall index :: |index| == |md.shape| ==> Apply(t, index) == index
    {
      var rank := |md.shape|;
      var outputs: seq<nat> := [];
      var i := 0;
      while i < rank
        invariant 0 <= i <= rank
        invariant |outputs| == i
        invariant forall k :: 0 <= k < i ==> outputs[k] == k
      {
        outputs := outputs + [i];
        i := i + 1;
      }
      t := IndexTransform(md.shape, true, outputs);
    }
  }

  /**
   * Two grid cells get the same chunk key only if they are the same cell: the
   * pixel offsets recover y and x (chunk sizes are positive), and the IFD recovers
   * the plane when no two planes share an IFD.
   */
  lemma ChunkKeysIdentifyCells(cache: DataCache, a: seq<int>, b: seq<int>)
    requires |a| >= 5 && |b| >= 5 && |cache.metadata.chunkShape| >= 5
    requires cache.metadata.chunkShape[3] > 0 && cache.metadata.chunkShape[4] > 0
    requires Triplet(a[2], a[1], a[0]) in cache.metadata.ifdLookupTable
    requires Triplet(b[2], b[1], b[0]) in cache.metadata.ifdLookupTable
    requires forall x, y :: x in cache.metadata.ifdLookupTable && y in cache.metadata.ifdLookupTable && x != y ==>
               cache.metadata.ifdLookupTable[x] != cache.metadata.ifdLookupTable[y]
    requires ChunkStorageKey(cache.keyPrefix, a[3] * cache.metadata.chunkShape[3], a[4] * cache.metadata.chunkShape[4],
                             GetIfdIndex(cache.metadata, a[2], a[1], a[0]))
          == ChunkStorageKey(cache.keyPrefix, b[3] * cache.metadata.chunkShape[3], b[4] * cache.metadata.chunkShape[4],
                             GetIfdIndex(cache.metadata, b[2], b[1], b[0]))
    ensures a[..5] == b[..5]
  {
    var md := cache.metadata;
    ChunkStorageKeyInjective(cache.keyPrefix, a[3] * md.chunkShape[3], a[4] * md.chunkShape[4], GetIfdIndex(md, a[2], a[1], a[0]),
                             b[3] * md.chunkShape[3], b[4] * md.chunkShape[4], GetIfdIndex(md, b[2], b[1], b[0]));
    MulCancel(a[3], b[3], md.chunkShape[3]);
    MulCancel(a[4], b[4], md.chunkShape[4]);
    assert Triplet(a[2], a[1], a[0]) == Triplet(b[2], b[1], b[0]);
  }
}
