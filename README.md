# bfiocpp core, modelled in Dafny

bfiocpp reads and writes OME-TIFF and OME-Zarr microscopy images through
tensorstore and exposes a reader to Python. Around the tensorstore calls sits
integer, string and map bookkeeping. This project models that bookkeeping and
proves what it does:

- the index ranges (`Seq`);
- the element-type registry: type names, type codes, encoded dtypes and variant names;
- the axis resolver and how the readers derive image dimensions from a store's shape;
- how a region read is sized and shaped;
- the tile-iteration planner of both readers (`SetIterReadRequests`);
- the Python binding's shape and tile-coordinate arithmetic;
- the key, table and bounds bookkeeping of the OME-TIFF tensorstore driver.

Each source file has its own module:

| module | file |
|---|---|
| `Sequence` | `src/cpp/utilities/sequence.h` |
| `ReaderSequence` | `src/cpp/reader/sequence.h` |
| `Utilities` | `src/cpp/utilities/utilities.cpp` |
| `ReaderUtilities` | `src/cpp/reader/utilities.cpp` |
| `TsWriter` | `src/cpp/writer/tswriter.h` |
| `TsReaderCpp` | `src/cpp/reader/tsreader.cpp` |
| `OmeTiffReaderCpp` | `src/cpp/reader/ometiff.cpp` |
| `PyInterface` | `src/cpp/interface/interface.cpp` |
| `OmeTiffDriver` | `src/cpp/ts_driver/ometiff/driver.cc` |

Shared modules:

- `ElementKinds`: the ten alternatives of `image_data` and their codes.
- `TilePlanner`: the plan both readers build, as functions that follow their loops.
- `Region`: the shape of one region read.
- `Decimal`: the decimal text `StrCat` writes for an integer.
- `Arith`: arithmetic lemmas.
- `Wrappers`: `Option`, `Result`, `Status`.

State the source updates in place is modelled as classes:

- `Sequence.Seq`, whose valid-dimension flag can be set;
- both readers, whose `SetIterReadRequests` clears `iter_request_list` and refills it in five nested loops;
- the driver's `DataCache`.

Each reader's `SetIterReadRequests` is a `while` loop. A helper method per loop level carries that level's invariant, and the loops are proved equal to `TilePlanner.Plan`. Lemmas about `Plan` give:

- its length;
- which request sits at each position;
- that under the exclusive bound (zarr reader) the bands partition the image;
- what the inclusive bound (OME-TIFF reader) adds.

## Model

| member | source | states |
|---|---|---|
| Sequence.Seq.constructor | src/cpp/utilities/sequence.h:12 | start, stop and step are the arguments (step 1 when omitted), nothing is checked, and a new range is a valid dimension |
| Sequence.Seq.SetValidDimension | src/cpp/utilities/sequence.h:16-17 | afterwards `IsValidDimension()` is the given flag; start, stop and step are constants and cannot change |
| ReaderSequence.DefaultStep | src/cpp/reader/sequence.h:11-14 | without a step argument the step is 1; `Start()` and `Stop()` give back the arguments |
| ReaderSequence.IndicesOfRange | src/cpp/reader/sequence.h:11-14 | the inclusive range a..b holds exactly the integers a to b, and there are b - a + 1 of them |
| ReaderSequence.ExtentCountsIndices | src/cpp/interface/interface.cpp:36-40 | `Stop() - Start() + 1`, the extent every reader computes, is the number of indices the range selects when it is not reversed; the step plays no part |
| ElementKinds.DispatchKind | src/cpp/reader/tsreader.cpp:155-191 | the readers' switch picks, for each of the ten codes, the element type whose code it is |
| ElementKinds.KindCodes | src/cpp/utilities/utilities.cpp:39-48 | the codes are the powers of two 2^0 to 2^9, one per alternative in variant order, pairwise distinct; dispatch and code are mutually inverse |
| ElementKinds.KindTable | src/cpp/writer/tswriter.h:28-37 | the ten alternatives in order uint8 .. float64, with type names "uint8" .. "float64" and codes 1 .. 512 |
| ElementKinds.TypeNamesDistinct | src/cpp/utilities/utilities.cpp:39-48 | different element types have different tensorstore type names |
| Utilities.GetDataTypeCode | src/cpp/utilities/utilities.cpp:37-51 | each of the ten type names gives its kind's code; "double" gives the float64 code 512; any other name gives 2 (uint16) and no error; the result is always one of the ten codes |
| Utilities.GetEncodedType | src/cpp/utilities/utilities.cpp:53-90 | as written: a code outside the ten gives the uint16 encoding, and so does code 8 (uint64) |
| Utilities.GetEncodedTypeCorrected | src/cpp/utilities/utilities.cpp:53-90 | with the uint64 arm corrected: a code outside the ten still gives the uint16 encoding |
| Utilities.EncodedRoundTripAsWritten | src/cpp/utilities/utilities.cpp:65-67 | name, then code, then encoding gives back the kind's own encoding for nine kinds; for "uint64" it gives the uint16 encoding instead |
| Utilities.EncodedRoundTripCorrected | src/cpp/utilities/utilities.cpp:53-90 | with the corrected arm the name-to-encoding round trip is exact for all ten kinds, and the encoding of a code is that of the kind the readers dispatch it to |
| Utilities.EncodedTextLaws | src/cpp/utilities/utilities.cpp:53-90 | encoded dtype texts are distinct per element type, and none is a tensorstore type name or "double" |
| Utilities.LastIndexOf | src/cpp/utilities/utilities.cpp:121-127 | the result is a position of the letter with no later occurrence, and there is none exactly when the letter is absent |
| Utilities.ParseMultiscaleMetadata | src/cpp/utilities/utilities.cpp:115-138 | the scan leaves T, C and Z at the last position of their letters when the string is as long as the rank; otherwise rank 3 gives Z = 0, rank 4 gives C = 0 and Z = 1, and other ranks give nothing |
| Utilities.ResolvedAxesWellFormed | src/cpp/utilities/utilities.cpp:115-138 | every resolved index is below the rank, and no two of T, C and Z share a dimension |
| Utilities.CanonicalAxes | src/cpp/utilities/utilities.cpp:121-127 | "TCZYX" resolves to T=0, C=1, Z=2; "CZYX" to C=0, Z=1; "ZYX" to Z=0; "YX" to none |
| Utilities.GuessMatchesCanonical | src/cpp/utilities/utilities.cpp:128-136 | for ranks 3 and 4 the fallback guess agrees with the canonical axis strings "ZYX" and "CZYX" |
| ReaderUtilities.GetDataTypeCode | src/cpp/reader/utilities.cpp:31-44 | each of the ten type names gives its kind's code; every other name gives 2, and the result is always one of the ten codes |
| ReaderUtilities.RevisionsDifferOnlyOnDouble | src/cpp/reader/utilities.cpp:43 | the two revisions of the name map agree on every name except "double", which gives 2 here and 512 in the newer one |
| ReaderUtilities.ParseMultiscaleMetadata | src/cpp/reader/utilities.cpp:69-72 | whatever the path, the axes are those of a TCZYX store: T=0, C=1, Z=2 |
| TsWriter.GetVariantType | src/cpp/writer/tswriter.h:311-327 | the "Unknown type" arm is never reached |
| TsWriter.VariantNamesDistinct | src/cpp/writer/tswriter.h:315-324 | two alternatives get the same name exactly when they are the same alternative |
| TsWriter.VariantNamesToCodes | src/cpp/writer/tswriter.h:323-324 | passing a variant name back through the type-code map gives the alternative's own code, except that "float" is unknown to the map and gives 2 |
| TsReaderCpp.RowsAndColumnsAreLast | src/cpp/reader/tsreader.cpp:35-83 | for every file type and rank, height and width are the last two dimensions of the store |
| TsReaderCpp.RankAxes | src/cpp/reader/tsreader.cpp:61-83 | for ranks 2 to 4, an axis string that is canonical or of the wrong length locates T, C and Z as the canonical order does |
| TsReaderCpp.DimensionsCoverStore | src/cpp/reader/tsreader.cpp:35-83 | the derived time steps, channels, depth, height and width multiply to the number of voxels in the store |
| TsReaderCpp.KeptProduct | src/cpp/reader/tsreader.cpp:123-146 | for each of T, C and Z, the extent is the factor kept in the destination shape times the factor dropped from it |
| TsReaderCpp.DestinationVolume | src/cpp/reader/tsreader.cpp:104-146 | the destination array's volume times the extents of the axes the store lacks is the buffer length |
| TsReaderCpp.TsReader.constructor | src/cpp/reader/tsreader.cpp:18-89 | OME-TIFF and rank-5 zarr stores are read as TCZYX from shape positions 0..4; other zarr ranks take Y and X last and T, C, Z from the resolved axes (count 1 when absent); tile sizes come only from an OME-TIFF read-chunk shape; the type code is `GetDataTypeCode` of the dtype name; the request list starts empty |
| TsReaderCpp.TsReader.GetImageDataTemplated | src/cpp/reader/tsreader.cpp:102-152 | the buffer holds the product of the five extents; T, C and Z are bound only when the store has them, rows and columns to the last two dimensions; the array shape follows the bindings and covers the buffer apart from the dropped extents; for OME-TIFF the shape is [T, C, Z, Y, X] |
| TsReaderCpp.TsReader.GetImageData | src/cpp/reader/tsreader.cpp:155-191 | the element type is the one whose code is stored: the kind the dtype name names, float64 for "double", uint16 for an unknown name; the length is the product of the five extents |
| TsReaderCpp.TsReader.GetImageDataDefaultRanges | src/cpp/reader/tsreader.cpp:155 | with the default depth, channel and time ranges `Seq(0,0)` one rows x columns plane is read, with the element type the stored code names |
| TsReaderCpp.TsReader.SetIterReadRequests | src/cpp/reader/tsreader.cpp:194-217 | the request list is replaced by the exclusive-bound plan for the reader's dimensions and strides; the tile sizes play no part |
| OmeTiffReaderCpp.OmeTiffReader.constructor | src/cpp/reader/ometiff.cpp:18-39 | T, C, Z, Y, X are shape positions 0..4; tile height and width are read-chunk positions 3 and 4; the data type is the encoded dtype text of the store's element type, so the type code is 2 (uint16) whatever that type; the request list starts empty |
| OmeTiffReaderCpp.OmeTiffReader.GetImageDataTemplated | src/cpp/reader/ometiff.cpp:52-71 | the buffer holds the product of the five extents; T, C, Z, Y, X are bound to dimensions 0..4 with the requested bounds; the [T, C, Z, Y, X] array shape follows the bindings and covers the buffer exactly |
| OmeTiffReaderCpp.OmeTiffReader.GetImageData | src/cpp/reader/ometiff.cpp:73-109 | the element type is the one whose code is stored: the kind the data type names, uint16 for any other data type, and so uint16 for every data type the constructor stores; the length is the product of the five extents |
| OmeTiffReaderCpp.OmeTiffReader.ReadsOwnKindOnlyForUint16 | src/cpp/reader/ometiff.cpp:37-38 | a reader built from a store reads it as the store's own element type exactly when that type is uint16 |
| OmeTiffReaderCpp.EncodedDTypeReadsAsUint16 | src/cpp/reader/ometiff.cpp:37-38 | as written: the code taken from an encoded dtype text is 2 for every element type, which dispatches as uint16; a float32 store is not read as float32 |
| OmeTiffReaderCpp.TypeNameReadsStoreKind | src/cpp/reader/tsreader.cpp:87-88 | taking the code from the store's type name instead dispatches every element type to itself |
| OmeTiffReaderCpp.OmeTiffReader.DefaultRangesReadOnePlane | src/cpp/reader/ometiff.cpp:73-74 | with the default depth, channel and time ranges one rows x columns plane is read, shaped (1, 1, 1, rows, columns) |
| OmeTiffReaderCpp.OmeTiffReader.DefaultRangesShape | src/cpp/reader/ometiff.cpp:73-74 | for any ranges, the default `Seq(0,0)` depth, channel and time ranges give a buffer of rows x columns elements and the array shape [1, 1, 1, rows, columns], whatever the element type |
| OmeTiffReaderCpp.OmeTiffReader.SetIterReadRequests | src/cpp/reader/ometiff.cpp:125-148 | the request list is replaced by the inclusive-bound plan for the reader's dimensions and strides; the tile sizes play no part |
| TilePlanner.BandsFromAt | src/cpp/reader/tsreader.cpp:199-212 | band i of a scan starts at i times the stride and ends one stride later, clipped to the last row |
| TilePlanner.ExclusiveBandsFromTile | src/cpp/reader/tsreader.cpp:199-212 | under `y < height` the bands are non-empty, start one stride apart, are at most a stride wide, and the last ends at the last row |
| TilePlanner.ExclusiveBandsPartition | src/cpp/reader/tsreader.cpp:196-216 | under `y < height` a row is covered exactly when it is in [0, height - 1], it is covered by exactly one band, the bands are in increasing order, and there are ceil(height / stride) of them |
| TilePlanner.InclusiveBandsFrom | src/cpp/reader/ometiff.cpp:130-134 | under `y <= height` the bands are the exclusive ones, plus the empty band [height, height - 1] when the scan lands on height exactly |
| TilePlanner.InclusiveBands | src/cpp/reader/ometiff.cpp:130-139 | when the stride divides the extent, the inclusive scan adds one empty band [n, n - 1] and has n / stride + 1 bands; otherwise its bands are the exclusive ones |
| TilePlanner.PlanAt | src/cpp/reader/tsreader.cpp:196-216 | the request for (t, c, z, row band i, column band j) is at the lexicographic position of (t, c, z, i, j) and carries those bands' bounds |
| TilePlanner.PlanLength | src/cpp/reader/tsreader.cpp:196-216 | the plan has T * C * Z * rowBands * columnBands requests, which is T * C * Z * ceil(H / rowStride) * ceil(W / colStride) under the exclusive bound |
| TilePlanner.TenByTenScenario | src/cpp/reader/tsreader.cpp:196-216 | a 10 x 10 image with stride 4 has row bands [0,3], [4,7], [8,9], and two channels give 18 requests |
| TilePlanner.InclusiveEightByFourScenario | src/cpp/reader/ometiff.cpp:130 | with the inclusive bound, an 8-row image and stride 4 get the bands [0,3], [4,7] and the empty [8,7] |
| PyInterface.TruncDiv | src/cpp/interface/interface.cpp:85-86 | C++ division: the remainder is smaller than the divisor in magnitude and has the dividend's sign; for a non-negative dividend and a positive divisor it is floor division |
| PyInterface.AsPyArrayShared5d | src/cpp/interface/interface.cpp:15-32 | the reshape to (tsteps, channels, layers, rows, cols) succeeds exactly when the sizes are non-negative and multiply to the buffer length; the array keeps the buffer's element type |
| PyInterface.GetImageData | src/cpp/interface/interface.cpp:34-43 | the reshape succeeds exactly when no range is reversed; the array is shaped (T, C, Z, Y, X) from the five extents, with the reader's element type |
| PyInterface.GetIteratorRequestedTileData | src/cpp/interface/interface.cpp:46-66 | a request becomes ranges [yMin, yMax] and [xMin, xMax] with single T, C and Z indices; the reshape succeeds exactly when neither band is reversed, shaped (1, 1, 1, rows, columns) |
| PyInterface.GetTileCoordinate | src/cpp/interface/interface.cpp:83-89 | the tile row and column are the position divided by the stride with C++ truncation toward zero, for every sign; for non-negative positions and positive strides they are the tiles whose stride-wide interval holds the position |
| PyInterface.NegativePositionsTruncate | src/cpp/interface/interface.cpp:85-86 | a negative position truncates toward zero: -1 with stride 4 is tile 0 (floor division would give -1), -5 is tile -1 |
| PyInterface.SendIteratorReadRequests | src/cpp/interface/interface.cpp:94-97 | the reader's request list becomes the inclusive-bound plan for its dimensions and the given strides, whatever the tile sizes |
| PyInterface.InclusiveBandWidths | src/cpp/reader/ometiff.cpp:130-139 | each band of the inclusive scan is between 0 and a stride wide, and it is empty exactly when it is the extra band after an extent the stride divides |
| PyInterface.TileCoordinateOfBand | src/cpp/interface/interface.cpp:83-89 | the tile coordinate of a band's first index is the band's position in the scan |
| PyInterface.PlannedTilesReadBack | src/cpp/interface/interface.cpp:46-89 | every planned tile reads back as a (1, 1, 1, h, w) array with h and w at most the strides (h zero only for the extra band), and its tile coordinate is the pair of band indices it was planned from |
| OmeTiffDriver.GetMetadataStorageKey | src/cpp/ts_driver/ometiff/driver.cc:130-134 | the key is the entry key followed by "__TAG__/IMAGE_DESCRIPTION": the metadata is a tag of the same file |
| OmeTiffDriver.MetadataStorageKeyInjective | src/cpp/ts_driver/ometiff/driver.cc:130-134 | different files have different metadata keys |
| OmeTiffDriver.BuildTableDomain | src/cpp/ts_driver/ometiff/driver.cc:107-112 | the lookup table holds exactly the planes the tiffData entries name |
| OmeTiffDriver.FirstEntryKept | src/cpp/ts_driver/ometiff/driver.cc:109-112 | the first entry naming a plane is the one whose IFD the table keeps |
| OmeTiffDriver.BuildTableFirstWins | src/cpp/ts_driver/ometiff/driver.cc:107-112 | every plane maps to the IFD of the first entry naming it; `emplace` never overwrites |
| OmeTiffDriver.BuildTableInjective | src/cpp/ts_driver/ometiff/driver.cc:107-112 | when the entries' IFD numbers are distinct, no two planes of the table share an IFD |
| OmeTiffDriver.FirstIndex | src/cpp/ts_driver/ometiff/driver.cc:109-112 | for a named plane, the position of the first entry naming it |
| OmeTiffDriver.ParseEncodedMetadata | src/cpp/ts_driver/ometiff/driver.cc:99-120 | text that is not JSON fails with "Invalid JSON"; a `FromJson` failure is passed on; otherwise the result is the `FromJson` metadata with its table replaced by the table the entries build |
| OmeTiffDriver.ChunkStorageKeyInjective | src/cpp/ts_driver/ometiff/driver.cc:269-276 | a chunk key determines the pixel offsets and the IFD it was built from |
| OmeTiffDriver.MetadataKeyIsNotAChunkKey | src/cpp/ts_driver/ometiff/driver.cc:130-134 | within one file, the metadata key never equals a chunk key |
| OmeTiffDriver.ResizedShapeLaws | src/cpp/ts_driver/ometiff/driver.cc:197-202 | resizing with every bound implicit changes nothing, and resizing twice keeps, per dimension, the latest explicit size |
| OmeTiffDriver.ChunkKeysIdentifyCells | src/cpp/ts_driver/ometiff/driver.cc:264-278 | with positive chunk sizes and IFDs unique per plane, two grid cells with the same key are the same cell |
| OmeTiffDriver.DataCache.constructor | src/cpp/ts_driver/ometiff/driver.cc:151-156 | the cache holds the metadata and key prefix it was given |
| OmeTiffDriver.DataCache.ValidateMetadataCompatibility | src/cpp/ts_driver/ometiff/driver.cc:162-175 | accepted exactly when the compatibility keys are equal; otherwise the error message names the new key and then the existing one |
| OmeTiffDriver.DataCache.GetChunkGridBounds | src/cpp/ts_driver/ometiff/driver.cc:177-187 | every origin is 0, the shape is the metadata's shape, lower bounds are explicit and upper bounds implicit |
| OmeTiffDriver.DataCache.GetResizedMetadata | src/cpp/ts_driver/ometiff/driver.cc:189-204 | the copy's shape takes each explicit new exclusive max and keeps the rest; every new inclusive min must be 0 or implicit; nothing but the shape changes |
| OmeTiffDriver.DataCache.EncodeChunk | src/cpp/ts_driver/ometiff/driver.cc:258-262 | every chunk encodes, successfully, to an empty payload |
| OmeTiffDriver.DataCache.GetChunkStorageKey | src/cpp/ts_driver/ometiff/driver.cc:264-278 | the key is the prefix, "__TAG__/", then `_` with the y offset, `_` with the x offset and `_` with the IFD of the (z, c, t) plane, looked up in that order |
| OmeTiffDriver.DataCache.GetExternalToInternalTransform | src/cpp/ts_driver/ometiff/driver.cc:280-294 | the transform is the identity on the metadata's shape with implicit upper bounds: the store sees the caller's indices unchanged |
| Decimal.ParseIntText | src/cpp/ts_driver/ometiff/driver.cc:274-276 | the decimal text of an integer is an optional minus followed by digits, and parsing it gives the integer back |
| Decimal.IntTextInjective | src/cpp/ts_driver/ometiff/driver.cc:274-276 | different integers have different decimal texts |

## Left out

- Integer widths: `int64`, `size_t` and `uint16` are modelled as unbounded integers. Overflow of the extent products, of the strides added to y and x, and of `cell * chunk_shape` is not modelled.
- The Python binding declares `Seq` arguments as `size_t`, so pybind refuses negative values. The model accepts any integer there.
- Strides: both `SetIterReadRequests` require positive strides, because with a stride of 0 or less the source's loops never end.
- The reader's loops are split into helper methods (`AppendChannels`, `AppendDepth`, `AppendPlane`, `AppendRow`). Each stands for one loop level of the same method.
- tensorstore itself is not modelled: opening a store, `ClosedInterval`, `IdentityTransform`, the actual reads and writes, and the spec builders. The store's shape, read-chunk shape and element type (the zarr reader: its type name) become constructor parameters. A region read is modelled by its buffer length, dimension bindings and array shape. Pixel values are not modelled, and float32 and float64 are only tags.
- `ChooseBaseDType(...).encoded_dtype`: the encoding is an injective function of the kind (`Utilities.EncodedDType`). Its text (`Utilities.EncodedText`) is taken to be the NumPy type string of a little-endian host ("|u1", "<u2", ..., "<f8"). The OME-TIFF reader's uint16 dispatch depends only on each text starting with a byte-order mark, which no type name does.
- PyInterface.GetImageData: the success condition is that of the reshape. A range outside the store's domain makes tensorstore's `ClosedInterval` or `Read` fail, and the model has no domain check.
- PyInterface.GetIteratorRequestedTileData: likewise, a tile outside the store's domain fails inside tensorstore, and the model does not check the domain.
- `ElementKinds.DispatchKind`: each reader's `GetImageData` switch has a default arm that falls off the end without returning a value. The model therefore requires the code to be one of the ten. Reader validity guarantees this, because it is established by `GetDataTypeCode`.
- `OmeTiffMetadata::FromJson`, `GetCompatibilityKey`, `GetIfdIndex`, `DecodeChunk` and `ValidateMetadata` are declared in `metadata.h`, which is not part of this model.
  - The JSON parse result and `FromJson`'s result are inputs (`OmeTiffDriver.Json`).
  - The compatibility key is a metadata field.
  - `GetIfdIndex` is a map lookup that requires the plane to be in the table.
- OmeTiffDriver.ParseEncodedMetadata: the conversion of a `tiffData` key to an integer (`std::stoi`) and of a value to a triplet are taken as given. The entries come already converted, in the JSON object's iteration order.
- `MetadataCache::EncodeMetadata`, `DecodeChunk`, `GetChunkGridSpecification` and `GetBoundSpecData` (JSON and array marshalling), plus the cache, concurrency and context settings.
- `src/cpp/writer/tswriter.cpp` (every arm calls `tensorstore::Write`), `GetOmeXml` (libtiff file I/O), `GetUTCString` (the wall clock), pybind capsule handling, the Python wrapper modules and `setup.py`.
- `__iter__` in `interface.cpp` has no member of its own. It yields the reader's stored `iterRequestList` in order, and that list is the `Plan` the readers' `SetIterReadRequests` proves.
- The getters of both readers (`GetImageHeight` and the others) are the reader's fields. The zarr reader's tile fields are never set by its constructor and are modelled as absent. `GetTileDepth` is not modelled.
- `send_iterator_read_requests` passes (tile_height, tile_width) where the reader expects (tile_width, tile_height). The swap is recorded in `PyInterface.SendIteratorReadRequests` and has no effect, because the planner does not use either value.
- TsReaderCpp.DimensionsCoverStore: proved only when the axis string is canonical for the rank or has the wrong length. For other strings the letters can resolve T, C or Z onto the Y or X dimension, and the product then counts a dimension twice.
- The header declarations in `tsreader.h`, `utilities.h` and `reader/utilities.h` come from other revisions. They are used for field names only.

## Findings

| source | as written | input that shows it | evidently intended | confidence | as-written member | corrected member |
|---|---|---|---|---|---|---|
| src/cpp/utilities/utilities.cpp:65-67 | the arm for code 8 (uint64) returns the uint16 encoded dtype | the type name "uint64": `GetDataTypeCode` gives 8, which is then encoded as uint16 | code 8 is encoded as uint64, so that name, code and encoding round-trip for all ten kinds | high (not executed) | Utilities.EncodedRoundTripAsWritten | Utilities.EncodedRoundTripCorrected |
| src/cpp/reader/ometiff.cpp:37-38 | the type code is computed from the encoded dtype text (`ChooseBaseDType(...).encoded_dtype`), which `GetDataTypeCode` does not know | a float32 store: its text "<f4" gives code 2, so it is read as uint16 | compute the code from the store's type name, as `tsreader.cpp:87-88` does, so that each store is read as its own element type | medium (not executed) | OmeTiffReaderCpp.EncodedDTypeReadsAsUint16 | OmeTiffReaderCpp.TypeNameReadsStoreKind |
| src/cpp/reader/ometiff.cpp:130,136 | the row and column scans run while `y <= height` and `x <= width` | height 8, row stride 4: the bands are [0,3], [4,7] and the empty [8,7], so an empty tile is requested | scan while `y < height`, as `tsreader.cpp` does, so that the bands partition the image | medium (not executed) | TilePlanner.InclusiveEightByFourScenario | TilePlanner.ExclusiveBandsPartition |
