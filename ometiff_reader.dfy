/**
 * src/cpp/reader/ometiff.cpp: the OME-TIFF reader the Python binding exposes. The
 * store is always read as TCZYX. `GetImageData` sizes a buffer, binds the five
 * requested ranges to dimensions 0 to 4 and dispatches on the type code;
 * `SetIterReadRequests` plans the iterator's tile reads with the inclusive bound
 * `y <= height`.
 *
 * Opening the store is I/O: its shape, read-chunk shape and element type are
 * constructor parameters here.
 */
module OmeTiffReaderCpp {

  import opened Arith
  import opened ElementKinds
  import opened Region
  import opened TilePlanner
  import opened ReaderSequence
  import ReaderUtilities
  import Utilities

  class OmeTiffReader {
    const filename: string
    const imageHeight: nat
    const imageWidth: nat
    const imageDepth: nat
    const numChannels: nat
    const numTsteps: nat
    const tileHeight: nat
    const tileWidth: nat
    /** The element type of the store (`source.dtype()`). */
    ghost const storeKind: ElementKind
    /** The encoded data type of the store, as tensorstore's `ChooseBaseDType` writes it. */
    const dataType: string
    const dataTypeCode: int
    /** (t, c, z, y_min, y_max, x_min, x_max) of each tile the iterator reads. */
    var iterRequestList: seq<Request>

    /** The type code is the one the reader's `GetDataTypeCode` gives for the data type. */
    predicate Valid()
    {
      dataTypeCode == ReaderUtilities.GetDataTypeCode(dataType)
    }

    /** The data type is the encoded dtype text of the store's element type. */
    ghost predicate EncodedFromStore()
    {
      dataType == Utilities.EncodedText(Utilities.BaseDType(storeKind))
    }

    /**
     * Reads the dimensions as T, C, Z, Y, X from positions 0 to 4 of the store's shape
     * and the tile size from positions 3 and 4 of its read-chunk shape (the source
     * indexes both without a check, so both must have at least five entries). The data
     * type is the encoded dtype text of the store's element type, which is never a type
     * name, so the type code is 2 (uint16) whatever the element type.
     */
    constructor(fname: string, imageShape: seq<nat>, readChunkShape: seq<nat>, dtype: ElementKind)
      requires |imageShape| >= 5 && |readChunkShape| >= 5
      ensures Valid() && EncodedFromStore()
      ensures filename == fname
      ensures [numTsteps, numChannels, imageDepth, imageHeight, imageWidth] == imageShape[..5]
      ensures tileHeight == readChunkShape[3] && tileWidth == readChunkShape[4]
      ensures storeKind == dtype && dataType == Utilities.EncodedText(Utilities.BaseDType(dtype))
      ensures dataTypeCode == KindCode(U16)
      ensures iterRequestList == []
    {
      filename := fname;
      imageHeight := imageShape[3];
      imageWidth := imageShape[4];
      imageDepth := imageShape[2];
      numChannels := imageShape[1];
      numTsteps := imageShape[0];
      tileHeight := readChunkShape[3];
      tileWidth := readChunkShape[4];
      storeKind := dtype;
      var encodedDType := Utilities.EncodedText(Utilities.BaseDType(dtype));
      dataType := encodedDType;
      dataTypeCode := ReaderUtilities.GetDataTypeCode(encodedDType);
      EncodedDTypeReadsAsUint16(dtype);
      iterRequestList := [];
    }

    /**
     * `GetImageDataTemplated`: the buffer holds the product of the five extents, the
     * ranges are bound to dimensions 0 to 4 in T, C, Z, Y, X order, and the destination
     * array has one axis per binding, of the binding's width, so that it covers the
     * buffer exactly.
     */
    function GetImageDataTemplated(rows: Seq, cols: Seq, layers: Seq, channels: Seq, tsteps: Seq): (r: RegionRead)
      ensures r.bufferLength == Extent(rows) * Extent(cols) * Extent(layers) * Extent(channels) * Extent(tsteps)
      ensures |r.bindings| == 5
      ensures forall k :: 0 <= k < 5 ==> r.bindings[k].dim == k
      ensures r.bindings[0].lo == tsteps.Start() && r.bindings[0].hi == tsteps.Stop()
      ensures r.bindings[1].lo == channels.Start() && r.bindings[1].hi == channels.Stop()
      ensures r.bindings[2].lo == layers.Start() && r.bindings[2].hi == layers.Stop()
      ensures r.bindings[3].lo == rows.Start() && r.bindings[3].hi == rows.Stop()
      ensures r.bindings[4].lo == cols.Start() && r.bindings[4].hi == cols.Stop()
      ensures r.arrayShape == [Extent(tsteps), Extent(channels), Extent(layers), Extent(rows), Extent(cols)]
      ensures ShapeFollowsBindings(r)
      ensures Product(r.arrayShape) == r.bufferLength
    {
      var dataHeight := rows.Stop() - rows.Start() + 1;
      var dataWidth := cols.Stop() - cols.Start() + 1;
      var dataDepth := layers.Stop() - layers.Start() + 1;
      var dataNumChannels := channels.Stop() - channels.Start() + 1;
      var dataTsteps := tsteps.Stop() - tsteps.Start() + 1;
      var shape := [dataTsteps, dataNumChannels, dataDepth, dataHeight, dataWidth];
      ProductOfShape(shape);
      VolumeSplit(dataTsteps, 1, dataTsteps, dataNumChannels, 1, dataNumChannels, dataDepth, 1, dataDepth,
                  dataHeight, dataWidth);
      RegionRead(dataHeight * dataWidth * dataDepth * dataNumChannels * dataTsteps,
                 [Binding(0, tsteps.Start(), tsteps.Stop()), Binding(1, channels.Start(), channels.Stop()),
                  Binding(2, layers.Start(), layers.Stop()), Binding(3, rows.Start(), rows.Stop()),
                  Binding(4, cols.Start(), cols.Stop())],
                 shape)
    }

    /**
     * `GetImageData`: dispatches on the type code to the element type it stands for and
     * reads a buffer of that type; the depth, channel and time ranges default to the
     * single index 0. A data type that is not one of the ten type names is read as uint16,
     * and the encoded dtype text never is one: every store is read as uint16, and as its
     * own element type only when that is uint16.
     */
    function GetImageData(rows: Seq, cols: Seq, layers: Seq := Seq(0, 0), channels: Seq := Seq(0, 0),
                          tsteps: Seq := Seq(0, 0)): (data: ImageData)
      requires Valid()
      ensures KindCode(data.kind) == dataTypeCode
      ensures forall k :: dataType == TypeName(k) ==> data.kind == k
      ensures (forall k :: dataType != TypeName(k)) ==> data.kind == U16
      ensures EncodedFromStore() ==> data.kind == U16
      ensures data.length == Extent(rows) * Extent(cols) * Extent(layers) * Extent(channels) * Extent(tsteps)
    {
      KindCodes();
      EncodedDTypeReadsAsUint16(storeKind);
      ImageData(DispatchKind(dataTypeCode), GetImageDataTemplated(rows, cols, layers, channels, tsteps).bufferLength)
    }

    /** A store is read as its own element type exactly when that type is uint16. */
    lemma ReadsOwnKindOnlyForUint16(rows: Seq, cols: Seq, layers: Seq, channels: Seq, tsteps: Seq)
      requires Valid() && EncodedFromStore()
      ensures GetImageData(rows, cols, layers, channels, tsteps).kind == storeKind <==> storeKind == U16
    {
    }

    /** With the default depth, channel and time ranges, one plane of rows x columns is read. */
    lemma DefaultRangesReadOnePlane(rows: Seq, cols: Seq)
      requires Valid()
      ensures GetImageData(rows, cols).length == Extent(rows) * Extent(cols)
      ensures GetImageDataTemplated(rows, cols, Seq(0, 0), Seq(0, 0), Seq(0, 0)).arrayShape == [1, 1, 1, Extent(rows), Extent(cols)]
    {
      DefaultRangesShape(rows, cols);
    }

    /** The default ranges select one index each, so the destination array is one plane. */
    lemma DefaultRangesShape(rows: Seq, cols: Seq)
      ensures GetImageDataTemplated(rows, cols, Seq(0, 0), Seq(0, 0), Seq(0, 0)).bufferLength == Extent(rows) * Extent(cols)
      ensures GetImageDataTemplated(rows, cols, Seq(0, 0), Seq(0, 0), Seq(0, 0)).arrayShape == [1, 1, 1, Extent(rows), Extent(cols)]
    {
      assert Extent(Seq(0, 0)) == 1;
    }

    /**
     * `SetIterReadRequests`: replaces the request list with the tiles of every
     * (t, c, z) plane, row bands of `rowStride` rows scanned while `y <= height`, each
     * split into column bands scanned while `x <= width`, the last band clipped to the
     * image. The tile sizes are accepted and not used. The strides must be positive,
     * or the loops would not end.
     */
    method SetIterReadRequests(tileWidth: int, tileHeight: int, rowStride: int, colStride: int)
      requires rowStride >= 1 && colStride >= 1
      modifies this`iterRequestList
      ensures iterRequestList == Plan(numTsteps, numChannels, imageDepth, imageHeight, imageWidth,
                                      rowStride, colStride, Inclusive)
    {
      ghost var ybs := Bands(imageHeight, rowStride, Inclusive);
      ghost var xbs := Bands(imageWidth, colStride, Inclusive);
      ghost var whole := TimePlan(0, numTsteps, numChannels, imageDepth, ybs, xbs);
      iterRequestList := [];
      var t := 0;
      while t < numTsteps
        invariant t <= numTsteps
        invariant iterRequestList + TimePlan(t, numTsteps, numChannels, imageDepth, ybs, xbs) == whole
      {
        assert TimePlan(t, numTsteps, numChannels, imageDepth, ybs, xbs)
               == ChannelPlan(t, 0, numChannels, imageDepth, ybs, xbs)
                  + TimePlan(t + 1, numTsteps, numChannels, imageDepth, ybs, xbs);
        Shift(iterRequestList, ChannelPlan(t, 0, numChannels, imageDepth, ybs, xbs),
              TimePlan(t + 1, numTsteps, numChannels, imageDepth, ybs, xbs), whole);
        AppendChannels(t, rowStride, colStride);
        t := t + 1;
      }
      assert TimePlan(t, numTsteps, numChannels, imageDepth, ybs, xbs) == [];
    }

    /** The channel loop of `SetIterReadRequests` for time step t: appends the tiles of every channel. */
    method AppendChannels(t: nat, rowStride: int, colStride: int)
      requires rowStride >= 1 && colStride >= 1
      modifies this`iterRequestList
      ensures iterRequestList == old(iterRequestList)
              + ChannelPlan(t, 0, numChannels, imageDepth, Bands(imageHeight, rowStride, Inclusive),
                            Bands(imageWidth, colStride, Inclusive))
    {
      ghost var ybs := Bands(imageHeight, rowStride, Inclusive);
      ghost var xbs := Bands(imageWidth, colStride, Inclusive);
      ghost var whole := old(iterRequestList) + ChannelPlan(t, 0, numChannels, imageDepth, ybs, xbs);
      var c := 0;
      while c < numChannels
        invariant c <= numChannels
        invariant iterRequestList + ChannelPlan(t, c, numChannels, imageDepth, ybs, xbs) == whole
      {
        assert ChannelPlan(t, c, numChannels, imageDepth, ybs, xbs)
               == DepthPlan(t, c, 0, imageDepth, ybs, xbs) + ChannelPlan(t, c + 1, numChannels, imageDepth, ybs, xbs);
        Shift(iterRequestList, DepthPlan(t, c, 0, imageDepth, ybs, xbs),
              ChannelPlan(t, c + 1, numChannels, imageDepth, ybs, xbs), whole);
        AppendDepth(t, c, rowStride, colStride);
        c := c + 1;
      }
      assert ChannelPlan(t, c, numChannels, imageDepth, ybs, xbs) == [];
    }

    /** The depth loop of `SetIterReadRequests` for (t, c): appends the tiles of every plane. */
    method AppendDepth(t: nat, c: nat, rowStride: int, colStride: int)
      requires rowStride >= 1 && colStride >= 1
      modifies this`iterRequestList
      ensures iterRequestList == old(iterRequestList)
              + DepthPlan(t, c, 0, imageDepth, Bands(imageHeight, rowStride, Inclusive), Bands(imageWidth, colStride, Inclusive))
    {
      ghost var ybs := Bands(imageHeight, rowStride, Inclusive);
      ghost var xbs := Bands(imageWidth, colStride, Inclusive);
      ghost var whole := old(iterRequestList) + DepthPlan(t, c, 0, imageDepth, ybs, xbs);
      var z := 0;
      while z < imageDepth
        invariant z <= imageDepth
        invariant iterRequestList + DepthPlan(t, c, z, imageDepth, ybs, xbs) == whole
      {
        assert DepthPlan(t, c, z, imageDepth, ybs, xbs)
               == PlanePlan(t, c, z, ybs, xbs) + DepthPlan(t, c, z + 1, imageDepth, ybs, xbs);
        Shift(iterRequestList, PlanePlan(t, c, z, ybs, xbs), DepthPlan(t, c, z + 1, imageDepth, ybs, xbs), whole);
        AppendPlane(t, c, z, rowStride, colStride);
        z := z + 1;
      }
      assert DepthPlan(t, c, z, imageDepth, ybs, xbs) == [];
    }

    /** The row loop of `SetIterReadRequests` for plane (t, c, z): appends the plane's tiles. */
    method AppendPlane(t: nat, c: nat, z: nat, rowStride: int, colStride: int)
      requires rowStride >= 1 && colStride >= 1
      modifies this`iterRequestList
      ensures iterRequestList == old(iterRequestList)
              + PlanePlan(t, c, z, Bands(imageHeight, rowStride, Inclusive), Bands(imageWidth, colStride, Inclusive))
    {
      ghost var xbs := Bands(imageWidth, colStride, Inclusive);
      ghost var whole := iterRequestList + PlanePlan(t, c, z, Bands(imageHeight, rowStride, Inclusive), xbs) + [];
      assert whole == old(iterRequestList) + PlanePlan(t, c, z, Bands(imageHeight, rowStride, Inclusive), xbs);
      var y := 0;
      while y <= imageHeight
        invariant y >= 0
        invariant iterRequestList + PlanePlan(t, c, z, BandsFrom(y, imageHeight, rowStride, Inclusive), xbs) + [] == whole
        decreases imageHeight - y + 1
      {
        var yMin := y;
        var yMax := yMin + rowStride - 1;
        yMax := if yMax < imageHeight then yMax else imageHeight - 1;
        PlaneStep(iterRequestList, t, c, z, y, imageHeight, rowStride, Inclusive, xbs, [], whole);
        AppendRow(t, c, z, yMin, yMax, colStride);
        y := y + rowStride;
      }
      assert BandsFrom(y, imageHeight, rowStride, Inclusive) == [];
      assert PlanePlan(t, c, z, [], xbs) == [];
      assert iterRequestList == iterRequestList + [] + [];
    }

    /** The column loop of `SetIterReadRequests` for the row band [yMin, yMax]: appends its tiles. */
    method AppendRow(t: nat, c: nat, z: nat, yMin: int, yMax: int, colStride: int)
      requires colStride >= 1
      modifies this`iterRequestList
      ensures iterRequestList == old(iterRequestList)
              + RowPlan(t, c, z, Band(yMin, yMax), Bands(imageWidth, colStride, Inclusive))
    {
      ghost var whole := iterRequestList + RowPlan(t, c, z, Band(yMin, yMax), Bands(imageWidth, colStride, Inclusive)) + [];
      assert whole == old(iterRequestList) + RowPlan(t, c, z, Band(yMin, yMax), Bands(imageWidth, colStride, Inclusive));
      var x := 0;
      while x <= imageWidth
        invariant x >= 0
        invariant iterRequestList + RowPlan(t, c, z, Band(yMin, yMax), BandsFrom(x, imageWidth, colStride, Inclusive))
                  + [] == whole
        decreases imageWidth - x + 1
      {
        var xMin := x;
        var xMax := xMin + colStride - 1;
        xMax := if xMax < imageWidth then xMax else imageWidth - 1;
        RowStep(iterRequestList, t, c, z, Band(yMin, yMax), x, imageWidth, colStride, Inclusive, [], whole);
        iterRequestList := iterRequestList + [Request(t, c, z, yMin, yMax, xMin, xMax)];
        x := x + colStride;
      }
      assert BandsFrom(x, imageWidth, colStride, Inclusive) == [];
      assert RowPlan(t, c, z, Band(yMin, yMax), []) == [];
      assert iterRequestList == iterRequestList + [] + [];
    }
  }

  /**
   * As written, the type code comes from the encoded dtype text, which
   * `GetDataTypeCode` does not know: every element type gets code 2 and is read as
   * uint16; a float32 store, for one, is read as uint16.
   */
  lemma EncodedDTypeReadsAsUint16(k: ElementKind)
    ensures ReaderUtilities.GetDataTypeCode(Utilities.EncodedText(Utilities.BaseDType(k))) == KindCode(U16)
    ensures DispatchKind(ReaderUtilities.GetDataTypeCode(Utilities.EncodedText(Utilities.BaseDType(k)))) == U16
    ensures DispatchKind(ReaderUtilities.GetDataTypeCode(Utilities.EncodedText(Utilities.BaseDType(F32)))) != F32
  {
    Utilities.EncodedTextLaws();
    KindCodes();
  }

  /**
   * Taking the code from the store's type name instead, as the zarr reader does,
   * dispatches every store to its own element type.
   */
  lemma TypeNameReadsStoreKind(k: ElementKind)
    ensures DispatchKind(ReaderUtilities.GetDataTypeCode(TypeName(k))) == k
  {
    KindCodes();
  }
}
