/**
 * src/cpp/reader/tsreader.cpp: the generic reader over an OME-TIFF or OME-Zarr
 * store. The constructor derives the image dimensions from the store's shape (and,
 * for a zarr store whose rank is not 5, from its axis string); `GetImageData` sizes
 * a buffer and binds the requested ranges to store dimensions; `SetIterReadRequests`
 * plans the tile reads of the iterator with the exclusive bound `y < height`.
 *
 * Opening the store is I/O: its shape, read-chunk shape and data type name are
 * constructor parameters here.
 */
module TsReaderCpp {

  import opened Wrappers
  import opened Arith
  import opened ElementKinds
  import opened Region
  import opened TilePlanner
  import Sequence
  import Utilities

  /** `enum class FileType {OmeTiff, OmeZarrV2, OmeZarrV3}` */
  datatype FileType = OmeTiff | OmeZarrV2 | OmeZarrV3

  /** Height, width, depth, channel count, time-step count and the (t, c, z) axis positions. */
  datatype Dimensions = Dimensions(height: nat, width: nat, depth: nat, channels: nat, tsteps: nat,
                                   axes: Utilities.AxisIndices)

  /** The size of the dimension at `index`, or 1 for an axis the store does not have. */
  function CountAt(shape: seq<nat>, index: Option<nat>): nat
  {
    if index.Some? && index.value < |shape| then shape[index.value] else 1
  }

  /**
   * What the constructor derives from the store's shape: an OME-TIFF store and a rank-5
   * zarr store are read as TCZYX; any other zarr store has Y and X as its last two
   * dimensions and T, C, Z where its axis string (or the rank-based guess) puts them.
   */
  function ShapeDimensions(ft: FileType, shape: seq<nat>, axesList: string): Dimensions
    requires |shape| >= 2
    requires ft == OmeTiff ==> |shape| == 5
  {
    if ft == OmeTiff || |shape| == 5 then
      Dimensions(shape[3], shape[4], shape[2], shape[1], shape[0],
                 Utilities.AxisIndices(Some(0), Some(1), Some(2)))
    else
      var axes := Utilities.ResolveAxes(axesList, |shape|);
      Dimensions(shape[|shape| - 2], shape[|shape| - 1], CountAt(shape, axes.z),
                 CountAt(shape, axes.c), CountAt(shape, axes.t), axes)
  }

  /** Rows and columns are always the last two dimensions of the store. */
  lemma RowsAndColumnsAreLast(ft: FileType, shape: seq<nat>, axesList: string)
    requires |shape| >= 2
    requires ft == OmeTiff ==> |shape| == 5
    ensures ShapeDimensions(ft, shape, axesList).height == shape[|shape| - 2]
    ensures ShapeDimensions(ft, shape, axesList).width == shape[|shape| - 1]
  {
  }

  /** "TCZYX" with its first 5 - rank letters dropped: the canonical axes of a store of that rank. */
  function CanonicalSuffix(rank: nat): string
    requires 2 <= rank <= 5
  {
    "TCZYX"[5 - rank..]
  }

  /** For ranks 2 to 4 the canonical axis string and the rank-based guess locate T, C and Z alike. */
  lemma RankAxes(rank: nat, axesList: string)
    requires 2 <= rank < 5
    requires axesList == CanonicalSuffix(rank) || |axesList| != rank
    ensures Utilities.ResolveAxes(axesList, rank)
         == if rank == 4 then Utilities.AxisIndices(None, Some(0), Some(1))
            else if rank == 3 then Utilities.AxisIndices(None, None, Some(0))
            else Utilities.AxisIndices(None, None, None)
  {
    Utilities.CanonicalAxes();
    Utilities.GuessMatchesCanonical(axesList);
    assert CanonicalSuffix(4) == "CZYX" && CanonicalSuffix(3) == "ZYX" && CanonicalSuffix(2) == "YX";
  }

  /**
   * The dimensions the reader derives multiply out to the number of voxels in the
   * store whenever the axis string is the canonical one for the rank, or is of the
   * wrong length so that the rank-based guess applies (ranks 2 to 5).
   */
  lemma {:induction false} DimensionsCoverStore(ft: FileType, shape: seq<nat>, axesList: string)
    requires 2 <= |shape| <= 5
    requires ft == OmeTiff ==> |shape| == 5
    requires |shape| != 5 ==> axesList == CanonicalSuffix(|shape|) || |axesList| != |shape|
    ensures var d := ShapeDimensions(ft, shape, axesList);
      d.tsteps * d.channels * d.depth * d.height * d.width == Product(shape)
  {
    var d := ShapeDimensions(ft, shape, axesList);
    var n := |shape|;
    ProductOfShape(shape);
    if n == 5 {
      assert d == Dimensions(shape[3], shape[4], shape[2], shape[1], shape[0], d.axes);
      Reassociate(shape[0], shape[1], shape[2], shape[3], shape[4]);
    } else {
      RankAxes(n, axesList);
      if n == 4 {
        assert d == Dimensions(shape[2], shape[3], shape[1], shape[0], 1, d.axes);
        Reassociate(1, shape[0], shape[1], shape[2], shape[3]);
      } else if n == 3 {
        assert d == Dimensions(shape[1], shape[2], shape[0], 1, 1, d.axes);
        Reassociate(1, 1, shape[0], shape[1], shape[2]);
      } else {
        assert d == Dimensions(shape[0], shape[1], 1, 1, 1, d.axes);
        Reassociate(1, 1, 1, shape[0], shape[1]);
      }
    }
  }

  /**
   * Number of indices a range selects, `Stop() - Start() + 1`. The zarr reader takes
   * the ranges of src/cpp/utilities/sequence.h, a class distinct from the OME-TIFF
   * reader's `ReaderSequence.Seq`, so the extent is stated once per range type.
   */
  function Extent(s: Sequence.Seq): int
  {
    s.Stop() - s.Start() + 1
  }

  /** The binding of a range to an axis the store has; none for an absent axis. */
  function BindIfPresent(index: Option<nat>, s: Sequence.Seq): seq<Binding>
  {
    if index.Some? then [Binding(index.value, s.Start(), s.Stop())] else []
  }

  /** The extent of a range if its axis is kept in the destination array, else 1. */
  function KeptFactor(index: Option<nat>, s: Sequence.Seq): int
  {
    if index.Some? then Extent(s) else 1
  }

  /** The extent of a range if its axis is absent from the destination array, else 1. */
  function DroppedFactor(index: Option<nat>, s: Sequence.Seq): int
  {
    if index.Some? then 1 else Extent(s)
  }

  /** The destination axis a range contributes: its extent if its axis is present, none otherwise. */
  function KeptShape(index: Option<nat>, s: Sequence.Seq): seq<int>
  {
    if index.Some? then [Extent(s)] else []
  }

  lemma KeptProduct(index: Option<nat>, s: Sequence.Seq)
    ensures Product(KeptShape(index, s)) == KeptFactor(index, s)
    ensures KeptFactor(index, s) * DroppedFactor(index, s) == Extent(s)
  {
    if index.Some? {
      assert KeptShape(index, s)[1..] == [];
    }
  }

  lemma BindingsFollow(index: Option<nat>, s: Sequence.Seq)
    ensures Follows(BindIfPresent(index, s), KeptShape(index, s))
  {
  }

  /** The destination array's volume times the extents of the dropped axes is the buffer length. */
  lemma DestinationVolume(tIndex: Option<nat>, cIndex: Option<nat>, zIndex: Option<nat>, r: RegionRead,
                          rows: Sequence.Seq, cols: Sequence.Seq, layers: Sequence.Seq,
                          channels: Sequence.Seq, tsteps: Sequence.Seq)
    requires r.bufferLength == Extent(rows) * Extent(cols) * Extent(layers) * Extent(channels) * Extent(tsteps)
    requires r.arrayShape == KeptShape(tIndex, tsteps) + KeptShape(cIndex, channels) + KeptShape(zIndex, layers)
                             + [Extent(rows), Extent(cols)]
    ensures Product(r.arrayShape) * (DroppedFactor(tIndex, tsteps) * (DroppedFactor(cIndex, channels)
                                     * DroppedFactor(zIndex, layers))) == r.bufferLength
  {
    var kt, kc, kz := KeptShape(tIndex, tsteps), KeptShape(cIndex, channels), KeptShape(zIndex, layers);
    var yx := [Extent(rows), Extent(cols)];
    var keptT, keptC, keptZ := KeptFactor(tIndex, tsteps), KeptFactor(cIndex, channels), KeptFactor(zIndex, layers);
    var dropT, dropC, dropZ := DroppedFactor(tIndex, tsteps), DroppedFactor(cIndex, channels), DroppedFactor(zIndex, layers);
    var h, w := Extent(rows), Extent(cols);
    assert r.arrayShape == kt + (kc + (kz + yx));
    assert yx[1..][1..] == [];
    assert Product(yx[1..]) == w * Product(yx[1..][1..]);
    assert Product(yx) == h * w;
    KeptProduct(tIndex, tsteps);
    KeptProduct(cIndex, channels);
    KeptProduct(zIndex, layers);
    ProductAppend(kz, yx);
    assert Product(kz + yx) == keptZ * (h * w);
    ProductAppend(kc, kz + yx);
    assert Product(kc + (kz + yx)) == keptC * (keptZ * (h * w));
    ProductAppend(kt, kc + (kz + yx));
    assert Product(r.arrayShape) == keptT * (keptC * (keptZ * (h * w)));
    VolumeSplit(keptT, dropT, Extent(tsteps), keptC, dropC, Extent(channels), keptZ, dropZ, Extent(layers), h, w);
  }

  class TsReader {
    const filename: string
    const fileType: FileType
    /** Rank of the store, `source.domain().shape().size()`. */
    const rank: nat
    const imageHeight: nat
    const imageWidth: nat
    const imageDepth: nat
    const numChannels: nat
    const numTsteps: nat
    /** Set from the read-chunk shape for OME-TIFF only; left unset for zarr. */
    const tileHeight: Option<nat>
    const tileWidth: Option<nat>
    const tIndex: Option<nat>
    const cIndex: Option<nat>
    const zIndex: Option<nat>
    const dataType: string
    const dataTypeCode: int
    /** (t, c, z, y_min, y_max, x_min, x_max) of each tile the iterator reads. */
    var iterRequestList: seq<Request>

    /**
     * What the constructor establishes and the other members rely on: an OME-TIFF
     * store is rank 5 and read as TCZYX, the axis positions are dimensions of the
     * store, and the type code is the one `GetDataTypeCode` gives for the type name.
     */
    predicate Valid()
    {
      && rank >= 2
      && (fileType == OmeTiff ==> rank == 5 && tIndex == Some(0) && cIndex == Some(1) && zIndex == Some(2))
      && (tIndex.Some? ==> tIndex.value < rank)
      && (cIndex.Some? ==> cIndex.value < rank)
      && (zIndex.Some? ==> zIndex.value < rank)
      && dataTypeCode == Utilities.GetDataTypeCode(dataType)
    }

    /**
     * The source asserts a rank-5 image and read-chunk shape for OME-TIFF, a rank of at
     * least 2 for zarr, and at most five letters in an axis string it has to parse.
     */
    constructor(fname: string, ft: FileType, imageShape: seq<nat>, readChunkShape: seq<nat>,
                dtypeName: string, axesList: string := "")
      requires ft == OmeTiff ==> |imageShape| == 5 && |readChunkShape| == 5
      requires |imageShape| >= 2
      requires ft != OmeTiff && |imageShape| != 5 ==> |axesList| <= 5
      ensures Valid()
      ensures filename == fname && fileType == ft && rank == |imageShape|
      ensures Dimensions(imageHeight, imageWidth, imageDepth, numChannels, numTsteps,
                         Utilities.AxisIndices(tIndex, cIndex, zIndex))
              == ShapeDimensions(ft, imageShape, axesList)
      ensures tileHeight == (if ft == OmeTiff then Some(readChunkShape[3]) else None)
      ensures tileWidth == (if ft == OmeTiff then Some(readChunkShape[4]) else None)
      ensures dataType == dtypeName
      ensures iterRequestList == []
    {
      filename := fname;
      fileType := ft;
      rank := |imageShape|;
      if ft == OmeTiff {
        imageHeight := imageShape[3];
        imageWidth := imageShape[4];
        imageDepth := imageShape[2];
        numChannels := imageShape[1];
        numTsteps := imageShape[0];
        tileHeight := Some(readChunkShape[3]);
        tileWidth := Some(readChunkShape[4]);
        tIndex, cIndex, zIndex := Some(0), Some(1), Some(2);
      } else {
        tileHeight, tileWidth := None, None;
        if |imageShape| == 5 {
          imageHeight := imageShape[3];
          imageWidth := imageShape[4];
          imageDepth := imageShape[2];
          numChannels := imageShape[1];
          numTsteps := imageShape[0];
          tIndex, cIndex, zIndex := Some(0), Some(1), Some(2);
        } else {
          var t, c, z := Utilities.ParseMultiscaleMetadata(axesList, |imageShape|);
          Utilities.ResolvedAxesWellFormed(axesList, |imageShape|);
          tIndex, cIndex, zIndex := t, c, z;
          imageHeight := imageShape[|imageShape| - 2];
          imageWidth := imageShape[|imageShape| - 1];
          if t.Some? {
            numTsteps := imageShape[t.value];
          } else {
            numTsteps := 1;
          }
          if c.Some? {
            numChannels := imageShape[c.value];
          } else {
            numChannels := 1;
          }
          if z.Some? {
            imageDepth := imageShape[z.value];
          } else {
            imageDepth := 1;
          }
        }
      }
      dataType := dtypeName;
      dataTypeCode := Utilities.GetDataTypeCode(dtypeName);
      iterRequestList := [];
    }

    /**
     * `GetImageDataTemplated`: the buffer holds the product of the five extents; every
     * requested range is bound to the store dimension of its axis (T, C, Z only when
     * the store has them; Y and X to the last two dimensions) and the destination array
     * has one axis per binding, of the binding's width. When the store lacks an axis,
     * the extent of its range is dropped from the array but stays in the buffer.
     */
    method GetImageDataTemplated(rows: Sequence.Seq, cols: Sequence.Seq, layers: Sequence.Seq,
                                 channels: Sequence.Seq, tsteps: Sequence.Seq) returns (r: RegionRead)
      requires Valid()
      ensures r.bufferLength == Extent(rows) * Extent(cols) * Extent(layers) * Extent(channels) * Extent(tsteps)
      ensures r.bindings == BindIfPresent(tIndex, tsteps) + BindIfPresent(cIndex, channels)
                            + BindIfPresent(zIndex, layers)
                            + [Binding(rank - 2, rows.Start(), rows.Stop()), Binding(rank - 1, cols.Start(), cols.Stop())]
      ensures ShapeFollowsBindings(r)
      ensures Product(r.arrayShape) * (DroppedFactor(tIndex, tsteps) * (DroppedFactor(cIndex, channels)
                                       * DroppedFactor(zIndex, layers))) == r.bufferLength
      ensures fileType == OmeTiff ==> r.arrayShape == [Extent(tsteps), Extent(channels), Extent(layers), Extent(rows), Extent(cols)]
    {
      var dataHeight := rows.Stop() - rows.Start() + 1;
      var dataWidth := cols.Stop() - cols.Start() + 1;
      var dataDepth := layers.Stop() - layers.Start() + 1;
      var dataNumChannels := channels.Stop() - channels.Start() + 1;
      var dataTsteps := tsteps.Stop() - tsteps.Start() + 1;
      var bufferLength := dataHeight * dataWidth * dataDepth * dataNumChannels * dataTsteps;
      var bindings: seq<Binding>;
      var arrayShape: seq<int>;
      ghost var bt, bc, bz := BindIfPresent(tIndex, tsteps), BindIfPresent(cIndex, channels), BindIfPresent(zIndex, layers);
      ghost var st, sc, sz := KeptShape(tIndex, tsteps), KeptShape(cIndex, channels), KeptShape(zIndex, layers);
      ghost var byx := [Binding(rank - 2, rows.Start(), rows.Stop()), Binding(rank - 1, cols.Start(), cols.Stop())];
      ghost var syx := [Extent(rows), Extent(cols)];
      BindingsFollow(tIndex, tsteps);
      BindingsFollow(cIndex, channels);
      BindingsFollow(zIndex, layers);
      assert Follows(byx, syx);
      if fileType == OmeTiff {
        bindings := [Binding(0, tsteps.Start(), tsteps.Stop()), Binding(1, channels.Start(), channels.Stop()),
                     Binding(2, layers.Start(), layers.Stop()), Binding(3, rows.Start(), rows.Stop()),
                     Binding(4, cols.Start(), cols.Stop())];
        arrayShape := [dataTsteps, dataNumChannels, dataDepth, dataHeight, dataWidth];
        assert bindings == bt + bc + bz + byx;
        assert arrayShape == st + sc + sz + syx;
      } else {
        bindings, arrayShape := [], [];
        var xIndex := rank - 1;
        var yIndex := rank - 2;
        if tIndex.Some? {
          bindings := bindings + [Binding(tIndex.value, tsteps.Start(), tsteps.Stop())];
          arrayShape := arrayShape + [dataTsteps];
        }
        assert bindings == bt && arrayShape == st;
        if cIndex.Some? {
          bindings := bindings + [Binding(cIndex.value, channels.Start(), channels.Stop())];
          arrayShape := arrayShape + [dataNumChannels];
        }
        assert bindings == bt + bc && arrayShape == st + sc;
        if zIndex.Some? {
          bindings := bindings + [Binding(zIndex.value, layers.Start(), layers.Stop())];
          arrayShape := arrayShape + [dataDepth];
        }
        assert bindings == bt + bc + bz && arrayShape == st + sc + sz;
        bindings := bindings + [Binding(yIndex, rows.Start(), rows.Stop()), Binding(xIndex, cols.Start(), cols.Stop())];
        arrayShape := arrayShape + [dataHeight, dataWidth];
      }
      FollowsAppend(bt, st, bc, sc);
      FollowsAppend(bt + bc, st + sc, bz, sz);
      FollowsAppend(bt + bc + bz, st + sc + sz, byx, syx);
      r := RegionRead(bufferLength, bindings, arrayShape);
      DestinationVolume(tIndex, cIndex, zIndex, r, rows, cols, layers, channels, tsteps);
    }

    /**
     * `GetImageData`: dispatches on the type code to the element type it stands for
     * and reads a buffer of that type. The element type is the one the store's type
     * name denotes ("double" is read as float64, an unknown name as uint16).
     */
    method GetImageData(rows: Sequence.Seq, cols: Sequence.Seq, layers: Sequence.Seq,
                        channels: Sequence.Seq, tsteps: Sequence.Seq) returns (data: ImageData)
      requires Valid()
      ensures KindCode(data.kind) == dataTypeCode
      ensures forall k :: dataType == TypeName(k) ==> data.kind == k
      ensures dataType == "double" ==> data.kind == F64
      ensures (forall k :: dataType != TypeName(k)) && dataType != "double" ==> data.kind == U16
      ensures data.length == Extent(rows) * Extent(cols) * Extent(layers) * Extent(channels) * Extent(tsteps)
    {
      KindCodes();
      var region := GetImageDataTemplated(rows, cols, layers, channels, tsteps);
      data := ImageData(DispatchKind(dataTypeCode), region.bufferLength);
    }

    /**
     * `GetImageData` with the depth, channel and time ranges left at their default, the
     * single index 0 (`Seq(0,0)`): one rows x columns plane is read.
     */
    method GetImageDataDefaultRanges(rows: Sequence.Seq, cols: Sequence.Seq) returns (data: ImageData)
      requires Valid()
      ensures KindCode(data.kind) == dataTypeCode
      ensures forall k :: dataType == TypeName(k) ==> data.kind == k
      ensures data.length == Extent(rows) * Extent(cols)
    {
      var layers := new Sequence.Seq(0, 0);
      var channels := new Sequence.Seq(0, 0);
      var tsteps := new Sequence.Seq(0, 0);
      data := GetImageData(rows, cols, layers, channels, tsteps);
    }

    /** The depth loop of `SetIterReadRequests` for (t, c): appends the tiles of every plane. */
    method AppendDepth(t: nat, c: nat, rowStride: int, colStride: int)
      requires rowStride >= 1 && colStride >= 1
      modifies this`iterRequestList
      ensures iterRequestList == old(iterRequestList)
              + DepthPlan(t, c, 0, imageDepth, Bands(imageHeight, rowStride, Exclusive), Bands(imageWidth, colStride, Exclusive))
    {
      ghost var ybs := Bands(imageHeight, rowStride, Exclusive);
      ghost var xbs := Bands(imageWidth, colStride, Exclusive);
      ghost var whole := old(iterRequestList) + DepthPlan(t, c, 0, imageDepth, ybs, xbs);
      var z := 0;
      while z < imageDepth
        invariant z <= imageDepth
        invariant iterRequestList + DepthPlan(t, c, z, imageDepth, ybs, xbs) == whole
      {
        assert DepthPlan(t, c, z, imageDepth, ybs, xbs)
               == PlanePlan(t, c, z, ybs, xbs) + DepthPlan(t, c, z + 1, imageDepth, ybs, xbs);
        Shift(iterRequestList, PlanePlan(t, c, z, ybs, xbs), DepthPlan(t, c, z + 1, imageDepth, ybs, xbs), whole);
        AppendPlane(t, c, z, rowStride, colStride);
        z := z + 1;
      }
      assert DepthPlan(t, c, z, imageDepth, ybs, xbs) == [];
    }

    /** The row loop of `SetIterReadRequests` for plane (t, c, z): appends the plane's tiles. */
    method AppendPlane(t: nat, c: nat, z: nat, rowStride: int, colStride: int)
      requires rowStride >= 1 && colStride >= 1
      modifies this`iterRequestList
      ensures iterRequestList == old(iterRequestList)
              + PlanePlan(t, c, z, Bands(imageHeight, rowStride, Exclusive), Bands(imageWidth, colStride, Exclusive))
    {
      ghost var xbs := Bands(imageWidth, colStride, Exclusive);
      ghost var whole := iterRequestList + PlanePlan(t, c, z, Bands(imageHeight, rowStride, Exclusive), xbs) + [];
      assert whole == old(iterRequestList) + PlanePlan(t, c, z, Bands(imageHeight, rowStride, Exclusive), xbs);
      var y := 0;
      while y < imageHeight
        invariant y >= 0
        invariant iterRequestList + PlanePlan(t, c, z, BandsFrom(y, imageHeight, rowStride, Exclusive), xbs) + [] == whole
        decreases imageHeight - y
      {
        var yMin := y;
        var yMax := yMin + rowStride - 1;
        yMax := if yMax < imageHeight then yMax else imageHeight - 1;
        PlaneStep(iterRequestList, t, c, z, y, imageHeight, rowStride, Exclusive, xbs, [], whole);
        AppendRow(t, c, z, yMin, yMax, colStride);
        y := y + rowStride;
      }
      assert BandsFrom(y, imageHeight, rowStride, Exclusive) == [];
      assert PlanePlan(t, c, z, [], xbs) == [];
      assert iterRequestList == iterRequestList + [] + [];
    }

    /** The column loop of `SetIterReadRequests` for the row band [yMin, yMax]: appends its tiles. */
    method AppendRow(t: nat, c: nat, z: nat, yMin: int, yMax: int, colStride: int)
      requires colStride >= 1
      modifies this`iterRequestList
      ensures iterRequestList == old(iterRequestList)
              + RowPlan(t, c, z, Band(yMin, yMax), Bands(imageWidth, colStride, Exclusive))
    {
      ghost var whole := iterRequestList + RowPlan(t, c, z, Band(yMin, yMax), Bands(imageWidth, colStride, Exclusive)) + [];
      assert whole == old(iterRequestList) + RowPlan(t, c, z, Band(yMin, yMax), Bands(imageWidth, colStride, Exclusive));
      var x := 0;
      while x < imageWidth
        invariant x >= 0
        invariant iterRequestList + RowPlan(t, c, z, Band(yMin, yMax), BandsFrom(x, imageWidth, colStride, Exclusive))
                  + [] == whole
        decreases imageWidth - x
      {
        var xMin := x;
        var xMax := xMin + colStride - 1;
        xMax := if xMax < imageWidth then xMax else imageWidth - 1;
        RowStep(iterRequestList, t, c, z, Band(yMin, yMax), x, imageWidth, colStride, Exclusive, [], whole);
        iterRequestList := iterRequestList + [Request(t, c, z, yMin, yMax, xMin, xMax)];
        x := x + colStride;
      }
      assert BandsFrom(x, imageWidth, colStride, Exclusive) == [];
      assert RowPlan(t, c, z, Band(yMin, yMax), []) == [];
      assert iterRequestList == iterRequestList + [] + [];
    }

    /**
     * `SetIterReadRequests`: replaces the request list with the tiles of every
     * (t, c, z) plane, row bands of `rowStride` rows scanned while `y < height`, each
     * split into column bands of `colStride` columns, the last band of each clipped to
     * the image. The tile sizes are accepted and not used. The strides must be
     * positive, or the loops would not end.
     */
    method SetIterReadRequests(tileWidth: int, tileHeight: int, rowStride: int, colStride: int)
      requires rowStride >= 1 && colStride >= 1
      modifies this`iterRequestList
      ensures iterRequestList == Plan(numTsteps, numChannels, imageDepth, imageHeight, imageWidth,
                                      rowStride, colStride, Exclusive)
    {
      ghost var ybs := Bands(imageHeight, rowStride, Exclusive);
      ghost var xbs := Bands(imageWidth, colStride, Exclusive);
      ghost var whole := TimePlan(0, numTsteps, numChannels, imageDepth, ybs, xbs);
      iterRequestList := [];
      var t := 0;
      while t < numTsteps
        invariant t <= numTsteps
        invariant iterRequestList + TimePlan(t, numTsteps, numChannels, imageDepth, ybs, xbs) == whole
      {
        assert TimePlan(t, numTsteps, numChannels, imageDepth, ybs, xbs)
               == ChannelPlan(t, 0, numChannels, imageDepth, ybs, xbs)
                  + TimePlan(t + 1, numTsteps, numChannels, imageDepth, ybs, xbs);
        Shift(iterRequestList, ChannelPlan(t, 0, numChannels, imageDepth, ybs, xbs),
              TimePlan(t + 1, numTsteps, numChannels, imageDepth, ybs, xbs), whole);
        AppendChannels(t, rowStride, colStride);
        t := t + 1;
      }
      assert TimePlan(t, numTsteps, numChannels, imageDepth, ybs, xbs) == [];
    }

    /** The channel loop of `SetIterReadRequests` for time step t: appends the tiles of every channel. */
    method AppendChannels(t: nat, rowStride: int, colStride: int)
      requires rowStride >= 1 && colStride >= 1
      modifies this`iterRequestList
      ensures iterRequestList == old(iterRequestList)
              + ChannelPlan(t, 0, numChannels, imageDepth, Bands(imageHeight, rowStride, Exclusive),
                            Bands(imageWidth, colStride, Exclusive))
    {
      ghost var ybs := Bands(imageHeight, rowStride, Exclusive);
      ghost var xbs := Bands(imageWidth, colStride, Exclusive);
      ghost var whole := old(iterRequestList) + ChannelPlan(t, 0, numChannels, imageDepth, ybs, xbs);
      var c := 0;
      while c < numChannels
        invariant c <= numChannels
        invariant iterRequestList + ChannelPlan(t, c, numChannels, imageDepth, ybs, xbs) == whole
      {
        assert ChannelPlan(t, c, numChannels, imageDepth, ybs, xbs)
               == DepthPlan(t, c, 0, imageDepth, ybs, xbs) + ChannelPlan(t, c + 1, numChannels, imageDepth, ybs, xbs);
        Shift(iterRequestList, DepthPlan(t, c, 0, imageDepth, ybs, xbs),
              ChannelPlan(t, c + 1, numChannels, imageDepth, ybs, xbs), whole);
        AppendDepth(t, c, rowStride, colStride);
        c := c + 1;
      }
      assert ChannelPlan(t, c, numChannels, imageDepth, ybs, xbs) == [];
    }

  }
}
