/**
 * src/cpp/interface/interface.cpp: the Python binding of the OME-TIFF reader. A read
 * returns a five-dimensional NumPy array (T, C, Z, Y, X) laid over the reader's
 * buffer; the iterator's tiles are read one request at a time; the tile coordinate of
 * a position is its index divided by the stride, as C++ divides.
 */
module PyInterface {

  import opened Wrappers
  import opened Arith
  import opened ElementKinds
  import opened TilePlanner
  import opened ReaderSequence
  import opened OmeTiffReaderCpp

  /** A NumPy array: its element type and its shape. */
  datatype PyArray = PyArray(kind: ElementKind, shape: seq<int>)

  function Abs(x: int): nat
  {
    if x < 0 then -x else x
  }

  /**
   * C++ integer division, which truncates toward zero: the remainder is smaller than
   * the divisor in magnitude and has the sign of the dividend. For a non-negative
   * dividend and a positive divisor it is ordinary division.
   */
  function TruncDiv(a: int, b: int): (q: int)
    requires b != 0
    ensures Abs(a - b * q) < Abs(b)
    ensures a - b * q == 0 || (a - b * q < 0 <==> a < 0)
    ensures a >= 0 && b > 0 ==> q == a / b
  {
    var m := Abs(a) / Abs(b);
    var rest := Abs(a) % Abs(b);
    assert Abs(a) == m * Abs(b) + rest;
    if (a < 0) == (b < 0) then
      assert b * m == (if b < 0 then -(m * Abs(b)) else m * Abs(b));
      m
    else
      assert b * -m == (if b < 0 then m * Abs(b) else -(m * Abs(b)));
      -m
  }

  /**
   * `as_pyarray_shared_5d`: wraps the buffer of any of the ten element types in an
   * array and reshapes it to (tsteps, channels, layers, rows, cols). NumPy's reshape
   * succeeds exactly when the sizes are non-negative and hold the buffer's elements.
   */
  function AsPyArrayShared5d(data: ImageData, numRows: int, numCols: int, numLayers: int := 1,
                             numChannels: int := 1, numTsteps: int := 1): (r: Result<PyArray>)
    ensures r.Success? <==> && numTsteps >= 0 && numChannels >= 0 && numLayers >= 0 && numRows >= 0 && numCols >= 0
                            && numTsteps * (numChannels * (numLayers * (numRows * numCols))) == data.length
    ensures r.Success? ==> r.value.kind == data.kind
    ensures r.Success? ==> r.value.shape == [numTsteps, numChannels, numLayers, numRows, numCols]
    ensures r.Success? ==> Product(r.value.shape) == data.length
  {
    var shape := [numTsteps, numChannels, numLayers, numRows, numCols];
    ProductOfShape(shape);
    if (forall k :: 0 <= k < 5 ==> shape[k] >= 0) && Product(shape) == data.length then
      Success(PyArray(data.kind, shape))
    else
      Failure("cannot reshape array")
  }

  /**
   * `get_image_data`: reads the region and shapes it as (T, C, Z, Y, X) from the
   * extents of the five ranges. The reshape succeeds exactly when no range is
   * reversed: the reader's buffer has exactly that many elements. A range outside
   * the store's domain fails inside tensorstore, which the model does not check.
   */
  function GetImageData(reader: OmeTiffReader, rows: Seq, cols: Seq, layers: Seq, channels: Seq,
                        tsteps: Seq): (r: Result<PyArray>)
    requires reader.Valid()
    ensures r.Success? <==> Extent(rows) >= 0 && Extent(cols) >= 0 && Extent(layers) >= 0 && Extent(channels) >= 0
                            && Extent(tsteps) >= 0
    ensures r.Success? ==> r.value.shape == [Extent(tsteps), Extent(channels), Extent(layers), Extent(rows), Extent(cols)]
    ensures r.Success? ==> r.value.kind == reader.GetImageData(rows, cols, layers, channels, tsteps).kind
  {
    var tmp := reader.GetImageData(rows, cols, layers, channels, tsteps);
    var ih := rows.Stop() - rows.Start() + 1;
    var iw := cols.Stop() - cols.Start() + 1;
    var id := layers.Stop() - layers.Start() + 1;
    var nc := channels.Stop() - channels.Start() + 1;
    var nt := tsteps.Stop() - tsteps.Start() + 1;
    Reassociate(nt, nc, id, ih, iw);
    assert nt * nc * id * ih * iw == ih * iw * id * nc * nt;
    AsPyArrayShared5d(tmp, ih, iw, id, nc, nt)
  }

  /**
   * `get_iterator_requested_tile_data`: reads the tile of one iterator request, one
   * time step, channel and layer, as a (1, 1, 1, rows, cols) array; the reshape
   * succeeds exactly when neither band is reversed. As for `get_image_data`, a tile
   * outside the store's domain fails inside tensorstore, which the model does not check.
   */
  function GetIteratorRequestedTileData(reader: OmeTiffReader, tIndex: int, cIndex: int, zIndex: int,
                                        yMin: int, yMax: int, xMin: int, xMax: int): (r: Result<PyArray>)
    requires reader.Valid()
    ensures r.Success? <==> yMax - yMin + 1 >= 0 && xMax - xMin + 1 >= 0
    ensures r.Success? ==> r.value.shape == [1, 1, 1, yMax - yMin + 1, xMax - xMin + 1]
    ensures r.Success? ==> r.value.kind == reader.GetImageData(Seq(yMin, yMax, 1), Seq(xMin, xMax, 1)).kind
  {
    var rows := Seq(yMin, yMax, 1);
    var cols := Seq(xMin, xMax, 1);
    var layers := Seq(zIndex, zIndex, 1);
    var channels := Seq(cIndex, cIndex, 1);
    var tsteps := Seq(tIndex, tIndex, 1);
    GetImageData(reader, rows, cols, layers, channels, tsteps)
  }

  /**
   * `get_tile_coordinate`: the tile row and column of a position, by C++ division,
   * which truncates toward zero for every sign; for a non-negative position and a
   * positive stride that is the tile whose stride-wide interval holds the position.
   */
  function GetTileCoordinate(reader: OmeTiffReader, yStart: int, xStart: int, rowStride: int,
                             colStride: int): (r: (int, int))
    requires rowStride != 0 && colStride != 0
    ensures r == (TruncDiv(yStart, rowStride), TruncDiv(xStart, colStride))
    ensures yStart >= 0 && rowStride > 0 ==> r.0 * rowStride <= yStart < (r.0 + 1) * rowStride
    ensures xStart >= 0 && colStride > 0 ==> r.1 * colStride <= xStart < (r.1 + 1) * colStride
  {
    var rowIndex := TruncDiv(yStart, rowStride);
    var colIndex := TruncDiv(xStart, colStride);
    (rowIndex, colIndex)
  }

  /**
   * For a negative position C++ division truncates toward zero, unlike floor division:
   * position -1 with stride 4 is in tile 0, and -5 in tile -1.
   */
  lemma NegativePositionsTruncate(reader: OmeTiffReader)
    ensures GetTileCoordinate(reader, -1, -5, 4, 4) == (0, -1)
    ensures -1 / 4 == -1
  {
    assert TruncDiv(-1, 4) == 0;
    assert TruncDiv(-5, 4) == -1;
  }

  /**
   * `send_iterator_read_requests`: has the reader plan the iterator's tiles. The
   * binding passes (tile_height, tile_width) where the reader expects (tile_width,
   * tile_height); the reader does not use either.
   */
  method SendIteratorReadRequests(reader: OmeTiffReader, tileHeight: int, tileWidth: int,
                                  rowStride: int, colStride: int)
    requires rowStride >= 1 && colStride >= 1
    modifies reader`iterRequestList
    ensures reader.iterRequestList == Plan(reader.numTsteps, reader.numChannels, reader.imageDepth,
                                           reader.imageHeight, reader.imageWidth, rowStride, colStride, Inclusive)
  {
    reader.SetIterReadRequests(tileHeight, tileWidth, rowStride, colStride);
  }

  /**
   * The bands the OME-TIFF iterator plans are at most a stride wide; a band is empty
   * exactly when the stride divides the extent and the band is the last one, the
   * band [n, n - 1] the inclusive bound adds.
   */
  lemma InclusiveBandWidths(n: nat, s: int, i: nat)
    requires s >= 1 && i < |Bands(n, s, Inclusive)|
    ensures 0 <= Bands(n, s, Inclusive)[i].hi - Bands(n, s, Inclusive)[i].lo + 1 <= s
    ensures Bands(n, s, Inclusive)[i].hi - Bands(n, s, Inclusive)[i].lo + 1 == 0 <==> n % s == 0 && i == n / s
  {
    InclusiveBands(n, s);
    ExclusiveBandsFromTile(0, n, s);
    var E := Bands(n, s, Exclusive);
    if i < |E| {
      assert Bands(n, s, Inclusive)[i] == E[i];
    }
  }

  /** The tile coordinate of a band's first index is the band's position in the plan. */
  lemma TileCoordinateOfBand(n: nat, s: int, bound: ScanBound, i: nat)
    requires s >= 1 && i < |Bands(n, s, bound)|
    ensures TruncDiv(Bands(n, s, bound)[i].lo, s) == i
  {
    BandsFromAt(0, n, s, bound, i);
    MulNonneg(i, s);
    DivModUnique(i * s, s, i, 0);
  }

  /**
   * Reading back the tile of request q, planned from row band i and column band j:
   * the read succeeds with shape (1, 1, 1, h, w), h and w at most the strides, h zero
   * exactly for the extra row band of the inclusive bound; and `get_tile_coordinate`
   * of the tile's first row and column gives back (i, j).
   */
  predicate TileReadsBack(reader: OmeTiffReader, q: Request, rowStride: int, colStride: int, i: nat, j: nat)
    requires reader.Valid() && rowStride >= 1 && colStride >= 1
  {
    var r := GetIteratorRequestedTileData(reader, q.t, q.c, q.z, q.yMin, q.yMax, q.xMin, q.xMax);
    && r.Success?
    && r.value.shape[..3] == [1, 1, 1]
    && 0 <= r.value.shape[3] <= rowStride && 0 <= r.value.shape[4] <= colStride
    && (r.value.shape[3] == 0 <==> reader.imageHeight % rowStride == 0 && i == reader.imageHeight / rowStride)
    && GetTileCoordinate(reader, q.yMin, q.xMin, rowStride, colStride) == (i, j)
  }

  /**
   * Every tile of the plan `send_iterator_read_requests` stores can be read back, and
   * its tile coordinate is the pair of band indices it was planned from.
   */
  lemma PlannedTilesReadBack(reader: OmeTiffReader, rowStride: int, colStride: int,
                             t: nat, c: nat, z: nat, i: nat, j: nat)
    requires reader.Valid() && rowStride >= 1 && colStride >= 1
    requires t < reader.numTsteps && c < reader.numChannels && z < reader.imageDepth
    requires i < |Bands(reader.imageHeight, rowStride, Inclusive)| && j < |Bands(reader.imageWidth, colStride, Inclusive)|
    ensures var plan := Plan(reader.numTsteps, reader.numChannels, reader.imageDepth, reader.imageHeight,
                             reader.imageWidth, rowStride, colStride, Inclusive);
            var p := PlanIndex(reader.numChannels, reader.imageDepth, |Bands(reader.imageHeight, rowStride, Inclusive)|,
                               |Bands(reader.imageWidth, colStride, Inclusive)|, t, c, z, i, j);
            p < |plan| && TileReadsBack(reader, plan[p], rowStride, colStride, i, j)
  {
    PlanAt(reader.numTsteps, reader.numChannels, reader.imageDepth, reader.imageHeight, reader.imageWidth,
           rowStride, colStride, Inclusive, t, c, z, i, j);
    InclusiveBandWidths(reader.imageHeight, rowStride, i);
    InclusiveBandWidths(reader.imageWidth, colStride, j);
    TileCoordinateOfBand(reader.imageHeight, rowStride, Inclusive, i);
    TileCoordinateOfBand(reader.imageWidth, colStride, Inclusive, j);
  }
}
