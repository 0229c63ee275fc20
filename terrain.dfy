/**
 * Water tiles of the field map (WaterRender): a tile is a 64 x 64 grid of vertices decoded from
 * fixed-size byte records, texture coordinates looked up per vertex from its material bytes, and
 * one triangle index buffer, identical for every tile, cached across all water tiles.
 */
module Terrain {
  import opened Geometry
  import opened Wrappers

  type byte = b: int | 0 <= b < 0x100
  type uint16 = n: int | 0 <= n < 0x1_0000

  const MAP_HEIGHT_SCALE: real := 0.0122075
  const MAP_TILE_LENGTH: nat := 64
  const MAP_TILE_SIZE: nat := MAP_TILE_LENGTH * MAP_TILE_LENGTH
  const INDEX_COUNT_SIDE: nat := MAP_TILE_LENGTH - 1

  /** The number of textures in the terrain texture array. */
  const TEXTURE_SLOT_COUNT: nat := 83

  /** A slot of the terrain texture array. */
  type TextureSlot = n: int | 0 <= n < 83

  /** A texture repeat factor; every entry of the UV table is one. */
  type UvScale = r: real | 0.0 < r <= 0.59 witness 0.1

  /** Material number -> texture array slot. */
  const TEXTURE_INDEX_MAP: seq<TextureSlot> := [
    0, 1, 2, 3, 4, 5, 6, 7, 8, 9, 10, 11, 12, 13, 14, 15, 16, 17, 18, 19, 20, 21, 22, 23, 24, 25,
    26, 27, 28, 17, 18, 0, 29, 30, 31, 32, 33, 34, 35, 36, 37, 38, 39, 40, 41, 42, 43, 44, 45, 46,
    47, 48, 49, 50, 51, 52, 53, 54, 55, 56, 57, 58, 59, 7, 60, 61, 62, 63, 64, 65, 66, 67, 68, 69,
    70, 71, 0, 72, 73, 74, 75, 76, 77, 78, 79, 80, 81, 82]

  /** Material number m -> its UV scale pair, at slots 2m and 2m + 1. */
  const TEXTURE_UV_MAP: seq<UvScale> := [
    0.1, 0.1, 0.05, 0.05, 0.1, 0.1, 0.04, 0.04, 0.05, 0.05, 0.1, 0.1, 0.05, 0.05, 0.05, 0.05,
    0.1, 0.1, 0.1, 0.1, 0.05, 0.05, 0.09, 0.09, 0.05, 0.05, 0.1, 0.1, 0.2, 0.2, 0.14, 0.14,
    0.05, 0.05, 0.05, 0.05, 0.05, 0.05, 0.05, 0.05, 0.05, 0.05, 0.07, 0.07, 0.07, 0.07, 0.05, 0.05,
    0.15, 0.15, 0.1, 0.1, 0.1, 0.1, 0.07, 0.07, 0.04, 0.04, 0.05, 0.16, 0.03, 0.03, 0.05, 0.05,
    0.05, 0.05, 0.03, 0.03, 0.05, 0.05, 0.45, 0.45, 0.2, 0.2, 0.1, 0.1, 0.59, 0.59, 0.15, 0.15,
    0.2, 0.2, 0.35, 0.35, 0.2, 0.2, 0.1, 0.1, 0.15, 0.15, 0.2, 0.2, 0.15, 0.15, 0.2, 0.2,
    0.05, 0.05, 0.05, 0.05, 0.05, 0.05, 0.05, 0.05, 0.05, 0.05, 0.1, 0.1, 0.1, 0.1, 0.05, 0.05,
    0.05, 0.05, 0.05, 0.05, 0.1, 0.1, 0.08, 0.08, 0.04, 0.04, 0.1, 0.1, 0.05, 0.05, 0.05, 0.05,
    0.1, 0.1, 0.25, 0.25, 0.04, 0.05, 0.08, 0.08, 0.08, 0.08, 0.2, 0.2, 0.1, 0.1, 0.15, 0.15,
    0.04, 0.04, 0.25, 0.25, 0.05, 0.05, 0.15, 0.15, 0.05, 0.05, 0.08, 0.08, 0.1, 0.1, 0.07, 0.07,
    0.05, 0.05, 0.23, 0.23, 0.16, 0.16, 0.16, 0.16, 0.04, 0.04, 0.1, 0.1, 0.05, 0.05, 0.1, 0.1]

  /** The number of materials both tables cover. */
  const MATERIAL_COUNT: nat := 88

  // ---------------------------------------------------------------------------------------
  // The shared index buffer

  /** The six indices of grid cell (x, y): triangles (top, bottom, bottom+1) and (bottom+1, top+1, top). */
  function CellIndices(tileLength: int, x: int, y: int): seq<int>
  {
    var top := y * tileLength + x;
    var bottom := (y + 1) * tileLength + x;
    [top, bottom, bottom + 1, bottom + 1, top + 1, top]
  }

  /** The indices of the first `n` cells of row `y`, in x order. */
  function RowIndices(tileLength: int, y: int, n: nat): (r: seq<int>)
    ensures |r| == 6 * n
  {
    if n == 0 then [] else RowIndices(tileLength, y, n - 1) + CellIndices(tileLength, n - 1, y)
  }

  /** The indices of the first `rows` rows of a `side` x `side` cell grid, row by row. */
  function GridIndices(side: nat, tileLength: int, rows: nat): seq<int>
  {
    if rows == 0 then []
    else
      GridIndices(side, tileLength, rows - 1) + RowIndices(tileLength, rows - 1, side)
  }

  lemma MulLe(a: int, b: int, c: int)
    requires 0 <= a && b <= c
    ensures a * b <= a * c
  {
    assert a * c - a * b == a * (c - b);
  }

  /** Builds the index buffer of a side x side cell grid over rows of `tileLength` vertices. */
  method GetIndexBuffer(indexCountSide: nat, tileLength: int) returns (indexBuffer: array<int>)
    ensures indexBuffer.Length == indexCountSide * indexCountSide * 6
    ensures indexBuffer[..] == GridIndices(indexCountSide, tileLength, indexCountSide)
  {
    indexBuffer := new int[indexCountSide * indexCountSide * 2 * 3];
    var side := indexCountSide;

    var i := 0;
    for y := 0 to side
      invariant i == |GridIndices(side, tileLength, y)| <= indexBuffer.Length
      invariant indexBuffer[..i] == GridIndices(side, tileLength, y)
    {
      RowsFit(side, tileLength, y + 1);
      i := FillRow(indexBuffer, i, side, tileLength, y);
    }
    assert i == indexBuffer.Length by {
      GridIndicesLength(side, tileLength, side);
    }
    assert indexBuffer[..] == indexBuffer[..i];
  }

  /** Writes the six indices of each of the `side` cells of row `y`, starting at slot `start`. */
  method FillRow(indexBuffer: array<int>, start: nat, side: nat, tileLength: int, y: int) returns (i: nat)
    requires start + 6 * side <= indexBuffer.Length
    modifies indexBuffer
    ensures i == start + 6 * side
    ensures indexBuffer[..i] == old(indexBuffer[..start]) + RowIndices(tileLength, y, side)
  {
    i := start;
    var indexTop := y * tileLength;
    var indexBottom := (y + 1) * tileLength;

    for x := 0 to side
      invariant i == start + 6 * x
      invariant indexTop == y * tileLength + x && indexBottom == (y + 1) * tileLength + x
      invariant indexBuffer[..i] == old(indexBuffer[..start]) + RowIndices(tileLength, y, x)
    {
      ghost var before := indexBuffer[..i];
      indexBuffer[i] := indexTop;
      indexBuffer[i + 1] := indexBottom;
      indexBuffer[i + 2] := indexBottom + 1;

      indexBuffer[i + 3] := indexBottom + 1;
      indexBuffer[i + 4] := indexTop + 1;
      indexBuffer[i + 5] := indexTop;
      CellWritten(indexBuffer[..], before, i, indexTop, indexBottom, tileLength, x, y);
      i := i + 6;

      indexTop := indexTop + 1;
      indexBottom := indexBottom + 1;
    }
  }

  /** After the six writes of one cell, the written prefix grew by that cell's indices. */
  lemma CellWritten(a: seq<int>, before: seq<int>, i: nat, top: int, bottom: int, tileLength: int, x: int, y: int)
    requires i + 6 <= |a| && a[..i] == before
    requires top == y * tileLength + x && bottom == (y + 1) * tileLength + x
    requires a[i] == top && a[i + 1] == bottom && a[i + 2] == bottom + 1
    requires a[i + 3] == bottom + 1 && a[i + 4] == top + 1 && a[i + 5] == top
    ensures a[..i + 6] == before + CellIndices(tileLength, x, y)
  {
  }

  /** The first `rows` rows fit in a buffer of side * side * 6 entries. */
  lemma RowsFit(side: nat, tileLength: int, rows: nat)
    requires rows <= side
    ensures |GridIndices(side, tileLength, rows)| <= side * side * 2 * 3
  {
    GridIndicesLength(side, tileLength, rows);
    MulLe(side, rows, side);
  }

  lemma {:induction false} GridIndicesLength(side: nat, tileLength: int, rows: nat)
    ensures |GridIndices(side, tileLength, rows)| == 6 * side * rows
    decreases rows
  {
    if rows > 0 {
      GridIndicesLength(side, tileLength, rows - 1);
      assert 6 * side * rows == 6 * side * (rows - 1) + 6 * side;
    }
  }

  /** Cell x of a row sits at offset 6x of the row. */
  lemma {:induction false} RowIndicesAt(tileLength: int, y: int, n: nat, x: nat, j: nat)
    requires x < n && j < 6
    ensures RowIndices(tileLength, y, n)[6 * x + j] == CellIndices(tileLength, x, y)[j]
    decreases n
  {
    if x < n - 1 {
      RowIndicesAt(tileLength, y, n - 1, x, j);
    }
  }

  /** Cell (x, y) owns the six slots starting at 6 * (y * side + x). */
  lemma {:induction false} GridIndicesAt(side: nat, tileLength: int, rows: nat, x: nat, y: nat, j: nat)
    requires x < side && y < rows && j < 6
    ensures 6 * (y * side + x) + j < |GridIndices(side, tileLength, rows)|
    ensures GridIndices(side, tileLength, rows)[6 * (y * side + x) + j] == CellIndices(tileLength, x, y)[j]
    decreases rows
  {
    var k := 6 * (y * side + x) + j;
    var prefix := GridIndices(side, tileLength, rows - 1);
    RowStart(side, y, x, j, rows - 1);
    GridIndicesLength(side, tileLength, rows - 1);
    GridIndicesLength(side, tileLength, rows);
    if y == rows - 1 {
      RowIndicesAt(tileLength, y, side, x, j);
      assert k == |prefix| + 6 * x + j;
    } else {
      GridIndicesAt(side, tileLength, rows - 1, x, y, j);
    }
  }

  /** Arithmetic behind GridIndicesAt: slot 6 * (y * side + x) + j sits 6x + j past the start of
      row y, and before the end of row m whenever y < m. */
  lemma RowStart(side: nat, y: nat, x: nat, j: nat, m: nat)
    requires x < side && j < 6
    ensures y == m ==> 6 * (y * side + x) + j == 6 * side * m + 6 * x + j
    ensures y < m ==> 6 * (y * side + x) + j < 6 * side * m
    ensures 6 * (y * side + x) + j < 6 * side * (y + 1)
  {
    assert side * (y + 1) == side * y + side;
    if y < m {
      MulLe(side, y + 1, m);
    }
  }

  /** Both triangles of a cell have three distinct corners whenever rows are at least one vertex long. */
  lemma CellTrianglesProper(tileLength: int, x: int, y: int)
    requires tileLength > 0
    ensures ProperTriangles(CellIndices(tileLength, x, y))
  {
    var c := CellIndices(tileLength, x, y);
    assert (y + 1) * tileLength == y * tileLength + tileLength;
    assert c[3..][3..] == [];
  }

  lemma {:induction false} RowTrianglesProper(tileLength: int, y: int, n: nat)
    requires tileLength > 0
    ensures ProperTriangles(RowIndices(tileLength, y, n))
    decreases n
  {
    if n > 0 {
      RowTrianglesProper(tileLength, y, n - 1);
      CellTrianglesProper(tileLength, n - 1, y);
      ProperTrianglesAppend(RowIndices(tileLength, y, n - 1), CellIndices(tileLength, n - 1, y));
    }
  }

  /** Every triangle of the grid has three pairwise distinct indices. */
  lemma {:induction false} GridTrianglesProper(side: nat, tileLength: int, rows: nat)
    requires tileLength > 0
    ensures ProperTriangles(GridIndices(side, tileLength, rows))
    decreases rows
  {
    if rows > 0 {
      GridTrianglesProper(side, tileLength, rows - 1);
      RowTrianglesProper(tileLength, rows - 1, side);
      ProperTrianglesAppend(GridIndices(side, tileLength, rows - 1), RowIndices(tileLength, rows - 1, side));
    }
  }

  /** The corners of cell (x, y) of a side x side grid name vertices of a tile of
      tileLength x tileLength vertices. */
  lemma CellIndicesInTile(side: nat, tileLength: int, x: nat, y: nat)
    requires side < tileLength && x < side && y < side
    ensures IndicesBelow(CellIndices(tileLength, x, y), tileLength * tileLength)
  {
    MulLe(tileLength, 0, y);
    MulLe(tileLength, y + 1, tileLength - 1);
    assert (y + 1) * tileLength == tileLength * (y + 1);
    assert tileLength * (tileLength - 1) == tileLength * tileLength - tileLength;
  }

  lemma {:induction false} RowIndicesInTile(side: nat, tileLength: int, y: nat, n: nat)
    requires side < tileLength && y < side && n <= side
    ensures IndicesBelow(RowIndices(tileLength, y, n), tileLength * tileLength)
    decreases n
  {
    if n > 0 {
      RowIndicesInTile(side, tileLength, y, n - 1);
      CellIndicesInTile(side, tileLength, n - 1, y);
    }
  }

  lemma {:induction false} GridIndicesInTileRows(side: nat, tileLength: int, rows: nat)
    requires side < tileLength && rows <= side
    ensures IndicesBelow(GridIndices(side, tileLength, rows), tileLength * tileLength)
    decreases rows
  {
    if rows > 0 {
      GridIndicesInTileRows(side, tileLength, rows - 1);
      RowIndicesInTile(side, tileLength, rows - 1, side);
    }
  }

  /** With fewer cells per side than vertices per row, every index names a vertex of the tile. */
  lemma GridIndicesInTile(side: nat, tileLength: int)
    requires side < tileLength
    ensures IndicesBelow(GridIndices(side, tileLength, side), tileLength * tileLength)
  {
    GridIndicesInTileRows(side, tileLength, side);
  }

  /** The buffer built with the default arguments: 63 * 63 cells, every index below MAP_TILE_SIZE,
      no degenerate triangle. */
  lemma DefaultIndexBuffer()
    ensures |GridIndices(INDEX_COUNT_SIDE, MAP_TILE_LENGTH, INDEX_COUNT_SIDE)| == 23814
    ensures IndicesBelow(GridIndices(INDEX_COUNT_SIDE, MAP_TILE_LENGTH, INDEX_COUNT_SIDE), MAP_TILE_SIZE)
    ensures ProperTriangles(GridIndices(INDEX_COUNT_SIDE, MAP_TILE_LENGTH, INDEX_COUNT_SIDE))
  {
    GridIndicesLength(INDEX_COUNT_SIDE, MAP_TILE_LENGTH, INDEX_COUNT_SIDE);
    GridIndicesInTile(INDEX_COUNT_SIDE, MAP_TILE_LENGTH);
    GridTrianglesProper(INDEX_COUNT_SIDE, MAP_TILE_LENGTH, INDEX_COUNT_SIDE);
  }

  // ---------------------------------------------------------------------------------------
  // Vertex decoding

  /** FileReader.ReadUInt16 at offset `pos`: two bytes, taken here as least significant first (little-endian). */
  function ReadUInt16(buffer: seq<byte>, pos: nat): uint16
    requires pos + 2 <= |buffer|
  {
    buffer[pos] as int + 0x100 * buffer[pos + 1] as int
  }

  /** The two bytes ReadUInt16 decodes back to `n`. */
  function UInt16Bytes(n: uint16): (r: seq<byte>)
    ensures |r| == 2
  {
    [n % 0x100, n / 0x100]
  }

  /** Reading back the bytes of a value gives that value, and reading two bytes and writing the
      value back reproduces them: the little-endian decoding is a bijection. */
  lemma ReadUInt16RoundTrip(n: uint16, buffer: seq<byte>, pos: nat)
    requires pos + 2 <= |buffer|
    ensures ReadUInt16(UInt16Bytes(n), 0) == n
    ensures UInt16Bytes(ReadUInt16(buffer, pos)) == buffer[pos..pos + 2]
  {
  }

  /** The column of vertex `k` of a tile stored row after row. */
  function Column(k: nat): nat
  {
    k % MAP_TILE_LENGTH
  }

  /** The row of vertex `k` of a tile stored row after row. */
  function Row(k: nat): nat
  {
    k / MAP_TILE_LENGTH
  }

  /** Vertex (x, y) of the tile is stored at index 64 * y + x. */
  lemma TileCoordinates(x: nat, y: nat)
    requires x < MAP_TILE_LENGTH
    ensures Column(MAP_TILE_LENGTH * y + x) == x && Row(MAP_TILE_LENGTH * y + x) == y
  {
  }

  /** The position of grid vertex (x, y) at `height`: the tile spans -0.5 .. 0.5 on x and z. */
  function GridPosition(x: nat, y: nat, height: real): Vec3
  {
    Vec3(x as real / INDEX_COUNT_SIDE as real - 0.5, height, y as real / INDEX_COUNT_SIDE as real - 0.5)
  }

  /** Every vertex of the tile lies in the unit square centred on the origin, with the first
      column and row on its negative edges and the last ones on its positive edges. */
  lemma GridPositionInUnitSquare(k: nat, height: real)
    requires k < MAP_TILE_SIZE
    ensures var p := GridPosition(Column(k), Row(k), height);
      -0.5 <= p.x <= 0.5 && -0.5 <= p.z <= 0.5 && p.y == height
      && (Column(k) == 0 <==> p.x == -0.5) && (Column(k) == INDEX_COUNT_SIDE <==> p.x == 0.5)
      && (Row(k) == 0 <==> p.z == -0.5) && (Row(k) == INDEX_COUNT_SIDE <==> p.z == 0.5)
  {
  }

  /** The height encoded by a raw 16-bit sample. */
  function Height(sample: uint16): real
  {
    sample as real * MAP_HEIGHT_SCALE
  }

  /** A decoded water vertex (WaterVertexData). */
  datatype WaterVertexData = WaterVertexData(translate: Vec3, xAxisFlowRate: uint16, zAxisFlowRate: uint16, materialIndex: byte)

  /** Bytes per water vertex: height, x flow and z flow (16 bits each), a skipped byte, the material. */
  const WATER_RECORD_SIZE: nat := 8

  /** Bytes per terrain vertex: the 16-bit height. */
  const TERRAIN_RECORD_SIZE: nat := 2

  /** Water vertex `k` decoded from its record at offset 8k. */
  function WaterVertexAt(heightBuffer: seq<byte>, k: nat): WaterVertexData
    requires WATER_RECORD_SIZE * (k + 1) <= |heightBuffer|
  {
    var pos := WATER_RECORD_SIZE * k;
    WaterVertexData(
      GridPosition(Column(k), Row(k), Height(ReadUInt16(heightBuffer, pos))),
      ReadUInt16(heightBuffer, pos + 2),
      ReadUInt16(heightBuffer, pos + 4),
      heightBuffer[pos + 7])
  }

  /** GetWaterTerrainVertices: decodes the 64 x 64 water vertices, row after row. */
  method GetWaterTerrainVertices(heightBuffer: seq<byte>) returns (vertices: array<WaterVertexData>)
    requires WATER_RECORD_SIZE * MAP_TILE_SIZE <= |heightBuffer|
    ensures vertices.Length == MAP_TILE_SIZE
    ensures forall k :: 0 <= k < MAP_TILE_SIZE ==> vertices[k] == WaterVertexAt(heightBuffer, k)
  {
    vertices := new WaterVertexData[MAP_TILE_SIZE];
    var pos := 0;
    var vertexIndex := 0;
    for y := 0 to MAP_TILE_LENGTH
      invariant vertexIndex == MAP_TILE_LENGTH * y && pos == WATER_RECORD_SIZE * vertexIndex
      invariant forall k :: 0 <= k < vertexIndex ==> vertices[k] == WaterVertexAt(heightBuffer, k)
    {
      var normY := y as real / INDEX_COUNT_SIDE as real;
      for x := 0 to MAP_TILE_LENGTH
        invariant vertexIndex == MAP_TILE_LENGTH * y + x && pos == WATER_RECORD_SIZE * vertexIndex
        invariant forall k :: 0 <= k < vertexIndex ==> vertices[k] == WaterVertexAt(heightBuffer, k)
      {
        var heightValue := Height(ReadUInt16(heightBuffer, pos));
        pos := pos + 2;
        var xAxisFlowRate := ReadUInt16(heightBuffer, pos);
        pos := pos + 2;
        var zAxisFlowRate := ReadUInt16(heightBuffer, pos);
        pos := pos + 2;
        pos := pos + 1; // the byte before the material index is read and dropped
        var materialIndex := heightBuffer[pos];
        pos := pos + 1;

        TileCoordinates(x, y);
        vertices[vertexIndex] := WaterVertexData(
          Vec3(x as real / INDEX_COUNT_SIDE as real - 0.5, heightValue, normY - 0.5),
          xAxisFlowRate, zAxisFlowRate, materialIndex);
        vertexIndex := vertexIndex + 1;
      }
    }
  }

  /** Terrain vertex `k` decoded from its 16-bit height at offset 2k. */
  function TerrainVertexAt(heightBuffer: seq<byte>, k: nat): Vec3
    requires TERRAIN_RECORD_SIZE * (k + 1) <= |heightBuffer|
  {
    GridPosition(Column(k), Row(k), Height(ReadUInt16(heightBuffer, TERRAIN_RECORD_SIZE * k)))
  }

  /** GetTerrainVertices: decodes the 64 x 64 terrain positions, row after row. */
  method GetTerrainVertices(heightBuffer: seq<byte>) returns (vertices: array<Vec3>)
    requires TERRAIN_RECORD_SIZE * MAP_TILE_SIZE <= |heightBuffer|
    ensures vertices.Length == MAP_TILE_SIZE
    ensures forall k :: 0 <= k < MAP_TILE_SIZE ==> vertices[k] == TerrainVertexAt(heightBuffer, k)
  {
    vertices := new Vec3[MAP_TILE_SIZE];
    var pos := 0;
    var vertexIndex := 0;
    for y := 0 to MAP_TILE_LENGTH
      invariant vertexIndex == MAP_TILE_LENGTH * y && pos == TERRAIN_RECORD_SIZE * vertexIndex
      invariant forall k :: 0 <= k < vertexIndex ==> vertices[k] == TerrainVertexAt(heightBuffer, k)
    {
      var normY := y as real / INDEX_COUNT_SIDE as real;
      for x := 0 to MAP_TILE_LENGTH
        invariant vertexIndex == MAP_TILE_LENGTH * y + x && pos == TERRAIN_RECORD_SIZE * vertexIndex
        invariant forall k :: 0 <= k < vertexIndex ==> vertices[k] == TerrainVertexAt(heightBuffer, k)
      {
        var heightValue := Height(ReadUInt16(heightBuffer, pos));
        pos := pos + 2;
        TileCoordinates(x, y);
        vertices[vertexIndex] := Vec3(x as real / INDEX_COUNT_SIDE as real - 0.5, heightValue, normY - 0.5);
        vertexIndex := vertexIndex + 1;
      }
    }
  }

  // ---------------------------------------------------------------------------------------
  // The record layouts, as encoders the decoders invert

  /** A water vertex as stored in the height buffer. */
  datatype WaterRecord = WaterRecord(height: uint16, xAxisFlowRate: uint16, zAxisFlowRate: uint16, skipped: byte, materialIndex: byte)

  function EncodeWaterRecord(r: WaterRecord): (b: seq<byte>)
    ensures |b| == WATER_RECORD_SIZE
  {
    UInt16Bytes(r.height) + UInt16Bytes(r.xAxisFlowRate) + UInt16Bytes(r.zAxisFlowRate) + [r.skipped, r.materialIndex]
  }

  /** A height buffer holding the water records `rs` one after another. */
  function EncodeWaterRecords(rs: seq<WaterRecord>): (b: seq<byte>)
    ensures |b| == WATER_RECORD_SIZE * |rs|
  {
    if rs == [] then [] else EncodeWaterRecords(rs[..|rs| - 1]) + EncodeWaterRecord(rs[|rs| - 1])
  }

  /** Reading across a concatenation reads from whichever part holds both bytes. */
  lemma ReadUInt16Concat(a: seq<byte>, c: seq<byte>, pos: nat)
    requires pos + 2 <= |a| + |c|
    ensures pos + 2 <= |a| ==> ReadUInt16(a + c, pos) == ReadUInt16(a, pos)
    ensures |a| <= pos ==> ReadUInt16(a + c, pos) == ReadUInt16(c, pos - |a|)
  {
  }

  /** The fields of one record read back from its own eight bytes. */
  lemma WaterRecordFields(r: WaterRecord)
    ensures var e := EncodeWaterRecord(r);
      ReadUInt16(e, 0) == r.height && ReadUInt16(e, 2) == r.xAxisFlowRate
      && ReadUInt16(e, 4) == r.zAxisFlowRate && e[7] == r.materialIndex
  {
    var h, x, z := UInt16Bytes(r.height), UInt16Bytes(r.xAxisFlowRate), UInt16Bytes(r.zAxisFlowRate);
    var tail := [r.skipped, r.materialIndex];
    assert EncodeWaterRecord(r) == h + (x + (z + tail));
    ReadUInt16Concat(h, x + (z + tail), 0);
    ReadUInt16Concat(h, x + (z + tail), 2);
    ReadUInt16Concat(x, z + tail, 0);
    ReadUInt16Concat(x, z + tail, 2);
    ReadUInt16Concat(z, tail, 0);
  }

  /** Within a buffer of records, the bytes at offset j of record k are that record's own. */
  lemma {:induction false} ReadWaterField(rs: seq<WaterRecord>, k: nat, j: nat)
    requires k < |rs| && j + 2 <= WATER_RECORD_SIZE
    ensures ReadUInt16(EncodeWaterRecords(rs), WATER_RECORD_SIZE * k + j) == ReadUInt16(EncodeWaterRecord(rs[k]), j)
    ensures EncodeWaterRecords(rs)[WATER_RECORD_SIZE * k + j + 1] == EncodeWaterRecord(rs[k])[j + 1]
    decreases |rs|
  {
    var init := rs[..|rs| - 1];
    var last := EncodeWaterRecord(rs[|rs| - 1]);
    assert EncodeWaterRecords(rs) == EncodeWaterRecords(init) + last;
    ReadUInt16Concat(EncodeWaterRecords(init), last, WATER_RECORD_SIZE * k + j);
    if k < |rs| - 1 {
      ReadWaterField(init, k, j);
      assert init[k] == rs[k];
    }
  }

  /** Decoding water vertex k of a buffer of records gives back record k's height, flow rates
      and material index; the skipped byte has no influence. */
  lemma WaterRecordsRoundTrip(rs: seq<WaterRecord>, k: nat)
    requires k < |rs|
    ensures WaterVertexAt(EncodeWaterRecords(rs), k)
         == WaterVertexData(GridPosition(Column(k), Row(k), Height(rs[k].height)),
                            rs[k].xAxisFlowRate, rs[k].zAxisFlowRate, rs[k].materialIndex)
  {
    WaterFieldsRoundTrip(rs, k);
  }

  lemma WaterFieldsRoundTrip(rs: seq<WaterRecord>, k: nat)
    requires k < |rs|
    ensures var b, p := EncodeWaterRecords(rs), WATER_RECORD_SIZE * k;
      ReadUInt16(b, p) == rs[k].height && ReadUInt16(b, p + 2) == rs[k].xAxisFlowRate
      && ReadUInt16(b, p + 4) == rs[k].zAxisFlowRate && b[p + 7] == rs[k].materialIndex
  {
    WaterRecordFields(rs[k]);
    ReadWaterField(rs, k, 0);
    ReadWaterField(rs, k, 2);
    ReadWaterField(rs, k, 4);
    ReadWaterField(rs, k, 6);
  }

  /** A terrain height buffer holding the samples `hs` one after another. */
  function EncodeHeights(hs: seq<uint16>): (b: seq<byte>)
    ensures |b| == TERRAIN_RECORD_SIZE * |hs|
  {
    if hs == [] then [] else EncodeHeights(hs[..|hs| - 1]) + UInt16Bytes(hs[|hs| - 1])
  }

  lemma {:induction false} HeightSampleRoundTrip(hs: seq<uint16>, k: nat)
    requires k < |hs|
    ensures ReadUInt16(EncodeHeights(hs), TERRAIN_RECORD_SIZE * k) == hs[k]
    decreases |hs|
  {
    var init := hs[..|hs| - 1];
    var last := UInt16Bytes(hs[|hs| - 1]);
    ReadUInt16Concat(EncodeHeights(init), last, TERRAIN_RECORD_SIZE * k);
    if k < |hs| - 1 {
      HeightSampleRoundTrip(init, k);
      assert init[k] == hs[k];
    } else {
      ReadUInt16RoundTrip(hs[k], last, 0);
    }
  }

  /** Decoding terrain vertex k of a buffer of samples puts it at sample k's height. */
  lemma HeightsRoundTrip(hs: seq<uint16>, k: nat)
    requires k < |hs|
    ensures TerrainVertexAt(EncodeHeights(hs), k) == GridPosition(Column(k), Row(k), Height(hs[k]))
  {
    HeightSampleRoundTrip(hs, k);
  }

  // ---------------------------------------------------------------------------------------
  // Texture coordinates and texture indices from the material buffer

  /** The factor all texture coordinates are scaled by (uvBaseScale). */
  const UV_BASE_SCALE: real := 100.0

  /** Bytes per vertex in the material buffer: two material numbers, a blend weight, one unused byte. */
  const MATERIAL_RECORD_SIZE: nat := 4

  /** The two material numbers of vertex `k` exist and both tables have entries for them. */
  predicate MaterialPairKnown(materialBuffer: seq<byte>, k: nat)
  {
    MATERIAL_RECORD_SIZE * k + 1 < |materialBuffer|
    && materialBuffer[MATERIAL_RECORD_SIZE * k] < MATERIAL_COUNT
    && materialBuffer[MATERIAL_RECORD_SIZE * k + 1] < MATERIAL_COUNT
  }

  /** A UV table covering every material: the scale pair of material m at slots 2m and 2m + 1. */
  predicate UvTable(uvMap: seq<UvScale>)
  {
    |uvMap| == 2 * MATERIAL_COUNT
  }

  /** Texture coordinates of vertex `k`: the vertex's position in the tile, 0 .. 1 on each axis,
      times UV_BASE_SCALE, times the UV scale pair of its first material (x, y) and of its
      second material (z, w). */
  function TexCoordAt(uvMap: seq<UvScale>, materialBuffer: seq<byte>, k: nat): Vec4
    requires UvTable(uvMap) && MaterialPairKnown(materialBuffer, k)
  {
    var a := materialBuffer[MATERIAL_RECORD_SIZE * k];
    var b := materialBuffer[MATERIAL_RECORD_SIZE * k + 1];
    Vec4(UvCoordinate(Column(k), uvMap[a * 2]), UvCoordinate(Row(k), uvMap[a * 2 + 1]),
         UvCoordinate(Column(k), uvMap[b * 2]), UvCoordinate(Row(k), uvMap[b * 2 + 1]))
  }

  /** One texture coordinate: grid coordinate `c` mapped to 0 .. 1, times UV_BASE_SCALE, times
      the material's UV scale `s`. */
  function UvCoordinate(c: nat, s: UvScale): real
  {
    UV_BASE_SCALE * (c as real / INDEX_COUNT_SIDE as real) * s
  }

  /** Across the tile a texture coordinate runs from 0 at the first column (row) to
      UV_BASE_SCALE * s at the last one, and only there. */
  lemma UvCoordinateRange(c: nat, s: UvScale)
    requires c < MAP_TILE_LENGTH
    ensures 0.0 <= UvCoordinate(c, s) <= UV_BASE_SCALE * s
    ensures UvCoordinate(c, s) == 0.0 <==> c == 0
    ensures UvCoordinate(c, s) == UV_BASE_SCALE * s <==> c == INDEX_COUNT_SIDE
  {
    var n := c as real / INDEX_COUNT_SIDE as real;
    NormalizedCoordinate(c);
    RepeatRange(n, s);
    assert UvCoordinate(c, s) == UV_BASE_SCALE * n * s;
  }

  /** GetTexCoords: the texture coordinates of the 64 x 64 vertices, row after row, with the
      renderer's UV table `uvMap`. */
  method GetTexCoords(uvMap: seq<UvScale>, materialBuffer: seq<byte>) returns (vertices: array<Vec4>)
    requires UvTable(uvMap)
    requires forall k :: 0 <= k < MAP_TILE_SIZE ==> MaterialPairKnown(materialBuffer, k)
    ensures vertices.Length == MAP_TILE_SIZE
    ensures forall k :: 0 <= k < MAP_TILE_SIZE ==> vertices[k] == TexCoordAt(uvMap, materialBuffer, k)
  {
    vertices := new Vec4[MAP_TILE_SIZE];
    var uvBaseScale := UV_BASE_SCALE;
    var vertexIndex := 0;
    var matIndex := 0;
    for y := 0 to MAP_TILE_LENGTH
      invariant vertexIndex == MAP_TILE_LENGTH * y && matIndex == MATERIAL_RECORD_SIZE * vertexIndex
      invariant forall k :: 0 <= k < vertexIndex ==> vertices[k] == TexCoordAt(uvMap, materialBuffer, k)
    {
      var normY := y as real / INDEX_COUNT_SIDE as real;
      for x := 0 to MAP_TILE_LENGTH
        invariant vertexIndex == MAP_TILE_LENGTH * y + x && matIndex == MATERIAL_RECORD_SIZE * vertexIndex
        invariant forall k :: 0 <= k < vertexIndex ==> vertices[k] == TexCoordAt(uvMap, materialBuffer, k)
      {
        var normX := x as real / INDEX_COUNT_SIDE as real;
        assert MaterialPairKnown(materialBuffer, vertexIndex);
        var uvScaleA := (uvMap[materialBuffer[matIndex] * 2], uvMap[materialBuffer[matIndex] * 2 + 1]);
        var uvScaleB := (uvMap[materialBuffer[matIndex + 1] * 2], uvMap[materialBuffer[matIndex + 1] * 2 + 1]);

        TileCoordinates(x, y);
        vertices[vertexIndex] := Vec4(
          uvBaseScale * normX * uvScaleA.0,
          uvBaseScale * normY * uvScaleA.1,
          uvBaseScale * normX * uvScaleB.0,
          uvBaseScale * normY * uvScaleB.1);
        assert vertices[vertexIndex] == TexCoordAt(uvMap, materialBuffer, vertexIndex);
        vertexIndex := vertexIndex + 1;

        matIndex := matIndex + 4;
      }
    }
  }

  /** Across the tile each material's texture coordinates run from 0 at the first column (row)
      to UV_BASE_SCALE times its UV scale at the last one: a material's texture is repeated
      100 * scale times over a tile. */
  lemma TexCoordRange(uvMap: seq<UvScale>, materialBuffer: seq<byte>, k: nat)
    requires UvTable(uvMap) && k < MAP_TILE_SIZE && MaterialPairKnown(materialBuffer, k)
    ensures var t, a := TexCoordAt(uvMap, materialBuffer, k), materialBuffer[MATERIAL_RECORD_SIZE * k];
      && 0.0 <= t.x <= UV_BASE_SCALE * uvMap[a * 2]
      && 0.0 <= t.y <= UV_BASE_SCALE * uvMap[a * 2 + 1]
      && (t.x == 0.0 <==> Column(k) == 0)
      && (t.x == UV_BASE_SCALE * uvMap[a * 2] <==> Column(k) == INDEX_COUNT_SIDE)
      && (t.y == 0.0 <==> Row(k) == 0)
      && (t.y == UV_BASE_SCALE * uvMap[a * 2 + 1] <==> Row(k) == INDEX_COUNT_SIDE)
    ensures var t, b := TexCoordAt(uvMap, materialBuffer, k), materialBuffer[MATERIAL_RECORD_SIZE * k + 1];
      && 0.0 <= t.z <= UV_BASE_SCALE * uvMap[b * 2]
      && 0.0 <= t.w <= UV_BASE_SCALE * uvMap[b * 2 + 1]
      && (t.z == 0.0 <==> Column(k) == 0)
      && (t.z == UV_BASE_SCALE * uvMap[b * 2] <==> Column(k) == INDEX_COUNT_SIDE)
      && (t.w == 0.0 <==> Row(k) == 0)
      && (t.w == UV_BASE_SCALE * uvMap[b * 2 + 1] <==> Row(k) == INDEX_COUNT_SIDE)
  {
    var a := materialBuffer[MATERIAL_RECORD_SIZE * k];
    var b := materialBuffer[MATERIAL_RECORD_SIZE * k + 1];
    UvCoordinateRange(Column(k), uvMap[a * 2]);
    UvCoordinateRange(Row(k), uvMap[a * 2 + 1]);
    UvCoordinateRange(Column(k), uvMap[b * 2]);
    UvCoordinateRange(Row(k), uvMap[b * 2 + 1]);
  }

  /** A grid coordinate divided by INDEX_COUNT_SIDE lies in 0 .. 1, at the ends exactly for the
      first and the last column (row). */
  lemma NormalizedCoordinate(c: nat)
    requires c < MAP_TILE_LENGTH
    ensures var n := c as real / INDEX_COUNT_SIDE as real;
      0.0 <= n <= 1.0 && (n == 0.0 <==> c == 0) && (n == 1.0 <==> c == INDEX_COUNT_SIDE)
  {
  }

  /** Scaling a 0 .. 1 coordinate by UV_BASE_SCALE * s covers 0 .. UV_BASE_SCALE * s. */
  lemma RepeatRange(n: real, s: UvScale)
    requires 0.0 <= n <= 1.0
    ensures 0.0 <= UV_BASE_SCALE * n * s <= UV_BASE_SCALE * s
    ensures UV_BASE_SCALE * n * s == 0.0 <==> n == 0.0
    ensures UV_BASE_SCALE * n * s == UV_BASE_SCALE * s <==> n == 1.0
  {
    assert UV_BASE_SCALE * s - UV_BASE_SCALE * n * s == UV_BASE_SCALE * s * (1.0 - n);
  }

  /** A texture index table covering every material. */
  predicate IndexTable(indexMap: seq<TextureSlot>)
  {
    |indexMap| == MATERIAL_COUNT
  }

  /** One entry of the texture index buffer: the texture array slots of the two materials and
      the blend byte of record k. */
  function TexIndexAt(indexMap: seq<TextureSlot>, materialBuffer: seq<byte>, k: nat): Vec3
    requires IndexTable(indexMap)
    requires MaterialPairKnown(materialBuffer, k) && MATERIAL_RECORD_SIZE * k + 2 < |materialBuffer|
  {
    var i := MATERIAL_RECORD_SIZE * k;
    Vec3(indexMap[materialBuffer[i]] as real, indexMap[materialBuffer[i + 1]] as real, materialBuffer[i + 2] as real)
  }

  /** GetTexIndexBuffer: one entry per four bytes of the material buffer, with the renderer's
      texture index table `indexMap`. */
  method GetTexIndexBuffer(indexMap: seq<TextureSlot>, materialBuffer: seq<byte>) returns (vertices: array<Vec3>)
    requires IndexTable(indexMap)
    requires |materialBuffer| % MATERIAL_RECORD_SIZE == 0
    requires forall k :: 0 <= k < |materialBuffer| / MATERIAL_RECORD_SIZE ==> MaterialPairKnown(materialBuffer, k)
    ensures vertices.Length == |materialBuffer| / MATERIAL_RECORD_SIZE
    ensures forall k :: 0 <= k < vertices.Length ==> vertices[k] == TexIndexAt(indexMap, materialBuffer, k)
  {
    vertices := new Vec3[|materialBuffer| / 4];
    var vertexIndex := 0;
    var i := 0;
    while i < |materialBuffer|
      invariant i == MATERIAL_RECORD_SIZE * vertexIndex <= |materialBuffer|
      invariant forall k :: 0 <= k < vertexIndex ==> vertices[k] == TexIndexAt(indexMap, materialBuffer, k)
      decreases |materialBuffer| - i
    {
      assert MaterialPairKnown(materialBuffer, vertexIndex);
      vertices[vertexIndex] := Vec3(
        indexMap[materialBuffer[i]] as real,
        indexMap[materialBuffer[i + 1]] as real,
        materialBuffer[i + 2] as real);
      vertexIndex := vertexIndex + 1;
      i := i + 4;
    }
  }

  /** Both texture indices of an entry name slots of the texture array. */
  lemma TexIndexInArray(indexMap: seq<TextureSlot>, materialBuffer: seq<byte>, k: nat)
    requires IndexTable(indexMap)
    requires MaterialPairKnown(materialBuffer, k) && MATERIAL_RECORD_SIZE * k + 2 < |materialBuffer|
    ensures var t := TexIndexAt(indexMap, materialBuffer, k);
      0.0 <= t.x < TEXTURE_SLOT_COUNT as real && 0.0 <= t.y < TEXTURE_SLOT_COUNT as real && 0.0 <= t.z < 256.0
  {
  }

  // ---------------------------------------------------------------------------------------
  // The renderer

  /** The index buffer shared by every water tile (the static IndexBuffer field): absent until
      the first tile is loaded, then the 63 x 63 cell grid over 64-vertex rows. */
  class IndexBufferCache {
    var indexBuffer: array?<int>

    predicate Valid()
      reads this, indexBuffer
    {
      indexBuffer != null ==> indexBuffer[..] == GridIndices(INDEX_COUNT_SIDE, MAP_TILE_LENGTH, INDEX_COUNT_SIDE)
    }

    constructor()
      ensures Valid() && indexBuffer == null
    {
      indexBuffer := null;
    }
  }

  /** One vertex as handed to the renderer (WaterVertex without its normal). */
  datatype WaterVertex = WaterVertex(position: Vec3, materialIndex: byte, texCoords: Vec4)

  /** The loaded mesh: vertices and the (shared) triangle index buffer. */
  datatype WaterMesh = WaterMesh(vertices: seq<WaterVertex>, indexBuffer: array<int>)

  /** The vertex the renderer builds for water vertex `k`. */
  function WaterVertexFor(uvMap: seq<UvScale>, heightBuffer: seq<byte>, materialBuffer: seq<byte>,
                          previewScale: real, k: nat): WaterVertex
    requires UvTable(uvMap) && WATER_RECORD_SIZE * (k + 1) <= |heightBuffer| && MaterialPairKnown(materialBuffer, k)
  {
    var data := WaterVertexAt(heightBuffer, k);
    WaterVertex(Scale(data.translate, previewScale), data.materialIndex, TexCoordAt(uvMap, materialBuffer, k))
  }

  /** The vertex loops of LoadWaterData: the positions are taken from the decoded vertices, then
      every vertex is assembled from its position times the preview scale, its material index
      and its texture coordinates. */
  method ComposeVertices(positionData: array<WaterVertexData>, texCoords: array<Vec4>, previewScale: real)
    returns (vertices: array<WaterVertex>)
    requires positionData.Length <= texCoords.Length
    ensures vertices.Length == positionData.Length
    ensures forall k :: 0 <= k < vertices.Length ==>
      vertices[k] == WaterVertex(Scale(positionData[k].translate, previewScale), positionData[k].materialIndex, texCoords[k])
  {
    var positions := new Vec3[positionData.Length];
    for i := 0 to positionData.Length
      invariant forall k :: 0 <= k < i ==> positions[k] == positionData[k].translate
    {
      positions[i] := positionData[i].translate;
    }

    vertices := new WaterVertex[positionData.Length];
    for i := 0 to positionData.Length
      modifies vertices
      invariant forall k :: 0 <= k < i ==>
        vertices[k] == WaterVertex(Scale(positionData[k].translate, previewScale), positionData[k].materialIndex, texCoords[k])
    {
      vertices[i] := WaterVertex(Scale(positions[i], previewScale), positionData[i].materialIndex, texCoords[i]);
    }
  }

  /** A water tile renderer. */
  class WaterRender {
    const textureIndexMap: seq<TextureSlot>
    const textureUvMap: seq<UvScale>
    const cache: IndexBufferCache
    var waterMesh: Option<WaterMesh>

    predicate Valid()
      reads this
    {
      IndexTable(textureIndexMap) && UvTable(textureUvMap)
    }

    constructor(cache: IndexBufferCache)
      ensures Valid() && this.cache == cache && waterMesh == None
      ensures textureIndexMap == TEXTURE_INDEX_MAP && textureUvMap == TEXTURE_UV_MAP
    {
      textureIndexMap := TEXTURE_INDEX_MAP;
      textureUvMap := TEXTURE_UV_MAP;
      this.cache := cache;
      waterMesh := None;
    }

    /** LoadWaterData: decodes the tile's vertices and texture coordinates, scales the positions
        by the preview scale, and builds the shared index buffer only if no tile built it before. */
    method LoadWaterData(heightBuffer: seq<byte>, materialBuffer: seq<byte>, previewScale: real)
      requires Valid() && cache.Valid()
      requires WATER_RECORD_SIZE * MAP_TILE_SIZE <= |heightBuffer|
      requires forall k :: 0 <= k < MAP_TILE_SIZE ==> MaterialPairKnown(materialBuffer, k)
      modifies this, cache
      ensures Valid() && cache.Valid() && cache.indexBuffer != null
      ensures old(cache.indexBuffer) != null ==> cache.indexBuffer == old(cache.indexBuffer)
      ensures waterMesh.Some? && waterMesh.value.indexBuffer == cache.indexBuffer
      ensures |waterMesh.value.vertices| == MAP_TILE_SIZE
      ensures forall k :: 0 <= k < MAP_TILE_SIZE ==>
        waterMesh.value.vertices[k] == WaterVertexFor(textureUvMap, heightBuffer, materialBuffer, previewScale, k)
      ensures IndicesBelow(cache.indexBuffer[..], |waterMesh.value.vertices|)
      ensures ProperTriangles(cache.indexBuffer[..])
    {
      var positionData := GetWaterTerrainVertices(heightBuffer);
      var texCoords := GetTexCoords(textureUvMap, materialBuffer);
      if cache.indexBuffer == null {
        cache.indexBuffer := GetIndexBuffer(INDEX_COUNT_SIDE, MAP_TILE_LENGTH);
      }
      var vertices := ComposeVertices(positionData, texCoords, previewScale);

      DefaultIndexBuffer();
      waterMesh := Some(WaterMesh(vertices[..], cache.indexBuffer));
    }
  }
}
