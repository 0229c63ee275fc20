/**
 * Navmesh building (NavmeshBuilder). For every navmesh tile of the active map, a sample region is chosen,
 * and the baked collision shapes and, on the field map, the terrain tiles that lie inside it are merged
 * into one vertex list and one triangle index list, which is then handed to the navmesh generator.
 *
 * Positions are exact reals. The render transforms are opaque functions, and the inverse of the
 * navmesh-origin translation is written out as the subtraction it is.
 */
module NavmeshBuild {
  import opened Geometry

  /** float.MaxValue, the largest finite single-precision value; float.MinValue is its negation. */
  const FLOAT_MAX: real := 340282346638528859811704183484516925440.0
  const FLOAT_MIN: real := -FLOAT_MAX
  /** A field-map navmesh tile covers this many units on X and Z from its origin (new Vector3(250)). */
  const NAVMESH_TILE_EXTENT: real := 250.0
  /** Padding by which terrain sampling extends the region on every side (the 5f passed by Build). */
  const TERRAIN_SAMPLE_PADDING: real := 5.0

  /** GLContext.PreviewScale: the factor between map units and render units. */
  type NonZeroReal = r: real | r != 0.0 witness 1.0

  /** A render's placement: its position, and the point mapping of its transform matrix. */
  datatype Transform = Transform(position: Vec3, apply: Vec3 -> Vec3)

  /** A baked collision shape as rendered: vertex positions and a triangle index list. */
  datatype ShapeRender = ShapeRender(transform: Transform, vertices: seq<Vec3>, indices: seq<int>)

  datatype CollisionLoader = CollisionLoader(shapeRenders: seq<ShapeRender>)

  /** A terrain tile as rendered; its triangles are the shared terrain index list. */
  datatype TerrainRender = TerrainRender(transform: Transform, vertices: seq<Vec3>)

  datatype NavmeshLoader = NavmeshLoader(origin: Vec3)

  /** The active map loader; `isFieldMap` tells a FieldMapLoader from the other loaders. */
  datatype MapLoader = MapLoader(
    isFieldMap: bool,
    navmesh: seq<NavmeshLoader>,
    bakedCollision: seq<CollisionLoader>,
    terrainRenders: seq<TerrainRender>)

  /** DrawingHelper.VerticesIndices: the merged mesh. */
  datatype VerticesIndices = VerticesIndices(vertices: seq<Vec3>, indices: seq<int>)

  datatype Bounds = Bounds(min: Vec3, max: Vec3)

  /** The arguments of GetMergedMesh together with the preview scale. */
  datatype Sample = Sample(origin: Vec3, min: Vec3, max: Vec3, padding: real, previewScale: NonZeroReal)

  // ---------------------------------------------------------------- sample region

  /** The region Build samples for a navmesh tile at `origin`. */
  function SampleRegion(fieldMap: bool, origin: Vec3): Bounds
  {
    if fieldMap then
      Bounds(Vec3(origin.x, FLOAT_MIN, origin.z),
             Vec3(origin.x + NAVMESH_TILE_EXTENT, FLOAT_MAX, origin.z + NAVMESH_TILE_EXTENT))
    else
      Bounds(Vec3(FLOAT_MIN, FLOAT_MIN, FLOAT_MIN), Vec3(FLOAT_MAX, FLOAT_MAX, FLOAT_MAX))
  }

  /** The sample Build passes to GetMergedMesh for a navmesh tile at `origin`. */
  function RegionSample(fieldMap: bool, origin: Vec3, previewScale: NonZeroReal): Sample
  {
    var b := SampleRegion(fieldMap, origin);
    Sample(origin, b.min, b.max, TERRAIN_SAMPLE_PADDING, previewScale)
  }

  /** A render position brought back to map units. */
  function Unscaled(p: Vec3, s: NonZeroReal): (r: Vec3)
    ensures Scale(r, s) == p
  {
    Vec3(p.x / s, p.y / s, p.z / s)
  }

  /** Whether a collision shape at `position` is merged: above `min` (strictly) and at most `max`. */
  predicate ShapeInSample(position: Vec3, smp: Sample)
  {
    var q := Unscaled(position, smp.previewScale);
    q.x > smp.min.x && q.y > smp.min.y && q.z > smp.min.z &&
    q.x <= smp.max.x && q.y <= smp.max.y && q.z <= smp.max.z
  }

  /** Whether a transformed terrain vertex is kept: within the padded region, both ends included. */
  predicate TerrainInSample(pos: Vec3, smp: Sample)
  {
    var q := Unscaled(pos, smp.previewScale);
    q.x >= smp.min.x - smp.padding && q.y >= smp.min.y - smp.padding && q.z >= smp.min.z - smp.padding &&
    q.x <= smp.max.x + smp.padding && q.y <= smp.max.y + smp.padding && q.z <= smp.max.z + smp.padding
  }

  /**
   * A world-space render position expressed relative to the navmesh origin, in map units:
   * the inverse of the translation by origin * PreviewScale, then the division by PreviewScale.
   */
  function ToNavmeshSpace(p: Vec3, smp: Sample): (r: Vec3)
    ensures Scale(Vec3(r.x + smp.origin.x, r.y + smp.origin.y, r.z + smp.origin.z), smp.previewScale) == p
  {
    var s := smp.previewScale;
    var local := Vec3(p.x - smp.origin.x * s, p.y - smp.origin.y * s, p.z - smp.origin.z * s);
    Unscaled(local, s)
  }

  /** On the field map, a shape is merged exactly when it stands over the tile's square, whatever its finite height. */
  lemma FieldRegionIsColumn(origin: Vec3, position: Vec3, previewScale: NonZeroReal)
    requires FLOAT_MIN < position.y / previewScale <= FLOAT_MAX
    ensures var q := Unscaled(position, previewScale);
      ShapeInSample(position, RegionSample(true, origin, previewScale)) <==>
        (origin.x < q.x <= origin.x + NAVMESH_TILE_EXTENT && origin.z < q.z <= origin.z + NAVMESH_TILE_EXTENT)
  {
  }

  /** On the field map, a terrain vertex is kept exactly when it lies over the square widened by the padding. */
  lemma FieldRegionTerrain(origin: Vec3, pos: Vec3, previewScale: NonZeroReal)
    requires FLOAT_MIN <= pos.y / previewScale <= FLOAT_MAX
    ensures var q := Unscaled(pos, previewScale);
      TerrainInSample(pos, RegionSample(true, origin, previewScale)) <==>
        (origin.x - TERRAIN_SAMPLE_PADDING <= q.x <= origin.x + NAVMESH_TILE_EXTENT + TERRAIN_SAMPLE_PADDING &&
         origin.z - TERRAIN_SAMPLE_PADDING <= q.z <= origin.z + NAVMESH_TILE_EXTENT + TERRAIN_SAMPLE_PADDING)
  {
  }

  /** Elsewhere the region is unbounded: only a coordinate at or beyond float.MinValue excludes a shape. */
  lemma OpenRegionTakesAll(origin: Vec3, position: Vec3, previewScale: NonZeroReal)
    ensures var q := Unscaled(position, previewScale);
      ShapeInSample(position, RegionSample(false, origin, previewScale)) <==>
        (FLOAT_MIN < q.x <= FLOAT_MAX && FLOAT_MIN < q.y <= FLOAT_MAX && FLOAT_MIN < q.z <= FLOAT_MAX)
  {
  }

  // ---------------------------------------------------------------- collision shapes

  /** A render's vertices placed by its transform and brought into navmesh space, in order. */
  function NavmeshVertices(transform: Transform, vertices: seq<Vec3>, smp: Sample): (r: seq<Vec3>)
    ensures |r| == |vertices|
  {
    seq(|vertices|, k requires 0 <= k < |vertices| => ToNavmeshSpace(transform.apply(vertices[k]), smp))
  }

  /** `indices` with `base` added to every entry. */
  function Offset(indices: seq<int>, base: int): (r: seq<int>)
    ensures |r| == |indices|
    decreases |indices|
  {
    if |indices| == 0 then [] else Offset(indices[..|indices| - 1], base) + [indices[|indices| - 1] + base]
  }

  lemma {:induction false} OffsetAt(indices: seq<int>, base: int, k: int)
    requires 0 <= k < |indices|
    ensures Offset(indices, base)[k] == indices[k] + base
    decreases |indices|
  {
    if k < |indices| - 1 {
      OffsetAt(indices[..|indices| - 1], base, k);
    }
  }

  /** Offsetting a valid index list of `n` vertices by `base` addresses the vertices `base .. base+n-1`. */
  lemma OffsetBelow(indices: seq<int>, base: nat, n: int)
    requires IndicesBelow(indices, n)
    ensures forall k :: 0 <= k < |indices| ==> base <= Offset(indices, base)[k] < base + n
  {
    forall k | 0 <= k < |indices|
      ensures base <= Offset(indices, base)[k] < base + n
    {
      OffsetAt(indices, base, k);
    }
  }

  /** Offsetting keeps every triangle's corners distinct. */
  lemma {:induction false} OffsetProper(indices: seq<int>, base: int)
    requires ProperTriangles(indices)
    ensures ProperTriangles(Offset(indices, base))
    decreases |indices|
  {
    var r := Offset(indices, base);
    if |indices| != 0 {
      OffsetAt(indices, base, 0);
      OffsetAt(indices, base, 1);
      OffsetAt(indices, base, 2);
      forall k | 0 <= k < |indices| - 3
        ensures r[3..][k] == Offset(indices[3..], base)[k]
      {
        OffsetAt(indices, base, k + 3);
        OffsetAt(indices[3..], base, k);
      }
      assert r[3..] == Offset(indices[3..], base);
      OffsetProper(indices[3..], base);
    }
  }

  /** The merged mesh after one more collision shape: appended with its indices offset by the vertex count, or unchanged. */
  function AddShape(m: VerticesIndices, shape: ShapeRender, smp: Sample): VerticesIndices
  {
    if ShapeInSample(shape.transform.position, smp) then
      VerticesIndices(m.vertices + NavmeshVertices(shape.transform, shape.vertices, smp), m.indices + Offset(shape.indices, |m.vertices|))
    else
      m
  }

  /** The merged mesh of a sequence of collision shapes, taken in order. */
  function CollisionMerge(shapes: seq<ShapeRender>, smp: Sample): VerticesIndices
    decreases |shapes|
  {
    if |shapes| == 0 then VerticesIndices([], [])
    else AddShape(CollisionMerge(shapes[..|shapes| - 1], smp), shapes[|shapes| - 1], smp)
  }

  /** The shapes of every collision loader, loader by loader. */
  function AllShapes(loaders: seq<CollisionLoader>): seq<ShapeRender>
    decreases |loaders|
  {
    if |loaders| == 0 then [] else AllShapes(loaders[..|loaders| - 1]) + loaders[|loaders| - 1].shapeRenders
  }

  lemma CollisionMergeSnoc(shapes: seq<ShapeRender>, shape: ShapeRender, smp: Sample)
    ensures CollisionMerge(shapes + [shape], smp) == AddShape(CollisionMerge(shapes, smp), shape, smp)
  {
    assert (shapes + [shape])[..|shapes|] == shapes;
  }

  /** A shape's index list addresses only its own vertices. */
  predicate ShapeIndicesValid(shape: ShapeRender)
  {
    IndicesBelow(shape.indices, |shape.vertices|)
  }

  predicate ShapesValid(shapes: seq<ShapeRender>)
  {
    forall k :: 0 <= k < |shapes| ==> ShapeIndicesValid(shapes[k])
  }

  predicate ShapesProper(shapes: seq<ShapeRender>)
  {
    forall k :: 0 <= k < |shapes| ==> ProperTriangles(shapes[k].indices)
  }

  /** Appending a shape keeps the merged index list within the merged vertex list. */
  lemma AddShapeValid(m: VerticesIndices, shape: ShapeRender, smp: Sample)
    requires IndicesBelow(m.indices, |m.vertices|) && ShapeIndicesValid(shape)
    ensures IndicesBelow(AddShape(m, shape, smp).indices, |AddShape(m, shape, smp).vertices|)
  {
    if ShapeInSample(shape.transform.position, smp) {
      OffsetBelow(shape.indices, |m.vertices|, |shape.vertices|);
    }
  }

  /** When every shape's indices are below its own vertex count, every merged collision index is below the merged vertex count. */
  lemma {:induction false} CollisionIndicesValid(shapes: seq<ShapeRender>, smp: Sample)
    requires ShapesValid(shapes)
    ensures IndicesBelow(CollisionMerge(shapes, smp).indices, |CollisionMerge(shapes, smp).vertices|)
    decreases |shapes|
  {
    if |shapes| != 0 {
      var init := shapes[..|shapes| - 1];
      CollisionIndicesValid(init, smp);
      AddShapeValid(CollisionMerge(init, smp), shapes[|shapes| - 1], smp);
    }
  }

  /** Merging shapes whose triangles are proper gives proper triangles. */
  lemma {:induction false} CollisionTrianglesProper(shapes: seq<ShapeRender>, smp: Sample)
    requires ShapesProper(shapes)
    ensures ProperTriangles(CollisionMerge(shapes, smp).indices)
    decreases |shapes|
  {
    if |shapes| != 0 {
      var init := shapes[..|shapes| - 1];
      var m := CollisionMerge(init, smp);
      var shape := shapes[|shapes| - 1];
      CollisionTrianglesProper(init, smp);
      if ShapeInSample(shape.transform.position, smp) {
        OffsetProper(shape.indices, |m.vertices|);
        ProperTrianglesAppend(m.indices, Offset(shape.indices, |m.vertices|));
      }
    }
  }

  // ---------------------------------------------------------------- terrain tiles

  /** Which vertices of a terrain tile survive the padded region test; the others form removedVertices. */
  function KeptMask(tile: TerrainRender, smp: Sample): (r: seq<bool>)
    ensures |r| == |tile.vertices|
  {
    seq(|tile.vertices|, i requires 0 <= i < |tile.vertices| =>
      TerrainInSample(tile.transform.apply(tile.vertices[i]), smp))
  }

  /** How many of the first `n` vertices are kept. */
  function KeptCount(kept: seq<bool>, n: nat): nat
    requires n <= |kept|
  {
    if n == 0 then 0 else KeptCount(kept, n - 1) + (if kept[n - 1] then 1 else 0)
  }

  /** The kept ones among the first `n` of `points`, in order. */
  function KeptVertices(kept: seq<bool>, points: seq<Vec3>, n: nat): (r: seq<Vec3>)
    requires n <= |kept| == |points|
    ensures |r| == KeptCount(kept, n)
  {
    if n == 0 then []
    else KeptVertices(kept, points, n - 1) + (if kept[n - 1] then [points[n - 1]] else [])
  }

  /** The removed vertices among the first `n`. */
  function Removed(kept: seq<bool>, n: nat): set<int>
    requires n <= |kept|
  {
    set i | 0 <= i < n && !kept[i]
  }

  /** indexMapping[i]: where vertex `i` lands in the merged list, given the `base` count before the tile; -1 if removed. */
  function Mapping(kept: seq<bool>, base: int, i: int): int
    requires 0 <= i < |kept|
  {
    if kept[i] then base + KeptCount(kept, i) else -1
  }

  /** One more vertex: the removed set grows by it exactly when it is not kept. */
  lemma RemovedStep(kept: seq<bool>, i: nat)
    requires i < |kept|
    ensures i !in Removed(kept, i)
    ensures Removed(kept, i + 1) == if kept[i] then Removed(kept, i) else Removed(kept, i) + {i}
  {
  }

  /** Every vertex is either kept or removed: the removed count is the complement of the kept count. */
  lemma {:induction false} RemovedCount(kept: seq<bool>, n: nat)
    requires n <= |kept|
    ensures |Removed(kept, n)| == n - KeptCount(kept, n)
  {
    if n != 0 {
      RemovedCount(kept, n - 1);
      RemovedStep(kept, n - 1);
    }
  }

  /** A kept vertex `i` is counted among the kept vertices of any longer prefix. */
  lemma {:induction false} KeptCountGrows(kept: seq<bool>, i: nat, n: nat)
    requires i < n <= |kept| && kept[i]
    ensures KeptCount(kept, i) < KeptCount(kept, n)
  {
    if i < n - 1 {
      KeptCountGrows(kept, i, n - 1);
    }
  }

  /** The mapping of a kept vertex points at that vertex's own transformed position in the appended list. */
  lemma {:induction false} MappingLocatesVertex(kept: seq<bool>, points: seq<Vec3>, i: nat, n: nat)
    requires i < n <= |kept| == |points| && kept[i]
    ensures KeptCount(kept, i) < KeptCount(kept, n)
    ensures KeptVertices(kept, points, n)[KeptCount(kept, i)] == points[i]
  {
    KeptCountGrows(kept, i, n);
    if i < n - 1 {
      MappingLocatesVertex(kept, points, i, n - 1);
    }
  }

  /** Kept vertices are numbered in their original order, so the mapping is injective on them. */
  lemma MappingIncreasing(kept: seq<bool>, base: int, i: nat, j: nat)
    requires i < j < |kept| && kept[i] && kept[j]
    ensures Mapping(kept, base, i) < Mapping(kept, base, j)
  {
    KeptCountGrows(kept, i, j);
  }

  /** One terrain triangle: remapped when all three corners are kept, else nothing. */
  function EmittedTriangle(kept: seq<bool>, base: int, a: int, b: int, c: int): seq<int>
    requires 0 <= a < |kept| && 0 <= b < |kept| && 0 <= c < |kept|
  {
    if !kept[a] || !kept[b] || !kept[c] then []
    else [Mapping(kept, base, a), Mapping(kept, base, b), Mapping(kept, base, c)]
  }

  /** The triangles of the terrain index list `ti` that survive, remapped, in order. */
  function Emitted(kept: seq<bool>, base: int, ti: seq<int>): seq<int>
    requires IndicesBelow(ti, |kept|)
    decreases |ti|
  {
    if |ti| < 3 then []
    else Emitted(kept, base, ti[..|ti| - 3]) + EmittedTriangle(kept, base, ti[|ti| - 3], ti[|ti| - 2], ti[|ti| - 1])
  }

  /** No emitted index is -1: every one addresses a vertex the tile appended. */
  lemma {:induction false} EmittedValid(kept: seq<bool>, base: int, ti: seq<int>)
    requires IndicesBelow(ti, |kept|)
    ensures forall k :: 0 <= k < |Emitted(kept, base, ti)| ==>
      base <= Emitted(kept, base, ti)[k] < base + KeptCount(kept, |kept|)
    decreases |ti|
  {
    if 3 <= |ti| {
      EmittedValid(kept, base, ti[..|ti| - 3]);
      var a, b, c := ti[|ti| - 3], ti[|ti| - 2], ti[|ti| - 1];
      if kept[a] && kept[b] && kept[c] {
        KeptCountGrows(kept, a, |kept|);
        KeptCountGrows(kept, b, |kept|);
        KeptCountGrows(kept, c, |kept|);
      }
    }
  }

  /** A proper triangle list whose last triple is split off: the rest is proper and the last triple is not degenerate. */
  lemma {:induction false} ProperTrianglesInit(s: seq<int>)
    requires ProperTriangles(s) && 3 <= |s|
    ensures ProperTriangles(s[..|s| - 3]) && !Degenerate(s[|s| - 3], s[|s| - 2], s[|s| - 1])
    decreases |s|
  {
    if |s| == 3 {
      assert s[..0] == [];
    } else {
      var t := s[3..];
      ProperTrianglesInit(t);
      assert t[..|t| - 3] == s[3..|s| - 3];
      assert s[..|s| - 3][3..] == s[3..|s| - 3];
    }
  }

  /** Remapping drops triangles but never makes one degenerate, since the mapping is injective. */
  lemma {:induction false} EmittedProper(kept: seq<bool>, base: int, ti: seq<int>)
    requires IndicesBelow(ti, |kept|) && ProperTriangles(ti)
    ensures ProperTriangles(Emitted(kept, base, ti))
    decreases |ti|
  {
    if 3 <= |ti| {
      ProperTrianglesInit(ti);
      EmittedProper(kept, base, ti[..|ti| - 3]);
      var a, b, c := ti[|ti| - 3], ti[|ti| - 2], ti[|ti| - 1];
      var last := EmittedTriangle(kept, base, a, b, c);
      if last != [] {
        forall i, j | i in {a, b, c} && j in {a, b, c} && i < j
          ensures Mapping(kept, base, i) < Mapping(kept, base, j)
        {
          MappingIncreasing(kept, base, i, j);
        }
        assert ProperTriangles(last[3..]);
      }
      ProperTrianglesAppend(Emitted(kept, base, ti[..|ti| - 3]), last);
    }
  }

  /** The terrain index list fits a tile: whole triangles over the tile's vertices. */
  predicate TerrainIndicesFit(ti: seq<int>, tile: TerrainRender)
  {
    |ti| % 3 == 0 && IndicesBelow(ti, |tile.vertices|)
  }

  /**
   * The merged mesh after one terrain tile: the kept vertices are appended, and unless every vertex was
   * removed, the surviving triangles are appended remapped.
   */
  function AddTile(m: VerticesIndices, tile: TerrainRender, smp: Sample, ti: seq<int>): (r: VerticesIndices)
    requires IndicesBelow(ti, |tile.vertices|)
    ensures |Removed(KeptMask(tile, smp), |tile.vertices|)| == |tile.vertices| ==> r == m
  {
    var kept := KeptMask(tile, smp);
    var n := |tile.vertices|;
    RemovedCount(kept, n);
    var vertices := m.vertices + KeptVertices(kept, NavmeshVertices(tile.transform, tile.vertices, smp), n);
    if |Removed(kept, n)| == n then VerticesIndices(vertices, m.indices)
    else VerticesIndices(vertices, m.indices + Emitted(kept, |m.vertices|, ti))
  }

  /** The terrain index list addresses only vertices every one of `tiles` has. */
  predicate TilesCovered(tiles: seq<TerrainRender>, ti: seq<int>)
  {
    forall k :: 0 <= k < |tiles| ==> IndicesBelow(ti, |tiles[k].vertices|)
  }

  /** The merged mesh after the given terrain tiles, in order. */
  function TerrainMerge(m: VerticesIndices, tiles: seq<TerrainRender>, smp: Sample, ti: seq<int>): VerticesIndices
    requires TilesCovered(tiles, ti)
    decreases |tiles|
  {
    if |tiles| == 0 then m
    else AddTile(TerrainMerge(m, tiles[..|tiles| - 1], smp, ti), tiles[|tiles| - 1], smp, ti)
  }

  /** Terrain only appends: what the collision shapes contributed stays in front, unchanged. */
  lemma {:induction false} TerrainMergeExtends(m: VerticesIndices, tiles: seq<TerrainRender>, smp: Sample, ti: seq<int>)
    requires TilesCovered(tiles, ti)
    ensures var r := TerrainMerge(m, tiles, smp, ti);
      |m.vertices| <= |r.vertices| && r.vertices[..|m.vertices|] == m.vertices &&
      |m.indices| <= |r.indices| && r.indices[..|m.indices|] == m.indices
    decreases |tiles|
  {
    if |tiles| != 0 {
      var init := TerrainMerge(m, tiles[..|tiles| - 1], smp, ti);
      TerrainMergeExtends(m, tiles[..|tiles| - 1], smp, ti);
      var r := AddTile(init, tiles[|tiles| - 1], smp, ti);
      assert r.vertices[..|init.vertices|] == init.vertices;
      assert r.indices[..|init.indices|] == init.indices;
      assert r.vertices[..|m.vertices|] == init.vertices[..|m.vertices|];
      assert r.indices[..|m.indices|] == init.indices[..|m.indices|];
    }
  }

  /** Appending a tile keeps the merged index list within the merged vertex list. */
  lemma AddTileValid(m: VerticesIndices, tile: TerrainRender, smp: Sample, ti: seq<int>)
    requires IndicesBelow(ti, |tile.vertices|) && IndicesBelow(m.indices, |m.vertices|)
    ensures IndicesBelow(AddTile(m, tile, smp, ti).indices, |AddTile(m, tile, smp, ti).vertices|)
  {
    EmittedValid(KeptMask(tile, smp), |m.vertices|, ti);
  }

  lemma AddTileProper(m: VerticesIndices, tile: TerrainRender, smp: Sample, ti: seq<int>)
    requires IndicesBelow(ti, |tile.vertices|) && ProperTriangles(ti) && ProperTriangles(m.indices)
    ensures ProperTriangles(AddTile(m, tile, smp, ti).indices)
  {
    EmittedProper(KeptMask(tile, smp), |m.vertices|, ti);
    ProperTrianglesAppend(m.indices, Emitted(KeptMask(tile, smp), |m.vertices|, ti));
  }

  lemma {:induction false} TerrainMergeValid(m: VerticesIndices, tiles: seq<TerrainRender>, smp: Sample, ti: seq<int>)
    requires TilesCovered(tiles, ti)
    requires IndicesBelow(m.indices, |m.vertices|)
    ensures IndicesBelow(TerrainMerge(m, tiles, smp, ti).indices, |TerrainMerge(m, tiles, smp, ti).vertices|)
    decreases |tiles|
  {
    if |tiles| != 0 {
      TerrainMergeValid(m, tiles[..|tiles| - 1], smp, ti);
      AddTileValid(TerrainMerge(m, tiles[..|tiles| - 1], smp, ti), tiles[|tiles| - 1], smp, ti);
    }
  }

  lemma {:induction false} TerrainMergeProper(m: VerticesIndices, tiles: seq<TerrainRender>, smp: Sample, ti: seq<int>)
    requires TilesCovered(tiles, ti)
    requires ProperTriangles(ti) && ProperTriangles(m.indices)
    ensures ProperTriangles(TerrainMerge(m, tiles, smp, ti).indices)
    decreases |tiles|
  {
    if |tiles| != 0 {
      TerrainMergeProper(m, tiles[..|tiles| - 1], smp, ti);
      AddTileProper(TerrainMerge(m, tiles[..|tiles| - 1], smp, ti), tiles[|tiles| - 1], smp, ti);
    }
  }

  // ---------------------------------------------------------------- the whole merge

  /** The terrain index list fits every terrain tile the loader would sample. */
  predicate TerrainFits(loader: MapLoader, ti: seq<int>)
  {
    loader.isFieldMap ==> forall k :: 0 <= k < |loader.terrainRenders| ==> TerrainIndicesFit(ti, loader.terrainRenders[k])
  }

  /** GetMergedMesh: all collision shapes first, then, on the field map only, the terrain tiles. */
  function MergedMesh(loader: MapLoader, ti: seq<int>, smp: Sample): VerticesIndices
    requires TerrainFits(loader, ti)
  {
    var collision := CollisionMerge(AllShapes(loader.bakedCollision), smp);
    if loader.isFieldMap then TerrainMerge(collision, loader.terrainRenders, smp, ti) else collision
  }

  /** Every shape of the loader has a valid index list. */
  predicate CollisionValid(loader: MapLoader)
  {
    ShapesValid(AllShapes(loader.bakedCollision))
  }

  /** The merged mesh never addresses a vertex it does not have (in particular, never -1). */
  lemma MergedMeshValid(loader: MapLoader, ti: seq<int>, smp: Sample)
    requires TerrainFits(loader, ti) && CollisionValid(loader)
    ensures IndicesBelow(MergedMesh(loader, ti, smp).indices, |MergedMesh(loader, ti, smp).vertices|)
  {
    var shapes := AllShapes(loader.bakedCollision);
    CollisionIndicesValid(shapes, smp);
    if loader.isFieldMap {
      TerrainMergeValid(CollisionMerge(shapes, smp), loader.terrainRenders, smp, ti);
    }
  }

  /** The merged mesh has no degenerate triangle when its inputs have none. */
  lemma MergedMeshProper(loader: MapLoader, ti: seq<int>, smp: Sample)
    requires TerrainFits(loader, ti)
    requires ShapesProper(AllShapes(loader.bakedCollision))
    requires ProperTriangles(ti)
    ensures ProperTriangles(MergedMesh(loader, ti, smp).indices)
  {
    var shapes := AllShapes(loader.bakedCollision);
    CollisionTrianglesProper(shapes, smp);
    if loader.isFieldMap {
      TerrainMergeProper(CollisionMerge(shapes, smp), loader.terrainRenders, smp, ti);
    }
  }

  /** The collision part comes first: the merged mesh begins with the collision shapes' vertices and indices. */
  lemma MergedMeshStartsWithCollision(loader: MapLoader, ti: seq<int>, smp: Sample)
    requires TerrainFits(loader, ti)
    ensures var c := CollisionMerge(AllShapes(loader.bakedCollision), smp);
      var r := MergedMesh(loader, ti, smp);
      |c.vertices| <= |r.vertices| && r.vertices[..|c.vertices|] == c.vertices &&
      |c.indices| <= |r.indices| && r.indices[..|c.indices|] == c.indices &&
      (!loader.isFieldMap ==> r == c)
  {
    if loader.isFieldMap {
      TerrainMergeExtends(CollisionMerge(AllShapes(loader.bakedCollision), smp), loader.terrainRenders, smp, ti);
    }
  }

  // ---------------------------------------------------------------- the imperative merge

  /** Adds each index of a shape, offset by `vtxBase`, to the merged index list. */
  method AppendShapeIndices(indices: seq<int>, shapeIndices: seq<int>, vtxBase: int) returns (r: seq<int>)
    ensures r == indices + Offset(shapeIndices, vtxBase)
  {
    r := indices;
    for k := 0 to |shapeIndices|
      invariant r == indices + Offset(shapeIndices[..k], vtxBase)
    {
      assert shapeIndices[..k + 1][..k] == shapeIndices[..k];
      r := r + [shapeIndices[k] + vtxBase];
    }
    assert shapeIndices[..|shapeIndices|] == shapeIndices;
  }

  /** The vertex pass over one terrain tile: removed vertices are collected, kept ones appended and numbered. */
  method SampleTileVertices(vertices: seq<Vec3>, tile: TerrainRender, smp: Sample)
    returns (vertices': seq<Vec3>, removedVertices: set<int>, indexMapping: array<int>)
    ensures fresh(indexMapping) && indexMapping.Length == |tile.vertices|
    ensures removedVertices == Removed(KeptMask(tile, smp), |tile.vertices|)
    ensures vertices' ==
      vertices + KeptVertices(KeptMask(tile, smp), NavmeshVertices(tile.transform, tile.vertices, smp), |tile.vertices|)
    ensures forall j :: 0 <= j < indexMapping.Length ==>
      indexMapping[j] == Mapping(KeptMask(tile, smp), |vertices|, j)
  {
    var n := |tile.vertices|;
    ghost var kept := KeptMask(tile, smp);
    ghost var points := NavmeshVertices(tile.transform, tile.vertices, smp);
    removedVertices := {};
    indexMapping := new int[n](_ => -1);
    vertices' := vertices;
    for i := 0 to n
      invariant removedVertices == Removed(kept, i)
      invariant vertices' == vertices + KeptVertices(kept, points, i)
      invariant forall j :: 0 <= j < i ==> indexMapping[j] == Mapping(kept, |vertices|, j)
      invariant forall j :: i <= j < n ==> indexMapping[j] == -1
    {
      var pos := tile.transform.apply(tile.vertices[i]);
      RemovedStep(kept, i);
      if !TerrainInSample(pos, smp) {
        removedVertices := removedVertices + {i};
        continue;
      }
      assert Mapping(kept, |vertices|, i) == |vertices'|;
      indexMapping[i] := |vertices'|;
      vertices' := vertices' + [ToNavmeshSpace(pos, smp)];
    }
  }

  /** Samples one terrain tile into the merged mesh: the vertex pass, then, unless every vertex was removed, the triangle pass. */
  method AppendTerrainTile(vertices: seq<Vec3>, indices: seq<int>, tile: TerrainRender, smp: Sample, ti: seq<int>)
    returns (vertices': seq<Vec3>, indices': seq<int>)
    requires TerrainIndicesFit(ti, tile)
    ensures VerticesIndices(vertices', indices') == AddTile(VerticesIndices(vertices, indices), tile, smp, ti)
  {
    var removedVertices, indexMapping;
    vertices', removedVertices, indexMapping := SampleTileVertices(vertices, tile, smp);
    if |removedVertices| == |tile.vertices| {
      indices' := indices;
      return;
    }
    indices' := AppendTerrainTriangles(indices, KeptMask(tile, smp), |vertices|, ti, removedVertices, indexMapping);
  }

  /** The triangle pass: a triangle with a removed corner is skipped, any other is added through the index mapping. */
  method AppendTerrainTriangles(indices: seq<int>, ghost kept: seq<bool>, base: int, ti: seq<int>,
                                removedVertices: set<int>, indexMapping: array<int>)
    returns (r: seq<int>)
    requires |ti| % 3 == 0 && IndicesBelow(ti, |kept|)
    requires removedVertices == Removed(kept, |kept|)
    requires indexMapping.Length == |kept|
    requires forall j :: 0 <= j < indexMapping.Length ==> indexMapping[j] == Mapping(kept, base, j)
    ensures r == indices + Emitted(kept, base, ti)
  {
    ghost var triangles := |ti| / 3;
    ghost var t := 0;
    r := indices;
    var i := 0;
    while i < |ti|
      invariant i == 3 * t && |ti| == 3 * triangles && t <= triangles
      invariant r == indices + Emitted(kept, base, ti[..i])
    {
      var a, b, c := ti[i + 0], ti[i + 1], ti[i + 2];
      assert ti[..i + 3][..i] == ti[..i];
      assert Emitted(kept, base, ti[..i + 3]) == Emitted(kept, base, ti[..i]) + EmittedTriangle(kept, base, a, b, c);
      if a in removedVertices || b in removedVertices || c in removedVertices {
        i, t := i + 3, t + 1;
        continue;
      }
      r := r + [indexMapping[a]];
      r := r + [indexMapping[b]];
      r := r + [indexMapping[c]];
      i, t := i + 3, t + 1;
    }
    assert ti[..i] == ti;
  }

  /** GetMergedMesh: the collision shapes of every loader, then the terrain tiles on the field map. */
  method GetMergedMesh(loader: MapLoader, ti: seq<int>, navmeshOrigin: Vec3, sampleMin: Vec3, sampleMax: Vec3,
                       terrSamplePadding: real, previewScale: NonZeroReal)
    returns (res: VerticesIndices)
    requires TerrainFits(loader, ti)
    ensures res == MergedMesh(loader, ti, Sample(navmeshOrigin, sampleMin, sampleMax, terrSamplePadding, previewScale))
    ensures CollisionValid(loader) ==> IndicesBelow(res.indices, |res.vertices|)
  {
    var smp := Sample(navmeshOrigin, sampleMin, sampleMax, terrSamplePadding, previewScale);
    var loaders := loader.bakedCollision;
    var vertices: seq<Vec3> := [];
    var indices: seq<int> := [];
    var vtxBase := 0;
    for c := 0 to |loaders|
      invariant vtxBase == |vertices|
      invariant VerticesIndices(vertices, indices) == CollisionMerge(AllShapes(loaders[..c]), smp)
    {
      assert loaders[..c + 1][..c] == loaders[..c];
      var renders := loaders[c].shapeRenders;
      ghost var before := AllShapes(loaders[..c]);
      assert before + renders[..0] == before;
      for k := 0 to |renders|
        invariant vtxBase == |vertices|
        invariant VerticesIndices(vertices, indices) == CollisionMerge(before + renders[..k], smp)
      {
        var render := renders[k];
        assert before + renders[..k + 1] == (before + renders[..k]) + [render];
        CollisionMergeSnoc(before + renders[..k], render, smp);
        if !ShapeInSample(render.transform.position, smp) {
          continue;
        }
        vertices := vertices + NavmeshVertices(render.transform, render.vertices, smp);
        indices := AppendShapeIndices(indices, render.indices, vtxBase);
        vtxBase := |vertices|;
      }
      assert renders[..|renders|] == renders;
    }
    assert loaders[..|loaders|] == loaders;
    if loader.isFieldMap {
      var tiles := loader.terrainRenders;
      ghost var collision := VerticesIndices(vertices, indices);
      for k := 0 to |tiles|
        invariant VerticesIndices(vertices, indices) == TerrainMerge(collision, tiles[..k], smp, ti)
      {
        assert tiles[..k + 1][..k] == tiles[..k];
        vertices, indices := AppendTerrainTile(vertices, indices, tiles[k], smp, ti);
        vtxBase := |vertices|;
      }
      assert tiles[..|tiles|] == tiles;
    }
    res := VerticesIndices(vertices, indices);
    if CollisionValid(loader) {
      MergedMeshValid(loader, ti, smp);
    }
  }

  /**
   * Build: the merged mesh of every navmesh tile of the map, in order, each sampled over its region.
   * These are the meshes handed to the navmesh generator, whose result replaces the tile.
   */
  method Build(loader: MapLoader, ti: seq<int>, previewScale: NonZeroReal) returns (meshes: seq<VerticesIndices>)
    requires TerrainFits(loader, ti)
    ensures |meshes| == |loader.navmesh|
    ensures forall k :: 0 <= k < |meshes| ==>
      meshes[k] == MergedMesh(loader, ti, RegionSample(loader.isFieldMap, loader.navmesh[k].origin, previewScale))
  {
    meshes := [];
    for k := 0 to |loader.navmesh|
      invariant |meshes| == k
      invariant forall j :: 0 <= j < k ==>
        meshes[j] == MergedMesh(loader, ti, RegionSample(loader.isFieldMap, loader.navmesh[j].origin, previewScale))
    {
      var navmeshLoader := loader.navmesh[k];
      var min: Vec3;
      var max: Vec3;
      if loader.isFieldMap {
        min := navmeshLoader.origin.(y := FLOAT_MIN);
        var o := navmeshLoader.origin;
        max := Vec3(o.x + NAVMESH_TILE_EXTENT, o.y + NAVMESH_TILE_EXTENT, o.z + NAVMESH_TILE_EXTENT).(y := FLOAT_MAX);
      } else {
        min := Vec3(FLOAT_MIN, FLOAT_MIN, FLOAT_MIN);
        max := Vec3(FLOAT_MAX, FLOAT_MAX, FLOAT_MAX);
      }
      var mergedMesh := GetMergedMesh(loader, ti, navmeshLoader.origin, min, max, TERRAIN_SAMPLE_PADDING, previewScale);
      meshes := meshes + [mergedMesh];
    }
  }
}
