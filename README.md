# ProjectRito-Botw map editor: collision, water tiles, navmesh merging and the property clipboard

This project models four parts of the ProjectRito-Botw map editor plug-in (UKingLibrary) in Dafny and proves properties of the model. Each part is a sequential, in-memory routine.

- **Collision shape loading** (`collision.dfy`, module `Collision`). `HavokMeshShapeRender.LoadShape` copies the vertices of a decoded Havok compressed-mesh shape. It gives every vertex the shape colour. It splits each quad primitive `(p0, p1, p2, p3)` into the triangles `(p0, p1, p2)` and `(p2, p3, p0)`. It then walks the index list backwards in steps of three and deletes every triangle with two equal corners. The loops are methods proved against the functions `Triangulated` and `WithoutDegenerate`. The lemmas show what the result means:
  - no triangle is degenerate;
  - exactly the non-degenerate input triangles survive, in order;
  - the indices stay valid;
  - the length is the input length minus three per removed triangle.
- **Water tiles** (`terrain.dfy`, module `Terrain`). `WaterRender` builds a 64 x 64 vertex grid for each tile.
  - It decodes the vertices from 8-byte records: 16-bit height, x-flow and z-flow, one skipped byte, then the material byte.
  - It takes each vertex's texture coordinates from the material buffer's 4-byte records and the UV table.
  - It builds the texture-index buffer.
  - It builds the grid index buffer only once and shares it across all tiles through a static field. Here that field is an explicit `IndexBufferCache` object.
  - The decoders are array-filling methods. The proofs cover:
    - round trips against the byte encoders;
    - the layout of the index buffer;
    - its validity for the default tile size;
    - the absence of degenerate grid triangles;
    - the ranges of the texture coordinates.
- **Navmesh merging** (`navmesh.dfy`, module `NavmeshBuild`). `NavmeshBuilder.Build` picks a sample region for each navmesh tile. `GetMergedMesh` then merges into one mesh:
  - every baked collision shape whose position lies in the region (strict lower bound, inclusive upper bound), with its indices offset by the running vertex count;
  - on the field map, the terrain vertices inside the padded region, numbered through an index mapping (-1 marks a removed vertex), plus the terrain triangles that have no removed corner.

  The merged mesh never addresses a vertex it lacks, and it has no degenerate triangle when its inputs have none.
- **Property clipboard** (`property_copier.dfy`, module `PropertyCopying`, with the .NET string helpers in `text_util.dfy`, module `DotNetText`).
  - `PropertyCopier.CopyProperties` writes a `key=value` line for each dictionary entry, skipping the placement keys and list values.
  - `ImportProperties` reads lines that split into exactly two parts on `=`. Keys and values are trimmed, and a later line overrides an earlier one.
  - It then removes every non-reserved key the text does not name. Next it updates existing properties by converting the text to their current type, or adds new properties with an inferred type.
  - The dictionary is a class with `keys` (enumeration order) and `entries` fields, which the methods change in place.
  - The paste is proved key by key against a reference definition, `Outcome`. It is also proved to complete a round trip: pasting a copy back leaves the dictionary unchanged, except that bare lists, which the copy skips, are removed.

Floating-point values are exact reals. Matrix transforms are opaque functions. Float parsing and formatting are a parameter `parseFloat` / the `Float` value's text. The graphics calls are not modelled.

## Model

| member | source | states |
|---|---|---|
| Geometry.Scale | Plugins/UKingLibrary/Terrain/WaterRender.cs:72 | Multiplying a position by a nonzero preview scale is undone by dividing by it. This is the division NavmeshBuilder applies. |
| Geometry.ProperTrianglesAppend | Plugins/UKingLibrary/Tools/NavmeshBuilder.cs:79-86 | Appending one triangle list without degenerate triangles to another gives a list without degenerate triangles. |
| Collision.Triangulated | Plugins/UKingLibrary/Collision/HavokMeshShapeRender.cs:53-63 | Before filtering, the index list holds exactly six indices per quad. |
| Collision.TriangulateQuads | Plugins/UKingLibrary/Collision/HavokMeshShapeRender.cs:53-63 | The triangulation loop produces exactly the quads' triangles in quad order. |
| Collision.TriangulatedLayout | Plugins/UKingLibrary/Collision/HavokMeshShapeRender.cs:56-62 | Quad k contributes p0, p1, p2, p2, p3, p0 at positions 6k .. 6k+5. |
| Collision.TriangulatedBelow | Plugins/UKingLibrary/Collision/HavokMeshShapeRender.cs:56-63 | If every quad corner is below n, so is every triangulated index. |
| Collision.TriangulatedWhole | Plugins/UKingLibrary/Collision/HavokMeshShapeRender.cs:53-63 | The triangulated list holds whole triangles, so the backward pass in steps of three sees only whole triples. |
| Collision.WithoutDegenerate | Plugins/UKingLibrary/Collision/HavokMeshShapeRender.cs:67-79 | Removing degenerate triangles never lengthens the list. |
| Collision.RemoveDegenerateTriangles | Plugins/UKingLibrary/Collision/HavokMeshShapeRender.cs:67-79 | The backward loop with in-place `RemoveRange(i - 2, 3)` leaves exactly the input with its degenerate triangles removed. |
| Collision.BackwardStep | Plugins/UKingLibrary/Collision/HavokMeshShapeRender.cs:67-79 | Moving the scan one triangle back adds that triangle to the filtered suffix exactly when no two of its corners are equal. |
| Collision.DropMiddle | Plugins/UKingLibrary/Collision/HavokMeshShapeRender.cs:78 | Removing the three indices of one triangle leaves what is before it and what is after it, joined. |
| Collision.WithoutDegenerateIsProper | Plugins/UKingLibrary/Collision/HavokMeshShapeRender.cs:67-79 | After the pass, no remaining triangle has two equal indices. |
| Collision.WithoutDegenerateLength | Plugins/UKingLibrary/Collision/HavokMeshShapeRender.cs:67-79 | The pass removes exactly three indices for each degenerate triangle and nothing else. |
| Collision.WithoutDegenerateAppend | Plugins/UKingLibrary/Collision/HavokMeshShapeRender.cs:67-79 | The pass works triangle by triangle and keeps relative order: filtering a concatenation concatenates the filtered parts. |
| Collision.WithoutDegenerateKeeps | Plugins/UKingLibrary/Collision/HavokMeshShapeRender.cs:67-79 | A triangle is in the output if and only if it was in the input and is not degenerate. |
| Collision.WithoutDegenerateBelow | Plugins/UKingLibrary/Collision/HavokMeshShapeRender.cs:67-79 | The pass introduces no index, so index validity is preserved. |
| Collision.TriangulationIndicesValid | Plugins/UKingLibrary/Collision/HavokMeshShapeRender.cs:53-90 | If all quad corners are valid vertex indices, the final buffer is valid, has no degenerate triangle and holds at most six indices per quad. |
| Collision.HavokMeshShapeRender.constructor | Plugins/UKingLibrary/Collision/HavokMeshShapeRender.cs:18-20 | A new shape render has no mesh yet. |
| Collision.HavokMeshShapeRender.LoadShape | Plugins/UKingLibrary/Collision/HavokMeshShapeRender.cs:36-91 | The stored mesh has one vertex per decoded vertex, with its position copied in order and colour (0, 0.5, 1, 0.5). Its indices are the triangulated quads without degenerate triangles. |
| Terrain.RowIndices | Plugins/UKingLibrary/Terrain/WaterRender.cs:208-221 | One row of n cells writes 6n indices. |
| Terrain.GetIndexBuffer | Plugins/UKingLibrary/Terrain/WaterRender.cs:198-224 | The buffer has side * side * 6 entries and holds the cells' indices row by row, cell by cell. |
| Terrain.FillRow | Plugins/UKingLibrary/Terrain/WaterRender.cs:205-221 | The inner loop advances the counter by six per cell and appends each cell's indices after what was written before. |
| Terrain.CellWritten | Plugins/UKingLibrary/Terrain/WaterRender.cs:210-216 | The six writes of one cell extend the written prefix by top, bottom, bottom+1, bottom+1, top+1, top. |
| Terrain.RowsFit | Plugins/UKingLibrary/Terrain/WaterRender.cs:200 | The rows written so far fit in the allocated side * side * 2 * 3 slots. |
| Terrain.GridIndicesLength | Plugins/UKingLibrary/Terrain/WaterRender.cs:200-223 | The first `rows` rows are 6 * side * rows indices, so the counter ends exactly at the buffer length. |
| Terrain.RowIndicesAt | Plugins/UKingLibrary/Terrain/WaterRender.cs:208-219 | Cell x of a row occupies the six slots at offset 6x within the row. |
| Terrain.GridIndicesAt | Plugins/UKingLibrary/Terrain/WaterRender.cs:203-222 | For cell (x, y), the entries at 6 * (y * side + x) are top, bottom, bottom+1, bottom+1, top+1, top, where top = y * tileLength + x and bottom = (y + 1) * tileLength + x. |
| Terrain.CellTrianglesProper | Plugins/UKingLibrary/Terrain/WaterRender.cs:210-216 | Both triangles of a cell have three distinct corners. |
| Terrain.RowTrianglesProper | Plugins/UKingLibrary/Terrain/WaterRender.cs:208-221 | No triangle of a row is degenerate. |
| Terrain.GridTrianglesProper | Plugins/UKingLibrary/Terrain/WaterRender.cs:203-222 | No triangle of the grid is degenerate. |
| Terrain.CellIndicesInTile | Plugins/UKingLibrary/Terrain/WaterRender.cs:205-219 | With fewer cells per side than vertices per row, a cell's corners are vertices of the tile. |
| Terrain.RowIndicesInTile | Plugins/UKingLibrary/Terrain/WaterRender.cs:208-221 | Every index of a row is below tileLength * tileLength. |
| Terrain.GridIndicesInTileRows | Plugins/UKingLibrary/Terrain/WaterRender.cs:203-222 | Every index of the first rows is below tileLength * tileLength. |
| Terrain.GridIndicesInTile | Plugins/UKingLibrary/Terrain/WaterRender.cs:198-223 | Every index of the grid is below tileLength * tileLength. |
| Terrain.DefaultIndexBuffer | Plugins/UKingLibrary/Terrain/WaterRender.cs:198-223 | With the defaults (63 cells per side, 64 vertices per row), the buffer has 23814 entries, all below MAP_TILE_SIZE = 4096, and no degenerate triangle. |
| Terrain.ReadUInt16RoundTrip | Plugins/UKingLibrary/Terrain/WaterRender.cs:135-136 | The 16-bit read, taken as little-endian, is a bijection between a value and its two bytes. |
| Terrain.TileCoordinates | Plugins/UKingLibrary/Terrain/WaterRender.cs:129-150 | The running vertex index k = 64y + x decodes back to column x and row y. |
| Terrain.GridPositionInUnitSquare | Plugins/UKingLibrary/Terrain/WaterRender.cs:144 | Each vertex lies in the unit square centred on the origin, and only the first and last columns and rows are on its edges. |
| Terrain.GetWaterTerrainVertices | Plugins/UKingLibrary/Terrain/WaterRender.cs:123-155 | Exactly MAP_TILE_SIZE vertices are decoded. Vertex k is decoded from its 8-byte record at offset 8k. |
| Terrain.GetTerrainVertices | Plugins/UKingLibrary/Terrain/WaterRender.cs:103-121 | Exactly MAP_TILE_SIZE positions are decoded. Vertex k is at the height of the 16-bit sample at offset 2k. |
| Terrain.WaterRecordFields | Plugins/UKingLibrary/Terrain/WaterRender.cs:135-139 | The fields of a record read back from its own eight bytes. Byte 6 is skipped and byte 7 is the material. |
| Terrain.ReadWaterField | Plugins/UKingLibrary/Terrain/WaterRender.cs:133-150 | Reads within record k of a buffer of records see only that record's bytes. |
| Terrain.WaterRecordsRoundTrip | Plugins/UKingLibrary/Terrain/WaterRender.cs:130-150 | Decoding vertex k of a buffer of records gives back record k's height, both flow rates and material index, at grid position k. |
| Terrain.WaterFieldsRoundTrip | Plugins/UKingLibrary/Terrain/WaterRender.cs:135-139 | The reader at offset 8k, 8k+2, 8k+4 and byte 8k+7 yields the fields of record k. |
| Terrain.HeightSampleRoundTrip | Plugins/UKingLibrary/Terrain/WaterRender.cs:114 | The 16-bit read at offset 2k of a buffer of samples is sample k. |
| Terrain.HeightsRoundTrip | Plugins/UKingLibrary/Terrain/WaterRender.cs:109-117 | Decoding terrain vertex k puts it at sample k's height, at grid position k. |
| Terrain.UvCoordinateRange | Plugins/UKingLibrary/Terrain/WaterRender.cs:178-190 | A texture coordinate runs from 0 at the first column or row to 100 * scale at the last one, and reaches those ends only there. |
| Terrain.GetTexCoords | Plugins/UKingLibrary/Terrain/WaterRender.cs:165-196 | One coordinate per vertex. Vertex k uses material bytes 4k and 4k+1 and the UV table's slots 2m and 2m+1 for material m. |
| Terrain.TexCoordRange | Plugins/UKingLibrary/Terrain/WaterRender.cs:179-190 | Each of the four coordinates of a vertex lies between 0 and 100 times the UV scale of its material. x and y use material byte 4k, and z and w use byte 4k+1. Each end is reached exactly on the tile's edges. |
| Terrain.NormalizedCoordinate | Plugins/UKingLibrary/Terrain/WaterRender.cs:175-178 | x / 63 and y / 63 lie in 0 .. 1, and are 0 or 1 exactly at the first and last column or row. |
| Terrain.RepeatRange | Plugins/UKingLibrary/Terrain/WaterRender.cs:186-190 | Scaling a 0 .. 1 coordinate by 100 * scale covers 0 .. 100 * scale, with the ends preserved. |
| Terrain.GetTexIndexBuffer | Plugins/UKingLibrary/Terrain/WaterRender.cs:226-238 | There are materialBuffer.Length / 4 entries. Entry k is (TEXTURE_INDEX_MAP[mb[4k]], TEXTURE_INDEX_MAP[mb[4k+1]], mb[4k+2]). |
| Terrain.TexIndexInArray | Plugins/UKingLibrary/Terrain/WaterRender.cs:232-235 | Both texture indices name one of the 83 texture array slots, and the blend value is a byte. |
| Terrain.IndexBufferCache.constructor | Plugins/UKingLibrary/Terrain/WaterRender.cs:31 | The shared index buffer starts out null. |
| Terrain.ComposeVertices | Plugins/UKingLibrary/Terrain/WaterRender.cs:67-77 | Vertex k is decoded position k scaled by the preview scale, with material k and texture coordinates k. |
| Terrain.WaterRender.constructor | Plugins/UKingLibrary/Terrain/WaterRender.cs:43-50 | A new water render has no mesh, and it holds the texture index and UV tables. |
| Terrain.WaterRender.LoadWaterData | Plugins/UKingLibrary/Terrain/WaterRender.cs:52-85 | The mesh holds the MAP_TILE_SIZE composed vertices and the shared index buffer. The buffer is built only when the cache is null and is reused unchanged otherwise. Every index addresses a vertex of the tile, and no triangle is degenerate. |
| NavmeshBuild.Unscaled | Plugins/UKingLibrary/Tools/NavmeshBuilder.cs:65-70 | Dividing a render position by the preview scale gives the map position that scales back to it. |
| NavmeshBuild.ToNavmeshSpace | Plugins/UKingLibrary/Tools/NavmeshBuilder.cs:76-79 | The merged position is the render position with the translation by origin * PreviewScale undone, then divided by PreviewScale. |
| NavmeshBuild.FieldRegionIsColumn | Plugins/UKingLibrary/Tools/NavmeshBuilder.cs:33-39 | On the field map, a collision shape at any finite height is sampled exactly when it stands over the open-closed square origin .. origin + 250 on X and Z. |
| NavmeshBuild.FieldRegionTerrain | Plugins/UKingLibrary/Tools/NavmeshBuilder.cs:105-110 | On the field map, a terrain vertex is kept exactly when it lies over the tile square widened by 5 on every side, both ends included. |
| NavmeshBuild.OpenRegionTakesAll | Plugins/UKingLibrary/Tools/NavmeshBuilder.cs:40-44 | On other maps, only a coordinate at or below float.MinValue, or beyond float.MaxValue, excludes a shape. |
| NavmeshBuild.NavmeshVertices | Plugins/UKingLibrary/Tools/NavmeshBuilder.cs:79 | An included shape contributes exactly its own vertex count. |
| NavmeshBuild.Offset | Plugins/UKingLibrary/Tools/NavmeshBuilder.cs:81-84 | An included shape contributes exactly its own index count. |
| NavmeshBuild.OffsetAt | Plugins/UKingLibrary/Tools/NavmeshBuilder.cs:81-84 | Each added index is the shape's index plus vtxBase. |
| NavmeshBuild.OffsetBelow | Plugins/UKingLibrary/Tools/NavmeshBuilder.cs:79-86 | Offsetting valid shape indices by vtxBase addresses exactly the vertices the shape appended. |
| NavmeshBuild.OffsetProper | Plugins/UKingLibrary/Tools/NavmeshBuilder.cs:81-84 | Offsetting keeps every triangle's corners distinct. |
| NavmeshBuild.CollisionMergeSnoc | Plugins/UKingLibrary/Tools/NavmeshBuilder.cs:61-88 | Shapes are merged one after another, each against the mesh the earlier shapes built. |
| NavmeshBuild.AddShapeValid | Plugins/UKingLibrary/Tools/NavmeshBuilder.cs:79-86 | Appending a valid shape keeps every merged index below the merged vertex count. |
| NavmeshBuild.CollisionIndicesValid | Plugins/UKingLibrary/Tools/NavmeshBuilder.cs:61-88 | If every shape's indices are below its own vertex count, every merged collision index is below the merged vertex count. |
| NavmeshBuild.CollisionTrianglesProper | Plugins/UKingLibrary/Tools/NavmeshBuilder.cs:61-88 | Merging shapes without degenerate triangles gives none. |
| NavmeshBuild.KeptMask | Plugins/UKingLibrary/Tools/NavmeshBuilder.cs:98-114 | There is one keep-or-remove decision per tile vertex. |
| NavmeshBuild.KeptVertices | Plugins/UKingLibrary/Tools/NavmeshBuilder.cs:119-120 | A tile appends exactly one position per kept vertex. |
| NavmeshBuild.RemovedStep | Plugins/UKingLibrary/Tools/NavmeshBuilder.cs:105-114 | removedVertices grows by vertex i exactly when i fails the padded test. |
| NavmeshBuild.RemovedCount | Plugins/UKingLibrary/Tools/NavmeshBuilder.cs:98-126 | Every vertex is either removed or kept, so the removed count is the vertex count minus the kept count. |
| NavmeshBuild.KeptCountGrows | Plugins/UKingLibrary/Tools/NavmeshBuilder.cs:119 | A kept vertex is counted in every longer prefix. |
| NavmeshBuild.MappingLocatesVertex | Plugins/UKingLibrary/Tools/NavmeshBuilder.cs:119-120 | The mapping of a kept vertex points at that vertex's own transformed position in the merged list. |
| NavmeshBuild.MappingIncreasing | Plugins/UKingLibrary/Tools/NavmeshBuilder.cs:119 | Kept vertices get increasing new indices, so the mapping is injective. |
| NavmeshBuild.EmittedValid | Plugins/UKingLibrary/Tools/NavmeshBuilder.cs:129-141 | No emitted terrain index is -1. Every one addresses a vertex the tile appended. |
| NavmeshBuild.EmittedProper | Plugins/UKingLibrary/Tools/NavmeshBuilder.cs:129-141 | Remapping drops triangles but never makes one degenerate. |
| NavmeshBuild.AddTile | Plugins/UKingLibrary/Tools/NavmeshBuilder.cs:126-127 | A tile whose vertices were all removed leaves the merged mesh unchanged. |
| NavmeshBuild.TerrainMergeExtends | Plugins/UKingLibrary/Tools/NavmeshBuilder.cs:90-145 | Terrain only appends: the collision part stays in front, unchanged. |
| NavmeshBuild.AddTileValid | Plugins/UKingLibrary/Tools/NavmeshBuilder.cs:92-144 | Appending a tile keeps every merged index below the merged vertex count. |
| NavmeshBuild.AddTileProper | Plugins/UKingLibrary/Tools/NavmeshBuilder.cs:92-144 | Appending a tile adds no degenerate triangle. |
| NavmeshBuild.TerrainMergeValid | Plugins/UKingLibrary/Tools/NavmeshBuilder.cs:90-145 | After all terrain tiles, every merged index is below the merged vertex count. |
| NavmeshBuild.TerrainMergeProper | Plugins/UKingLibrary/Tools/NavmeshBuilder.cs:90-145 | After all terrain tiles, no merged triangle is degenerate. |
| NavmeshBuild.MergedMeshValid | Plugins/UKingLibrary/Tools/NavmeshBuilder.cs:57-148 | The merged mesh never addresses a vertex it does not have, and in particular never -1. |
| NavmeshBuild.MergedMeshProper | Plugins/UKingLibrary/Tools/NavmeshBuilder.cs:57-148 | The merged mesh has no degenerate triangle when neither the shapes nor the terrain index list have one. |
| NavmeshBuild.MergedMeshStartsWithCollision | Plugins/UKingLibrary/Tools/NavmeshBuilder.cs:61-92 | Collision shapes come first, and terrain is added only on the field map. |
| NavmeshBuild.AppendShapeIndices | Plugins/UKingLibrary/Tools/NavmeshBuilder.cs:81-84 | The index loop appends the shape's indices offset by vtxBase. |
| NavmeshBuild.SampleTileVertices | Plugins/UKingLibrary/Tools/NavmeshBuilder.cs:95-121 | The vertex loop collects exactly the failing vertices in removedVertices and appends the kept ones in order. indexMapping[i] is the merged position of vertex i, or -1. |
| NavmeshBuild.AppendTerrainTriangles | Plugins/UKingLibrary/Tools/NavmeshBuilder.cs:129-141 | The triangle loop skips every triangle with a removed corner and appends the others through the mapping. |
| NavmeshBuild.AppendTerrainTile | Plugins/UKingLibrary/Tools/NavmeshBuilder.cs:92-144 | One tile is the vertex pass followed, unless every vertex was removed, by the triangle pass. |
| NavmeshBuild.GetMergedMesh | Plugins/UKingLibrary/Tools/NavmeshBuilder.cs:57-148 | The merged mesh is the collision shapes of every loader, then the field map's terrain tiles. Its indices are valid whenever the shapes' indices are. |
| NavmeshBuild.Build | Plugins/UKingLibrary/Tools/NavmeshBuilder.cs:26-52 | One merged mesh per navmesh tile, in order, each sampled over that tile's region with padding 5. |
| DotNetText.Trim | Plugins/UKingLibrary/UI/PropertyCopier.cs:73-74 | A trimmed key or value neither starts nor ends with white space. |
| DotNetText.TrimIdempotent | Plugins/UKingLibrary/UI/PropertyCopier.cs:73-74 | Trimming a trimmed key or value changes nothing. |
| DotNetText.SplitOn | Plugins/UKingLibrary/UI/PropertyCopier.cs:70 | Split gives at least one piece, and no piece holds a separator. |
| DotNetText.SplitJoin | Plugins/UKingLibrary/UI/PropertyCopier.cs:70 | Splitting on '=' loses nothing: the pieces joined with '=' give back the line. |
| DotNetText.SplitCount | Plugins/UKingLibrary/UI/PropertyCopier.cs:70-71 | A line splits into exactly two parts if and only if it holds exactly one '='. |
| DotNetText.RemoveEmpty | Plugins/UKingLibrary/UI/PropertyCopier.cs:62 | RemoveEmptyEntries leaves no empty line. |
| DotNetText.JoinLinesSnoc | Plugins/UKingLibrary/UI/PropertyCopier.cs:28 | AppendLine adds the line followed by a line break. |
| DotNetText.SplitJoinLines | Plugins/UKingLibrary/UI/PropertyCopier.cs:62 | Splitting on CR and LF the text written by AppendLine gives back the lines, if none is empty or holds a line break. |
| DotNetText.ParseBool | Plugins/UKingLibrary/UI/PropertyCopier.cs:129 | bool.Parse accepts only "true" or "false" in any case, after trimming. |
| DotNetText.BoolRoundTrip | Plugins/UKingLibrary/UI/PropertyCopier.cs:127-130 | A rendered boolean parses back to itself. |
| DotNetText.ParseInteger | Plugins/UKingLibrary/UI/PropertyCopier.cs:131 | A successful parse lies in the target type's range. |
| DotNetText.FormatInteger | Plugins/UKingLibrary/UI/PropertyCopier.cs:27 | An integer renders as a minus sign, present exactly for negative values, followed by decimal digits only. |
| DotNetText.IntegerRoundTrip | Plugins/UKingLibrary/UI/PropertyCopier.cs:131-133 | Every integer of the target range survives ToString followed by Parse. |
| PropertyCopying.ConvertValue | Plugins/UKingLibrary/UI/PropertyCopier.cs:215-245 | A successful conversion has the target type. For float, double, int, uint, long, ulong and bool, the result is null exactly when that type's parse fails, and otherwise it is the parsed value. A string target returns the text itself. An unhandled type gives null. |
| PropertyCopying.Infer | Plugins/UKingLibrary/UI/PropertyCopier.cs:164-183 | A new property is null if and only if the text is "null", and a boolean if and only if it is true/false in any case. Otherwise the first that applies: an int, then a single-precision float, then the text itself. These five are the only possible results. |
| PropertyCopying.InferBoolIsParse | Plugins/UKingLibrary/UI/PropertyCopier.cs:168-170 | The boolean chosen by the lower-case test is what bool.Parse returns. |
| PropertyCopying.UpdatedKeepsType | Plugins/UKingLibrary/UI/PropertyCopier.cs:119-153 | "null" always clears an existing property, and nothing else does. A typed property keeps its type. |
| PropertyCopying.ExportLines | Plugins/UKingLibrary/UI/PropertyCopier.cs:16-34 | At most one line is written per key. |
| PropertyCopying.ExportLinesShape | Plugins/UKingLibrary/UI/PropertyCopier.cs:16-34 | Each written line is non-empty and holds no line break when the keys and values are clean. |
| PropertyCopying.FilterOut | Plugins/UKingLibrary/UI/PropertyCopier.cs:81 | keysToRemove holds exactly the dictionary's keys outside the set. |
| PropertyCopying.WithoutAt | Plugins/UKingLibrary/UI/PropertyCopier.cs:88 | Removing a set of keys deletes exactly those keys and leaves every other entry as it was. |
| PropertyCopying.WithoutValid | Plugins/UKingLibrary/UI/PropertyCopier.cs:88 | Removing keys keeps the order and the entries in agreement. |
| PropertyCopying.ParseLine | Plugins/UKingLibrary/UI/PropertyCopier.cs:70-76 | A line is used if and only if it holds exactly one '='. |
| PropertyCopying.ParseLines | Plugins/UKingLibrary/UI/PropertyCopier.cs:67-77 | The import table is well formed: each key appears once in its order. |
| PropertyCopying.ParseLinesAbsent | Plugins/UKingLibrary/UI/PropertyCopier.cs:67-77 | A key that no usable line names is not in the table. |
| PropertyCopying.ParseLinesLastWins | Plugins/UKingLibrary/UI/PropertyCopier.cs:75 | The last usable line naming a key decides its value. |
| PropertyCopying.AbsentAmongKept | Plugins/UKingLibrary/UI/PropertyCopier.cs:80-91 | The removal loop drops exactly the non-reserved keys the text does not name. |
| PropertyCopying.ImportTableOf | Plugins/UKingLibrary/UI/PropertyCopier.cs:62-77 | The table built from the text is well formed. |
| PropertyCopying.ApplyImportOther | Plugins/UKingLibrary/UI/PropertyCopier.cs:95-189 | Importing one pair touches only its own key. |
| PropertyCopying.ApplyImportsAt | Plugins/UKingLibrary/UI/PropertyCopier.cs:95-189 | After the import loop, each imported key is as its own pair left it, whatever came before or after. |
| PropertyCopying.ApplyImportsValid | Plugins/UKingLibrary/UI/PropertyCopier.cs:95-189 | The import loop keeps the dictionary well formed. |
| PropertyCopying.ImportByKey | Plugins/UKingLibrary/UI/PropertyCopier.cs:52-189 | After a paste, key by key, the dictionary is exactly `Outcome`. A reserved key keeps its entry. A key the text does not name is gone. A new key holds an inferred property. A bare value is untouched. A property holds its converted value, or its old one if the conversion failed. |
| PropertyCopying.ImportValid | Plugins/UKingLibrary/UI/PropertyCopier.cs:52-189 | A paste keeps the dictionary well formed. |
| PropertyCopying.ReservedKeysUntouched | Plugins/UKingLibrary/UI/PropertyCopier.cs:80-107 | !Parameters, Scale, Translate and Rotate are neither removed nor changed, even when the text names them. |
| PropertyCopying.ParseExportLine | Plugins/UKingLibrary/UI/PropertyCopier.cs:70-76 | The line written for a clean key and value parses back to that key and value. |
| PropertyCopying.ExportTable | Plugins/UKingLibrary/UI/PropertyCopier.cs:62-77 | Parsing the lines of a copy yields, for each exported key, its rendered value, and nothing else. |
| PropertyCopying.RoundTripAt | Plugins/UKingLibrary/UI/PropertyCopier.cs:52-189 | Key by key, pasting a copy's table leaves every key as before, except that non-reserved bare lists are removed. |
| PropertyCopying.CopyPasteRoundTrip | Plugins/UKingLibrary/UI/PropertyCopier.cs:12-189 | Pasting a copy of a dictionary back into it changes nothing, except removing the bare lists the copy skipped, unless the copy was empty. |
| PropertyCopying.SameEverywhere | Plugins/UKingLibrary/UI/PropertyCopier.cs:52-189 | Two dictionaries that agree at every key are equal. |
| PropertyCopying.FormatIntegerClean | Plugins/UKingLibrary/UI/PropertyCopier.cs:27 | A rendered integer holds no '=', no line break and no surrounding white space, and is not "null". |
| PropertyCopying.Int32ValueClean | Plugins/UKingLibrary/UI/PropertyCopier.cs:221-222 | An int renders to text that converts back to it, so an int property survives copy and paste. |
| PropertyCopying.UInt32ValueClean | Plugins/UKingLibrary/UI/PropertyCopier.cs:223-224 | A uint renders to text that converts back to it, so a uint property survives copy and paste. |
| PropertyCopying.Int64ValueClean | Plugins/UKingLibrary/UI/PropertyCopier.cs:231-232 | A long renders to text that converts back to it, so a long property survives copy and paste. |
| PropertyCopying.UInt64ValueClean | Plugins/UKingLibrary/UI/PropertyCopier.cs:233-234 | A ulong renders to text that converts back to it, so a ulong property survives copy and paste. |
| PropertyCopying.IntegerValueClean | Plugins/UKingLibrary/UI/PropertyCopier.cs:215-245 | An integer of any width converts back from its rendering, so an integer property survives copy and paste unchanged. |
| PropertyCopying.BoolValueClean | Plugins/UKingLibrary/UI/PropertyCopier.cs:225-226 | A boolean converts back from its rendering, so it survives copy and paste as a property or as a bare value. |
| PropertyCopying.NullValueClean | Plugins/UKingLibrary/UI/PropertyCopier.cs:119-122 | A null value renders as "null" and is pasted back as null. |
| PropertyCopying.StringValueClean | Plugins/UKingLibrary/UI/PropertyCopier.cs:227-228 | A clean string property survives copy and paste, except the string "null", which comes back as null. |
| PropertyCopying.PropertyDictionary.constructor | Plugins/UKingLibrary/UI/PropertyCopier.cs:52 | The dictionary holds the given order and entries. |
| PropertyCopying.PropertyDictionary.Remove | Plugins/UKingLibrary/UI/PropertyCopier.cs:88 | Removes the key from the entries and from the enumeration order, and nothing else. |
| PropertyCopying.PropertyDictionary.Add | Plugins/UKingLibrary/UI/PropertyCopier.cs:185 | Adds a new key with its entry, enumerated last. |
| PropertyCopying.PropertyDictionary.SetValue | Plugins/UKingLibrary/UI/PropertyCopier.cs:146 | Replaces the value of the property under the key, and nothing else. |
| PropertyCopying.CopyProperties | Plugins/UKingLibrary/UI/PropertyCopier.cs:12-50 | The clipboard text is a `key=value` line per entry in dictionary order, with reserved keys and lists skipped and null rendered as "null". |
| PropertyCopying.CollectImports | Plugins/UKingLibrary/UI/PropertyCopier.cs:67-77 | The collection loop builds exactly the table of the usable lines. |
| PropertyCopying.RemoveAbsent | Plugins/UKingLibrary/UI/PropertyCopier.cs:80-91 | The removal loop removes exactly the non-reserved keys the text does not name. |
| PropertyCopying.ImportOne | Plugins/UKingLibrary/UI/PropertyCopier.cs:97-188 | One pass of the import loop applies one parsed pair. |
| PropertyCopying.ImportProperties | Plugins/UKingLibrary/UI/PropertyCopier.cs:52-213 | Empty text leaves the dictionary unchanged. Otherwise the dictionary becomes the import result, which ImportByKey characterises key by key. |

## Left out

- Normals: `DrawingHelper.CalculateNormals` is not part of this model, so vertex normals are not modelled in LoadShape or LoadWaterData.
- Frustum-culling bounds (`BoundingBox.FromVertices`, `Bounding.Radius`) are not modelled.
- The `DrawModel` methods, `LoadWaterTextures`, the shaders and every other OpenGL call are graphics I/O and are left out.
- `shape.ToMesh()` is a decoder that is not part of this model. Its result is the `MeshContainer` input of LoadShape.
- Floating-point arithmetic is modelled as exact reals: positions, heights times MAP_HEIGHT_SCALE, UV scaling and the preview-scale division. Rounding and the float-counter loops are therefore not captured.
- Matrix transforms (transpose, inverse, multiplication) are opaque functions of a render's transform. Only the inverse translation by the navmesh origin is written out.
- `GLContext.PreviewScale` is a parameter, assumed nonzero.
- The terrain index list `Rendering.TerrainRender.Indices` is an input to GetMergedMesh. It must hold whole triangles below every tile's vertex count.
- The texture index and UV tables are fields of WaterRender. The decoders take them as parameters together with the range facts those tables satisfy.
- Reads past the end of a buffer throw in the source. Here they are preconditions on the decoders.
- `hkaiNavMeshBuilder.BuildRoot` and `navmeshLoader.Replace` are not part of this model. Build returns the merged meshes it would pass on.
- `FileReader` disposal and stream position are not modelled. Reads are offsets into the byte sequence.
- `FileReader` is not part of this model, so its byte order cannot be read from the code. `ReadUInt16` assumes the reader is little-endian, and every decoding lemma depends on that assumption.
- Indexing `TEXTURE_UV_MAP` or `TEXTURE_INDEX_MAP` with a material byte of 88 or more throws in the source. GetTexCoords and GetTexIndexBuffer instead require every material byte they read to be below 88 (`MaterialPairKnown`).
- Clipboard access, the success and error dialogs, the debug StringBuilder log and the `anyUpdated` flag only affect the user interface, so they are left out.
- The exception handler of ImportProperties is left out: no modelled step throws, because conversion failures are modelled as null results.
- A null text is treated as the empty string.
- `dynamic` runtime typing becomes the `Value` union. The eight types ConvertValue handles have their own cases, and any other type is `Other`.
- `MapData.Property` is a reference whose `Value` the paste sets in place. The model replaces the dictionary entry, which is equivalent unless another holder aliases the same property object.
- A .NET Dictionary reuses the slots freed by Remove, so after removals an added key can enumerate before existing ones. The model appends added keys last.
- float and double parsing and formatting (and culture-dependent number formats) are the parameter `parseFloat` and a float value's text. Integer parsing models the invariant-culture sign and digit rules but not NUL trimming.
- `ToLower` is modelled for ASCII letters only.
- The line break AppendLine writes is "\r\n".
- PropertyCopying.CopyPasteRoundTrip holds only when every exported key and rendered value is clean: no '=', no line break, no surrounding white space. A string "null" comes back as null (see StringValueClean). Floats depend on `parseFloat`.
