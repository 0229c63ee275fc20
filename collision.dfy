/**
 * Loading of a Havok compressed-mesh collision shape for display and navmesh merging
 * (HavokMeshShapeRender.LoadShape): the decoded vertices are copied, every quad primitive
 * (p0, p1, p2, p3) is split into the triangles (p0, p1, p2) and (p2, p3, p0), and a backward
 * pass in steps of three then deletes every triangle with two equal corner indices.
 */
module Collision {
  import opened Geometry
  import opened Wrappers

  /** A primitive of the decoded mesh: four corner indices. */
  datatype Quad = Quad(p0: int, p1: int, p2: int, p3: int)

  /** The decoded mesh handed over by the shape decoder (`shape.ToMesh()`). */
  datatype MeshContainer = MeshContainer(vertices: seq<Vec3>, primitives: seq<Quad>)

  /** HavokMeshShapeVertex without its normal (the normal estimator is not part of this model). */
  datatype ShapeVertex = ShapeVertex(position: Vec3, vertexColor: Vec4)

  /** The render mesh that LoadShape stores: vertex array and triangle index array. */
  datatype RenderMesh = RenderMesh(vertices: seq<ShapeVertex>, indices: seq<int>)

  /** The colour every collision vertex is given. */
  const ShapeColor := Vec4(0.0, 0.5, 1.0, 0.5)

  /** The six indices one quad contributes before filtering. */
  function QuadTriangles(q: Quad): seq<int>
  {
    [q.p0, q.p1, q.p2, q.p2, q.p3, q.p0]
  }

  /** All four corners of `q` refer to one of `n` vertices. */
  predicate CornersBelow(q: Quad, n: int)
  {
    0 <= q.p0 < n && 0 <= q.p1 < n && 0 <= q.p2 < n && 0 <= q.p3 < n
  }

  /** The index list after the triangulation loop: the quads' triangles in quad order. */
  function Triangulated(quads: seq<Quad>): (r: seq<int>)
    ensures |r| == 6 * |quads|
  {
    if quads == [] then [] else Triangulated(quads[..|quads| - 1]) + QuadTriangles(quads[|quads| - 1])
  }

  /** The triangle list `s` with every degenerate triangle taken out (fewer than three
      trailing indices, which form no triangle, are left as they are). */
  function WithoutDegenerate(s: seq<int>): (r: seq<int>)
    ensures |r| <= |s|
  {
    if |s| < 3 then s
    else (if Degenerate(s[0], s[1], s[2]) then [] else s[..3]) + WithoutDegenerate(s[3..])
  }

  /** The triangles of an index list, as triples. */
  function Triangles(s: seq<int>): seq<(int, int, int)>
  {
    if |s| < 3 then [] else [(s[0], s[1], s[2])] + Triangles(s[3..])
  }

  /** The number of degenerate triangles of `s`. */
  function DegenerateCount(s: seq<int>): nat
  {
    if |s| < 3 then 0 else (if Degenerate(s[0], s[1], s[2]) then 1 else 0) + DegenerateCount(s[3..])
  }

  // ---------------------------------------------------------------------------------------
  // Triangulation

  /** The loop that expands every quad into two triangles. */
  method TriangulateQuads(primitives: seq<Quad>) returns (indices: seq<int>)
    ensures indices == Triangulated(primitives)
  {
    indices := [];
    for i := 0 to |primitives|
      invariant indices == Triangulated(primitives[..i])
    {
      assert primitives[..i + 1][..i] == primitives[..i];
      indices := indices + [primitives[i].p0];
      indices := indices + [primitives[i].p1];
      indices := indices + [primitives[i].p2];

      indices := indices + [primitives[i].p2];
      indices := indices + [primitives[i].p3];
      indices := indices + [primitives[i].p0];
    }
    assert primitives[..|primitives|] == primitives;
  }

  /** Before filtering there are six indices per quad, and quad k's are p0, p1, p2, p2, p3, p0 at 6k. */
  lemma {:induction false} TriangulatedLayout(quads: seq<Quad>, k: nat, j: nat)
    requires k < |quads| && j < 6
    ensures Triangulated(quads)[6 * k + j] == QuadTriangles(quads[k])[j]
    decreases |quads|
  {
    var init := quads[..|quads| - 1];
    if k < |quads| - 1 {
      TriangulatedLayout(init, k, j);
    }
  }

  /** Every index of the triangulated list is a corner of one of the quads. */
  lemma {:induction false} TriangulatedBelow(quads: seq<Quad>, n: int)
    requires forall k :: 0 <= k < |quads| ==> CornersBelow(quads[k], n)
    ensures IndicesBelow(Triangulated(quads), n)
    decreases |quads|
  {
    if quads != [] {
      TriangulatedBelow(quads[..|quads| - 1], n);
      assert CornersBelow(quads[|quads| - 1], n);
    }
  }

  // ---------------------------------------------------------------------------------------
  // Degenerate-triangle removal

  /** The backward pass: scanning from the last triangle to the first, a triangle with two equal
      indices is deleted in place (`RemoveRange(i - 2, 3)`). */
  method RemoveDegenerateTriangles(triangulated: seq<int>) returns (indices: seq<int>)
    requires |triangulated| % 3 == 0
    ensures indices == WithoutDegenerate(triangulated)
  {
    indices := triangulated;
    var i := |indices| - 1;
    ghost var triangles := |triangulated| / 3;
    while i >= 0
      invariant -1 <= i < |triangulated| && i + 1 == 3 * triangles
      invariant indices == triangulated[..i + 1] + WithoutDegenerate(triangulated[i + 1..])
    {
      ghost var pre, tri, rest := triangulated[..i - 2], triangulated[i - 2..i + 1], WithoutDegenerate(triangulated[i + 1..]);
      BackwardStep(triangulated, i + 1);
      assert triangulated[..i + 1] == pre + tri;
      assert indices == pre + tri + rest;
      var removeTri := false;
      if indices[i] == indices[i - 1] {
        removeTri := true;
      } else if indices[i] == indices[i - 2] {
        removeTri := true;
      } else if indices[i - 1] == indices[i - 2] {
        removeTri := true;
      }

      if removeTri {
        DropMiddle(pre, tri, rest);
        indices := indices[..i - 2] + indices[i + 1..];
      }
      i := i - 3;
      triangles := triangles - 1;
    }
  }

  /** Cutting the three indices after `pre` out of pre + tri + rest leaves pre + rest. */
  lemma DropMiddle(pre: seq<int>, tri: seq<int>, rest: seq<int>)
    requires |tri| == 3
    ensures (pre + tri + rest)[..|pre|] + (pre + tri + rest)[|pre| + 3..] == pre + rest
  {
    var s := pre + tri + rest;
    assert s[..|pre|] == pre;
    assert s[|pre| + 3..] == rest;
  }

  /** Filtering the suffix that starts one triangle earlier adds that triangle, unless it is
      degenerate. */
  lemma BackwardStep(s: seq<int>, j: nat)
    requires 3 <= j <= |s|
    ensures WithoutDegenerate(s[j - 3..]) ==
      (if Degenerate(s[j - 3], s[j - 2], s[j - 1]) then [] else s[j - 3..j]) + WithoutDegenerate(s[j..])
  {
    assert s[j - 3..][3..] == s[j..];
    assert s[j - 3..][..3] == s[j - 3..j];
  }

  /** No triangle left after the backward pass is degenerate. */
  lemma {:induction false} WithoutDegenerateIsProper(s: seq<int>)
    requires |s| % 3 == 0
    ensures ProperTriangles(WithoutDegenerate(s))
    decreases |s|
  {
    if 3 <= |s| {
      WithoutDegenerateIsProper(s[3..]);
      if !Degenerate(s[0], s[1], s[2]) {
        var w := s[..3] + WithoutDegenerate(s[3..]);
        assert WithoutDegenerate(s) == w;
        assert w[3..] == WithoutDegenerate(s[3..]);
        assert w[0] == s[0] && w[1] == s[1] && w[2] == s[2];
      } else {
        assert WithoutDegenerate(s) == WithoutDegenerate(s[3..]);
      }
    }
  }

  /** The pass removes exactly three indices per degenerate triangle and nothing else,
      so 2 * quads - degenerate triangles remain. */
  lemma {:induction false} WithoutDegenerateLength(s: seq<int>)
    ensures |WithoutDegenerate(s)| == |s| - 3 * DegenerateCount(s)
    decreases |s|
  {
    if 3 <= |s| {
      WithoutDegenerateLength(s[3..]);
    }
  }

  /** Filtering works triangle by triangle and keeps the relative order: the filtered
      concatenation is the concatenation of the filtered parts. */
  lemma {:induction false} WithoutDegenerateAppend(a: seq<int>, b: seq<int>)
    requires |a| % 3 == 0
    ensures WithoutDegenerate(a + b) == WithoutDegenerate(a) + WithoutDegenerate(b)
    decreases |a|
  {
    if |a| < 3 {
      assert a == [];
      assert a + b == b;
    } else {
      assert (a + b)[3..] == a[3..] + b;
      assert (a + b)[..3] == a[..3];
      WithoutDegenerateAppend(a[3..], b);
    }
  }

  /** A triangle survives the pass if and only if it was in the input and is not degenerate. */
  lemma {:induction false} WithoutDegenerateKeeps(s: seq<int>, t: (int, int, int))
    ensures t in Triangles(WithoutDegenerate(s)) <==> t in Triangles(s) && !Degenerate(t.0, t.1, t.2)
    decreases |s|
  {
    if 3 <= |s| {
      var rest := WithoutDegenerate(s[3..]);
      WithoutDegenerateKeeps(s[3..], t);
      if !Degenerate(s[0], s[1], s[2]) {
        var w := s[..3] + rest;
        assert WithoutDegenerate(s) == w;
        assert w[0] == s[0] && w[1] == s[1] && w[2] == s[2];
        assert w[3..] == rest;
        assert Triangles(w) == [(s[0], s[1], s[2])] + Triangles(rest);
      } else {
        assert WithoutDegenerate(s) == rest;
      }
      assert Triangles(s) == [(s[0], s[1], s[2])] + Triangles(s[3..]);
    }
  }

  /** Every index that survives the pass was an index of its input. */
  lemma {:induction false} WithoutDegenerateBelow(s: seq<int>, n: int)
    requires IndicesBelow(s, n)
    ensures IndicesBelow(WithoutDegenerate(s), n)
    decreases |s|
  {
    if 3 <= |s| {
      WithoutDegenerateBelow(s[3..], n);
    }
  }

  /** The triangulation consists of whole triangles. */
  lemma {:induction false} TriangulatedWhole(quads: seq<Quad>)
    ensures |Triangulated(quads)| % 3 == 0
    decreases |quads|
  {
    if quads != [] {
      TriangulatedWhole(quads[..|quads| - 1]);
    }
  }

  /** If every quad corner is a valid vertex index, so is every index of the final buffer;
      the final buffer holds whole triangles, none degenerate, at most two per quad. */
  lemma TriangulationIndicesValid(quads: seq<Quad>, n: int)
    requires forall k :: 0 <= k < |quads| ==> CornersBelow(quads[k], n)
    ensures IndicesBelow(WithoutDegenerate(Triangulated(quads)), n)
    ensures ProperTriangles(WithoutDegenerate(Triangulated(quads)))
    ensures |WithoutDegenerate(Triangulated(quads))| <= 6 * |quads|
  {
    TriangulatedBelow(quads, n);
    TriangulatedWhole(quads);
    WithoutDegenerateBelow(Triangulated(quads), n);
    WithoutDegenerateIsProper(Triangulated(quads));
  }

  // ---------------------------------------------------------------------------------------
  // The render object

  class HavokMeshShapeRender {
    /** The render mesh built by LoadShape; none before the first load. */
    var shapeMesh: Option<RenderMesh>

    constructor ()
      ensures shapeMesh == None
    {
      shapeMesh := None;
    }

    /** Copies the vertices, triangulates the quads, drops the degenerate triangles and stores
        the resulting mesh. */
    method LoadShape(mesh: MeshContainer)
      modifies this
      ensures shapeMesh.Some?
      ensures |shapeMesh.value.vertices| == |mesh.vertices|
      ensures forall i :: 0 <= i < |mesh.vertices| ==>
                shapeMesh.value.vertices[i] == ShapeVertex(mesh.vertices[i], ShapeColor)
      ensures shapeMesh.value.indices == WithoutDegenerate(Triangulated(mesh.primitives))
    {
      var vertices := new ShapeVertex[|mesh.vertices|];
      for i := 0 to vertices.Length
        invariant forall k :: 0 <= k < i ==> vertices[k].position == mesh.vertices[k]
      {
        vertices[i] := ShapeVertex(mesh.vertices[i], Vec4(0.0, 0.0, 0.0, 0.0));
      }

      var indices := TriangulateQuads(mesh.primitives);
      TriangulatedWhole(mesh.primitives);
      indices := RemoveDegenerateTriangles(indices);

      for i := 0 to vertices.Length
        invariant forall k :: 0 <= k < i ==> vertices[k] == ShapeVertex(mesh.vertices[k], ShapeColor)
        invariant forall k :: i <= k < vertices.Length ==> vertices[k].position == mesh.vertices[k]
      {
        vertices[i] := vertices[i].(vertexColor := ShapeColor);
      }

      shapeMesh := Some(RenderMesh(vertices[..], indices));
    }
  }
}
