/** Vocabulary shared by the mesh-building components: positions and triangle index lists. */
module Geometry {

  /** A position; the source's single-precision coordinates are modelled as exact reals. */
  datatype Vec3 = Vec3(x: real, y: real, z: real)

  /** `v` multiplied component-wise by the factor `s` (Vector3 * float). */
  function Scale(v: Vec3, s: real): (r: Vec3)
    ensures s != 0.0 ==> Vec3(r.x / s, r.y / s, r.z / s) == v
  {
    Vec3(v.x * s, v.y * s, v.z * s)
  }

  /** A four-component float vector (vertex colours, texture coordinates). */
  datatype Vec4 = Vec4(x: real, y: real, z: real, w: real)

  /** A triangle is degenerate (an effective line) when two of its corner indices coincide. */
  predicate Degenerate(a: int, b: int, c: int)
  {
    a == b || a == c || b == c
  }

  /** `s` is a triangle list (whole triples of indices) none of whose triangles is degenerate. */
  predicate ProperTriangles(s: seq<int>)
    decreases |s|
  {
    |s| == 0 || (3 <= |s| && !Degenerate(s[0], s[1], s[2]) && ProperTriangles(s[3..]))
  }

  /** Every index of `s` refers to one of the `n` vertices `0 .. n-1`. */
  predicate IndicesBelow(s: seq<int>, n: int)
  {
    forall i :: 0 <= i < |s| ==> 0 <= s[i] < n
  }

  /** Concatenating two triangle lists without degenerate triangles gives another one. */
  lemma {:induction false} ProperTrianglesAppend(a: seq<int>, b: seq<int>)
    requires ProperTriangles(a) && ProperTriangles(b)
    ensures ProperTriangles(a + b)
    decreases |a|
  {
    if |a| == 0 {
      assert a + b == b;
    } else {
      assert (a + b)[3..] == a[3..] + b;
      ProperTrianglesAppend(a[3..], b);
    }
  }
}
