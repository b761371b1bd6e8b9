/**
  The feathered plane mesh of PlaneVisualizer.

  Each frame the boundary polygon of a detected plane is fetched; when it differs from the
  boundary of the last rebuild, the mesh is rebuilt: the N boundary points form the outer
  ring (transparent), a feathered copy of each point pulled towards the plane centre forms
  the inner ring (white), the inner ring is triangulated as a fan, and every boundary edge
  becomes two triangles of the fading border.

  Points are opaque (the type parameter V). Unity's vertex comparison, a tolerance test, is an
  uninterpreted predicate `same` of which nothing is assumed, and the feathered inner vertex
  of a boundary point about the centre is an uninterpreted function `innerPoint`.
*/
module PlaneMesh {

  datatype Color = Color(r: real, g: real, b: real, a: real)

  /** Unity's Color.clear and Color.white. */
  const Clear := Color(0.0, 0.0, 0.0, 0.0)
  const White := Color(1.0, 1.0, 1.0, 1.0)

  /** What the Unity mesh holds after SetVertices, SetIndices and SetColors. */
  datatype Mesh<V> = Mesh(vertices: seq<V>, indices: seq<int>, colors: seq<Color>)

  predicate VerticesListsEqual<V>(same: (V, V) -> bool, first: seq<V>, second: seq<V>) {
    |first| == |second| && forall i :: 0 <= i < |first| ==> same(first[i], second[i])
  }

  /** _AreVerticesListsEqual: a length test, then an element-wise scan that stops at the first
      pair the vertex comparison tells apart. */
  method AreVerticesListsEqual<V>(same: (V, V) -> bool, firstList: seq<V>, secondList: seq<V>) returns (equal: bool)
    ensures equal <==> VerticesListsEqual(same, firstList, secondList)
  {
    if |firstList| != |secondList| {
      return false;
    }
    var i := 0;
    while i < |firstList|
      invariant 0 <= i <= |firstList|
      invariant forall j :: 0 <= j < i ==> same(firstList[j], secondList[j])
    {
      if !same(firstList[i], secondList[i]) {
        return false;
      }
      i := i + 1;
    }
    return true;
  }

  /** The index buffer of the first m fan triangles over an inner ring that starts at index n. */
  function FanIndices(n: int, m: nat): seq<int>
  {
    if m == 0 then [] else FanIndices(n, m - 1) + [n, n + m, n + m + 1]
  }

  /** The two triangles of border edge i of an n-point boundary: the quad outer i, outer i + 1,
      inner i, inner i + 1, with i + 1 taken modulo n. */
  function EdgeIndices(n: nat, i: int): seq<int>
    requires n > 0
  {
    [i, (i + 1) % n, n + i, n + i, (i + 1) % n, n + (i + 1) % n]
  }

  /** The index buffer of the first m border edges of an n-point boundary, the last edge
      wrapping back to vertex 0. */
  function BorderIndices(n: nat, m: nat): seq<int>
    requires m <= n
  {
    if m == 0 then [] else BorderIndices(n, m - 1) + EdgeIndices(n, m - 1)
  }

  /** The index buffer of the whole feathered mesh of an n-point boundary. */
  function MeshIndices(n: nat): seq<int>
  {
    FanIndices(n, if n >= 2 then n - 2 else 0) + BorderIndices(n, n)
  }

  lemma {:induction false} FanIndicesAt(n: int, m: nat, i: int)
    requires 0 <= i < m
    ensures |FanIndices(n, m)| == 3 * m
    ensures FanIndices(n, m)[3 * i] == n
    ensures FanIndices(n, m)[3 * i + 1] == n + i + 1
    ensures FanIndices(n, m)[3 * i + 2] == n + i + 2
  {
    if i < m - 1 {
      FanIndicesAt(n, m - 1, i);
    } else if m > 1 {
      FanIndicesAt(n, m - 1, 0);
    }
  }

  lemma {:induction false} FanIndicesLength(n: int, m: nat)
    ensures |FanIndices(n, m)| == 3 * m
  {
    if m > 0 {
      FanIndicesLength(n, m - 1);
    }
  }

  lemma {:induction false} FanIndicesInRange(n: nat, m: nat)
    requires m + 2 <= n
    ensures forall k :: 0 <= k < |FanIndices(n, m)| ==> n <= FanIndices(n, m)[k] < 2 * n
  {
    if m > 0 {
      FanIndicesInRange(n, m - 1);
    }
  }

  lemma {:induction false} BorderIndicesLength(n: nat, m: nat)
    requires m <= n
    ensures |BorderIndices(n, m)| == 6 * m
  {
    if m > 0 {
      BorderIndicesLength(n, m - 1);
    }
  }

  lemma {:induction false} BorderIndicesAt(n: nat, m: nat, i: int)
    requires 0 <= i < m <= n
    ensures |BorderIndices(n, m)| == 6 * m
    ensures BorderIndices(n, m)[6 * i..6 * i + 6] == EdgeIndices(n, i)
  {
    var prev := BorderIndices(n, m - 1);
    BorderIndicesLength(n, m);
    BorderIndicesLength(n, m - 1);
    if i < m - 1 {
      BorderIndicesAt(n, m - 1, i);
      assert (prev + EdgeIndices(n, m - 1))[6 * i..6 * i + 6] == prev[6 * i..6 * i + 6];
    } else {
      assert (prev + EdgeIndices(n, m - 1))[6 * i..6 * i + 6] == EdgeIndices(n, m - 1);
    }
  }

  lemma {:induction false} BorderIndicesInRange(n: nat, m: nat)
    requires m <= n
    ensures forall k :: 0 <= k < |BorderIndices(n, m)| ==> 0 <= BorderIndices(n, m)[k] < 2 * n
  {
    if m > 0 {
      BorderIndicesInRange(n, m - 1);
    }
  }

  /** The index buffer holds 3 * max(0, n - 2) fan entries and 6 * n border entries, whole
      triangles only, and for a non-empty boundary refers to the 2 * n mesh vertices only. */
  lemma MeshIndicesShape(n: nat)
    ensures |MeshIndices(n)| == 3 * (if n >= 2 then n - 2 else 0) + 6 * n
    ensures |MeshIndices(n)| % 3 == 0
    ensures n >= 1 ==> forall k :: 0 <= k < |MeshIndices(n)| ==> 0 <= MeshIndices(n)[k] < 2 * n
  {
    var fan := if n >= 2 then n - 2 else 0;
    FanIndicesLength(n, fan);
    BorderIndicesLength(n, n);
    BorderIndicesInRange(n, n);
    if n >= 2 {
      FanIndicesInRange(n, fan);
    }
  }

  /** Fan triangle i joins the first inner vertex to inner vertices i + 1 and i + 2. */
  lemma MeshFanTriangle(n: nat, i: int)
    requires 0 <= i < n - 2
    ensures |MeshIndices(n)| == 3 * (n - 2) + 6 * n
    ensures MeshIndices(n)[3 * i..3 * i + 3] == [n, n + i + 1, n + i + 2]
  {
    MeshIndicesShape(n);
    FanIndicesAt(n, n - 2, i);
  }

  /** Border edge i, after the fan, is the quad outer i, outer i + 1, inner i, inner i + 1 split in
      two triangles, with i + 1 taken modulo n. */
  lemma MeshBorderTriangles(n: nat, i: int)
    requires 0 <= i < n
    ensures |MeshIndices(n)| == 3 * (if n >= 2 then n - 2 else 0) + 6 * n
    ensures var o := 3 * (if n >= 2 then n - 2 else 0) + 6 * i;
      MeshIndices(n)[o..o + 6] == [i, (i + 1) % n, n + i, n + i, (i + 1) % n, n + (i + 1) % n]
  {
    var fan := if n >= 2 then n - 2 else 0;
    FanIndicesLength(n, fan);
    BorderIndicesAt(n, n, i);
    var o := 3 * fan + 6 * i;
    assert MeshIndices(n)[o..o + 6] == BorderIndices(n, n)[6 * i..6 * i + 6];
  }

  /** The vertex and colour buffers for `boundary` about `center`: outer ring then inner ring,
      transparent then white. */
  ghost predicate IsFeatheredRings<V>(vertices: seq<V>, colors: seq<Color>, innerPoint: (V, V) -> V, boundary: seq<V>, center: V) {
    var n := |boundary|;
    && |vertices| == 2 * n
    && (forall i :: 0 <= i < n ==> vertices[i] == boundary[i] && vertices[n + i] == innerPoint(boundary[i], center))
    && |colors| == 2 * n
    && (forall i :: 0 <= i < 2 * n ==> colors[i] == if i < n then Clear else White)
  }

  /** The mesh drawn for `boundary` about `center`: the feathered rings and the fan-plus-border
      index buffer. */
  ghost predicate IsFeatheredMesh<V>(mesh: Mesh<V>, innerPoint: (V, V) -> V, boundary: seq<V>, center: V) {
    && IsFeatheredRings(mesh.vertices, mesh.colors, innerPoint, boundary, center)
    && mesh.indices == MeshIndices(|boundary|)
  }

  class PlaneVisualizer<V(0)> {
    /** Unity's Vector3 equality, a tolerance test; `!same` is the source's `!=`. */
    const same: (V, V) -> bool
    /** center + (1 - min(0.2 / |v - center|, 0.2)) * (v - center) for boundary point v. */
    const innerPoint: (V, V) -> V

    var planeCenter: V
    var previousFrameMeshVertices: seq<V>
    var meshVertices: seq<V>
    var meshColors: seq<Color>
    var meshIndices: seq<int>
    var mesh: Mesh<V>

    /** The drawn mesh is always the feathered mesh of the boundary remembered at the last
        rebuild, and the colour and index lists are the ones it was built from. */
    ghost predicate Valid()
      reads this
    {
      && IsFeatheredMesh(mesh, innerPoint, previousFrameMeshVertices, planeCenter)
      && meshColors == mesh.colors
      && meshIndices == mesh.indices
    }

    constructor (same: (V, V) -> bool, innerPoint: (V, V) -> V)
      ensures Valid() && this.same == same && this.innerPoint == innerPoint
      ensures previousFrameMeshVertices == [] && mesh == Mesh([], [], [])
    {
      this.same, this.innerPoint := same, innerPoint;
      previousFrameMeshVertices, meshVertices, meshColors, meshIndices := [], [], [], [];
      mesh := Mesh([], [], []);
    }

    /** _UpdateMeshIfNeeded for the boundary and centre the tracked plane reports this frame.
        The boundary is always copied into meshVertices; the rest is rebuilt only when the
        boundary differs from the one of the last rebuild. */
    method UpdateMeshIfNeeded(boundary: seq<V>, center: V) returns (rebuilt: bool)
      requires Valid()
      modifies this
      ensures Valid()
      ensures rebuilt <==> !VerticesListsEqual(same, old(previousFrameMeshVertices), boundary)
      ensures !rebuilt ==>
        && meshVertices == boundary
        && previousFrameMeshVertices == old(previousFrameMeshVertices) && planeCenter == old(planeCenter)
        && meshColors == old(meshColors) && meshIndices == old(meshIndices) && mesh == old(mesh)
      ensures rebuilt ==>
        && previousFrameMeshVertices == boundary && planeCenter == center
        && meshVertices == mesh.vertices && IsFeatheredMesh(mesh, innerPoint, boundary, center)
    {
      meshVertices := boundary;
      var equal := AreVerticesListsEqual(same, previousFrameMeshVertices, meshVertices);
      if equal {
        return false;
      }
      Rebuild(center);
      return true;
    }

    /** The rebuild branch of _UpdateMeshIfNeeded: the fetched boundary in meshVertices becomes
        the remembered one, and the mesh is rebuilt from it. */
    method Rebuild(center: V)
      modifies this
      ensures previousFrameMeshVertices == old(meshVertices) && planeCenter == center
      ensures meshVertices == mesh.vertices && meshColors == mesh.colors && meshIndices == mesh.indices
      ensures IsFeatheredMesh(mesh, innerPoint, old(meshVertices), center)
    {
      previousFrameMeshVertices := meshVertices;
      planeCenter := center;
      var planePolygonCount := |meshVertices|;
      BuildRings(center);
      BuildIndices(planePolygonCount);
      mesh := Mesh(meshVertices, meshIndices, meshColors);
    }

    /** The colour loop and the inner-ring loop of _UpdateMeshIfNeeded: N clear colours, then for
        each boundary point its inner vertex and a white colour. The inner-ring loop appends to
        meshVertices while reading only its first N entries. */
    method BuildRings(center: V)
      modifies this`meshVertices, this`meshColors
      ensures IsFeatheredRings(meshVertices, meshColors, innerPoint, old(meshVertices), center)
    {
      var n := |meshVertices|;
      ghost var boundary := meshVertices;
      meshColors := [];
      var i := 0;
      while i < n
        invariant meshVertices == boundary
        invariant 0 <= i <= n
        invariant |meshColors| == i
        invariant forall k :: 0 <= k < i ==> meshColors[k] == Clear
      {
        meshColors := meshColors + [Clear];
        i := i + 1;
      }

      i := 0;
      while i < n
        invariant 0 <= i <= n
        invariant |meshVertices| == n + i && |meshColors| == n + i
        invariant forall k :: 0 <= k < n ==> meshVertices[k] == boundary[k]
        invariant forall k :: 0 <= k < i ==> meshVertices[n + k] == innerPoint(boundary[k], center)
        invariant forall k :: 0 <= k < n + i ==> meshColors[k] == if k < n then Clear else White
      {
        var v := meshVertices[i];
        meshVertices := meshVertices + [innerPoint(v, center)];
        meshColors := meshColors + [White];
        i := i + 1;
      }
    }

    /** The index loops of _UpdateMeshIfNeeded for an N-point boundary: a fan over the inner
        ring, then two triangles per boundary edge. */
    method BuildIndices(planePolygonCount: nat)
      modifies this`meshIndices
      ensures meshIndices == MeshIndices(planePolygonCount)
    {
      meshIndices := [];
      AppendFanIndices(planePolygonCount);
      AppendBorderIndices(planePolygonCount);
    }

    /** The fan loop: N - 2 triangles over the inner ring, all from its first vertex. */
    method AppendFanIndices(planePolygonCount: nat)
      modifies this`meshIndices
      ensures meshIndices == old(meshIndices) + FanIndices(planePolygonCount, if planePolygonCount >= 2 then planePolygonCount - 2 else 0)
    {
      var n := planePolygonCount;
      var firstInnerVertex := n;
      var i := 0;
      while i < n as int - 2
        invariant 0 <= i <= (if n >= 2 then n - 2 else 0)
        invariant meshIndices == old(meshIndices) + FanIndices(n, i)
      {
        meshIndices := meshIndices + [firstInnerVertex, firstInnerVertex + i + 1, firstInnerVertex + i + 2];
        i := i + 1;
      }
    }

    /** The border loop: for each edge i the quad outer i, outer i + 1, inner i, inner i + 1 as two
        triangles, with i + 1 taken modulo N. */
    method AppendBorderIndices(planePolygonCount: nat)
      modifies this`meshIndices
      ensures meshIndices == old(meshIndices) + BorderIndices(planePolygonCount, planePolygonCount)
    {
      var n := planePolygonCount;
      var firstOuterVertex := 0;
      var firstInnerVertex := n;
      var i := 0;
      while i < n
        invariant 0 <= i <= n
        invariant meshIndices == old(meshIndices) + BorderIndices(n, i)
      {
        var outerVertex1 := firstOuterVertex + i;
        var outerVertex2 := firstOuterVertex + (i + 1) % n;
        var innerVertex1 := firstInnerVertex + i;
        var innerVertex2 := firstInnerVertex + (i + 1) % n;
        meshIndices := meshIndices + [outerVertex1, outerVertex2, innerVertex1];
        meshIndices := meshIndices + [innerVertex1, outerVertex2, innerVertex2];
        assert meshIndices == old(meshIndices) + BorderIndices(n, i) + EdgeIndices(n, i);
        i := i + 1;
      }
    }
  }

  /** Two updates in a row with the same boundary: the second is a no-op, provided the vertex
      comparison holds of each boundary point and itself (Unity's does, except for NaN). */
  method UpdateTwice<V(0)>(visualizer: PlaneVisualizer<V>, boundary: seq<V>, center: V)
    returns (first: bool, second: bool)
    requires visualizer.Valid()
    requires forall i :: 0 <= i < |boundary| ==> visualizer.same(boundary[i], boundary[i])
    modifies visualizer
    ensures !second
  {
    first := visualizer.UpdateMeshIfNeeded(boundary, center);
    second := visualizer.UpdateMeshIfNeeded(boundary, center);
  }
}
