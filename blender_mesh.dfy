/**
 * The per-material mesh builder for Blender meshes. The loop triangles of one
 * material become LuxCore triangles. Smooth-shaded corners share a vertex with
 * earlier corners of the same Blender vertex when its UV and colour agree, and
 * flat-shaded corners always get three vertices of their own.
 *
 * Coordinates, UVs and colours are values copied from the Blender buffers; the
 * normals are symbolic: the normal of a smooth corner is named by the Blender
 * vertex whose normal it normalises, that of a flat corner by its loop triangle.
 */
module BlenderMesh {

  import opened Wrappers
  import opened CTypes
  import Decimal

  //----------------------------------------------------------------------------
  // The Blender buffers
  //----------------------------------------------------------------------------

  datatype Vec3 = Vec3(x: real, y: real, z: real)

  /** A loop triangle: three loop indices and the polygon they belong to. */
  datatype LoopTri = LoopTri(tri: seq<nat>, poly: nat)

  /** A loop: the Blender vertex index of one face corner. */
  datatype Loop = Loop(v: nat)

  /** A polygon: its material number (a `short`) and its flag bits (a `char`). */
  datatype Poly = Poly(matNr: int, flag: int)

  datatype Vert = Vert(co: Vec3)

  datatype LoopUV = LoopUV(u: real, v: real)

  /** The red, green and blue bytes of a loop colour; the compared and copied channels. */
  datatype LoopCol = LoopCol(r: uint8, g: uint8, b: uint8)

  /**
   * The buffers a Blender mesh hands over; the UV and colour layers are optional
   * (null in C++).
   */
  datatype BlenderData = BlenderData(loopTris: seq<LoopTri>, loops: seq<Loop>, verts: seq<Vert>, polys: seq<Poly>,
                                     loopUVs: Option<seq<LoopUV>>, loopCols: Option<seq<LoopCol>>)

  /** Loop c can be read, and so can its vertex, UV and colour. */
  predicate CornerInRange(b: BlenderData, c: nat)
  {
    c < |b.loops| && b.loops[c].v < |b.verts|
    && (b.loopUVs.Some? ==> c < |b.loopUVs.value|)
    && (b.loopCols.Some? ==> c < |b.loopCols.value|)
  }

  predicate LoopTriInRange(b: BlenderData, lt: LoopTri)
  {
    |lt.tri| == 3 && lt.poly < |b.polys| && CornerInRange(b, lt.tri[0]) && CornerInRange(b, lt.tri[1]) && CornerInRange(b, lt.tri[2])
  }

  /** What the caller guarantees: every index stored in the buffers points into them. */
  predicate WellFormed(b: BlenderData)
  {
    forall t :: 0 <= t < |b.loopTris| ==> LoopTriInRange(b, b.loopTris[t])
  }

  const ME_SMOOTH: int := 1

  /** `flag & ME_SMOOTH` on a `char` flag: bit 0, of the two's-complement value when negative. */
  predicate IsSmooth(p: Poly)
  {
    p.flag % 2 == ME_SMOOTH
  }

  function Corner(b: BlenderData, t: nat, i: nat): (c: nat)
    requires WellFormed(b) && t < |b.loopTris| && i < 3
    ensures CornerInRange(b, c)
  {
    b.loopTris[t].tri[i]
  }

  function PolyOf(b: BlenderData, t: nat): Poly
    requires WellFormed(b) && t < |b.loopTris|
  {
    b.polys[b.loopTris[t].poly]
  }

  /** Loop triangle t belongs to the polygons of material matIndex. */
  predicate Selected(b: BlenderData, matIndex: int, t: nat)
    requires WellFormed(b) && t < |b.loopTris|
  {
    PolyOf(b, t).matNr == matIndex
  }

  /**
   * The loop triangles below n that belong to material matIndex, in order:
   * the ones the builder turns into triangles.
   */
  function Matching(b: BlenderData, matIndex: int, n: nat): (r: seq<nat>)
    requires WellFormed(b) && n <= |b.loopTris|
    ensures |r| <= n
    ensures forall k :: 0 <= k < |r| ==> r[k] < n && Selected(b, matIndex, r[k])
    ensures forall k1, k2 :: 0 <= k1 < k2 < |r| ==> r[k1] < r[k2]
  {
    if n == 0 then []
    else Matching(b, matIndex, n - 1) + (if Selected(b, matIndex, n - 1) then [n - 1] else [])
  }

  /** A loop triangle is listed exactly when it belongs to the material. */
  lemma {:induction false} MatchingExactly(b: BlenderData, matIndex: int, n: nat, t: nat)
    requires WellFormed(b) && n <= |b.loopTris| && t < |b.loopTris|
    ensures t in Matching(b, matIndex, n) <==> t < n && Selected(b, matIndex, t)
  {
    if n > 0 {
      MatchingExactly(b, matIndex, n - 1, t);
    }
  }

  //----------------------------------------------------------------------------
  // The mesh under construction
  //----------------------------------------------------------------------------

  /** A vertex normal: that of a Blender vertex (smooth), or the face normal of a loop triangle (flat). */
  datatype Normal = VertexNormal(vertex: nat) | FaceNormal(loopTri: nat)

  datatype Triangle = Triangle(v0: nat, v1: nat, v2: nat)

  /** The temporary vectors of the builder, its next vertex index and its vertex map. */
  datatype Tmp = Tmp(verts: seq<Vec3>, norms: seq<Normal>, uvs: seq<LoopUV>, cols: seq<LoopCol>,
                     freeIndex: nat, vertexMap: map<nat, nat>)

  /** The normal a corner of loop triangle t must carry. */
  function ExpectedNormal(b: BlenderData, t: nat, i: nat): Normal
    requires WellFormed(b) && t < |b.loopTris| && i < 3
  {
    if IsSmooth(PolyOf(b, t)) then VertexNormal(b.loops[Corner(b, t, i)].v) else FaceNormal(t)
  }

  /**
   * The builder's bookkeeping: one normal, UV and colour per vertex (UVs and
   * colours only when Blender has them), the vertex count is the next free
   * index, and the vertex map sends a Blender vertex to a smooth vertex made
   * from it.
   */
  predicate TmpValid(b: BlenderData, tmp: Tmp)
  {
    |tmp.verts| == tmp.freeIndex && |tmp.norms| == tmp.freeIndex
    && (if b.loopUVs.Some? then |tmp.uvs| == tmp.freeIndex else tmp.uvs == [])
    && (if b.loopCols.Some? then |tmp.cols| == tmp.freeIndex else tmp.cols == [])
    && forall v :: v in tmp.vertexMap ==>
         v < |b.verts| && tmp.vertexMap[v] < tmp.freeIndex
         && tmp.verts[tmp.vertexMap[v]] == b.verts[v].co && tmp.norms[tmp.vertexMap[v]] == VertexNormal(v)
  }

  /**
   * Vertex vi is a correct vertex for corner i of loop triangle t: it exists,
   * has the Blender vertex's coordinates, the expected normal and the corner's
   * UV and colour.
   */
  predicate CornerOk(b: BlenderData, verts: seq<Vec3>, norms: seq<Normal>, uvs: seq<LoopUV>, cols: seq<LoopCol>,
                     t: nat, i: nat, vi: nat)
    requires WellFormed(b) && t < |b.loopTris| && i < 3
  {
    var c := Corner(b, t, i);
    vi < |verts| && vi < |norms|
    && verts[vi] == b.verts[b.loops[c].v].co && norms[vi] == ExpectedNormal(b, t, i)
    && (b.loopUVs.Some? ==> vi < |uvs| && uvs[vi] == b.loopUVs.value[c])
    && (b.loopCols.Some? ==> vi < |cols| && cols[vi] == b.loopCols.value[c])
  }

  predicate TriOk(b: BlenderData, verts: seq<Vec3>, norms: seq<Normal>, uvs: seq<LoopUV>, cols: seq<LoopCol>,
                  t: nat, tri: Triangle)
    requires WellFormed(b) && t < |b.loopTris|
  {
    CornerOk(b, verts, norms, uvs, cols, t, 0, tri.v0)
    && CornerOk(b, verts, norms, uvs, cols, t, 1, tri.v1)
    && CornerOk(b, verts, norms, uvs, cols, t, 2, tri.v2)
  }

  /** The vectors of tmp2 extend those of tmp. */
  predicate Extends(tmp: Tmp, tmp2: Tmp)
  {
    |tmp.verts| <= |tmp2.verts| && tmp2.verts[..|tmp.verts|] == tmp.verts
    && |tmp.norms| <= |tmp2.norms| && tmp2.norms[..|tmp.norms|] == tmp.norms
    && |tmp.uvs| <= |tmp2.uvs| && tmp2.uvs[..|tmp.uvs|] == tmp.uvs
    && |tmp.cols| <= |tmp2.cols| && tmp2.cols[..|tmp.cols|] == tmp.cols
  }

  lemma ExtendsTrans(tmp1: Tmp, tmp2: Tmp, tmp3: Tmp)
    requires Extends(tmp1, tmp2) && Extends(tmp2, tmp3)
    ensures Extends(tmp1, tmp3)
  {
    assert tmp3.verts[..|tmp1.verts|] == tmp3.verts[..|tmp2.verts|][..|tmp1.verts|];
    assert tmp3.norms[..|tmp1.norms|] == tmp3.norms[..|tmp2.norms|][..|tmp1.norms|];
    assert tmp3.uvs[..|tmp1.uvs|] == tmp3.uvs[..|tmp2.uvs|][..|tmp1.uvs|];
    assert tmp3.cols[..|tmp1.cols|] == tmp3.cols[..|tmp2.cols|][..|tmp1.cols|];
  }

  /** Appending vertices keeps every triangle already emitted correct. */
  lemma TriOkExtends(b: BlenderData, tmp: Tmp, tmp2: Tmp, t: nat, tri: Triangle)
    requires WellFormed(b) && t < |b.loopTris| && Extends(tmp, tmp2)
    requires TriOk(b, tmp.verts, tmp.norms, tmp.uvs, tmp.cols, t, tri)
    ensures TriOk(b, tmp2.verts, tmp2.norms, tmp2.uvs, tmp2.cols, t, tri)
  {
    assert forall j :: 0 <= j < |tmp.verts| ==> tmp2.verts[j] == tmp2.verts[..|tmp.verts|][j];
    assert forall j :: 0 <= j < |tmp.norms| ==> tmp2.norms[j] == tmp2.norms[..|tmp.norms|][j];
    assert forall j :: 0 <= j < |tmp.uvs| ==> tmp2.uvs[j] == tmp2.uvs[..|tmp.uvs|][j];
    assert forall j :: 0 <= j < |tmp.cols| ==> tmp2.cols[j] == tmp2.cols[..|tmp.cols|][j];
  }

  lemma TrisExtend(b: BlenderData, tmp: Tmp, tmp2: Tmp, ts: seq<nat>, tris: seq<Triangle>)
    requires WellFormed(b) && |ts| == |tris| && Extends(tmp, tmp2)
    requires forall k :: 0 <= k < |ts| ==> ts[k] < |b.loopTris|
    requires forall k :: 0 <= k < |ts| ==> TriOk(b, tmp.verts, tmp.norms, tmp.uvs, tmp.cols, ts[k], tris[k])
    ensures forall k :: 0 <= k < |ts| ==> TriOk(b, tmp2.verts, tmp2.norms, tmp2.uvs, tmp2.cols, ts[k], tris[k])
  {
    forall k | 0 <= k < |ts|
      ensures TriOk(b, tmp2.verts, tmp2.norms, tmp2.uvs, tmp2.cols, ts[k], tris[k])
    {
      TriOkExtends(b, tmp, tmp2, ts[k], tris[k]);
    }
  }

  //----------------------------------------------------------------------------
  // Adding vertices
  //----------------------------------------------------------------------------

  /** The vertex already mapped has the UV and colour of loop c, where Blender has them. */
  predicate SameAttributes(b: BlenderData, tmp: Tmp, c: nat, mapped: nat)
    requires CornerInRange(b, c) && TmpValid(b, tmp) && mapped < tmp.freeIndex
  {
    (b.loopUVs.Some? ==> b.loopUVs.value[c] == tmp.uvs[mapped])
    && (b.loopCols.Some? ==> b.loopCols.value[c] == tmp.cols[mapped])
  }

  /** A new vertex for loop c with the given normal, at index tmp.freeIndex. */
  method NewVertex(b: BlenderData, tmp: Tmp, c: nat, n: Normal) returns (tmp2: Tmp, vi: nat)
    requires CornerInRange(b, c) && TmpValid(b, tmp)
    ensures vi == tmp.freeIndex && tmp2.freeIndex == tmp.freeIndex + 1 && tmp2.vertexMap == tmp.vertexMap
    ensures Extends(tmp, tmp2) && TmpValid(b, tmp2)
    ensures tmp2.verts[vi] == b.verts[b.loops[c].v].co && tmp2.norms[vi] == n
    ensures b.loopUVs.Some? ==> tmp2.uvs[vi] == b.loopUVs.value[c]
    ensures b.loopCols.Some? ==> tmp2.cols[vi] == b.loopCols.value[c]
  {
    var uvs := tmp.uvs;
    if b.loopUVs.Some? {
      uvs := uvs + [b.loopUVs.value[c]];
    }
    var cols := tmp.cols;
    if b.loopCols.Some? {
      cols := cols + [b.loopCols.value[c]];
    }
    vi := tmp.freeIndex;
    tmp2 := Tmp(tmp.verts + [b.verts[b.loops[c].v].co], tmp.norms + [n], uvs, cols, tmp.freeIndex + 1, tmp.vertexMap);
  }

  /**
   * One corner of a smooth-shaded triangle: the vertex mapped for its Blender
   * vertex is reused when its UV and colour agree; otherwise a new vertex is
   * made and becomes the mapped one.
   */
  method AddSmoothCorner(b: BlenderData, t: nat, i: nat, tmp: Tmp) returns (tmp2: Tmp, vi: nat)
    requires WellFormed(b) && t < |b.loopTris| && i < 3 && TmpValid(b, tmp) && IsSmooth(PolyOf(b, t))
    ensures TmpValid(b, tmp2) && Extends(tmp, tmp2)
    ensures CornerOk(b, tmp2.verts, tmp2.norms, tmp2.uvs, tmp2.cols, t, i, vi)
    ensures var v := b.loops[Corner(b, t, i)].v;
            if v in tmp.vertexMap && SameAttributes(b, tmp, Corner(b, t, i), tmp.vertexMap[v])
            then tmp2 == tmp && vi == tmp.vertexMap[v]
            else vi == tmp.freeIndex && tmp2.freeIndex == tmp.freeIndex + 1 && tmp2.vertexMap == tmp.vertexMap[v := vi]
  {
    var c := Corner(b, t, i);
    var index := b.loops[c].v;
    var alreadyDefined := index in tmp.vertexMap;
    if alreadyDefined {
      var mappedIndex := tmp.vertexMap[index];
      if b.loopUVs.Some? && b.loopUVs.value[c] != tmp.uvs[mappedIndex] {
        alreadyDefined := false;
      }
      if b.loopCols.Some? && b.loopCols.value[c] != tmp.cols[mappedIndex] {
        alreadyDefined := false;
      }
    }
    if alreadyDefined {
      tmp2, vi := tmp, tmp.vertexMap[index];
    } else {
      tmp2, vi := NewVertex(b, tmp, c, VertexNormal(index));
      tmp2 := tmp2.(vertexMap := tmp2.vertexMap[index := vi]);
    }
  }

  /** A flat-shaded corner: always a new vertex with the face normal, and no mapping. */
  method AddFlatCorner(b: BlenderData, t: nat, i: nat, tmp: Tmp) returns (tmp2: Tmp, vi: nat)
    requires WellFormed(b) && t < |b.loopTris| && i < 3 && TmpValid(b, tmp) && !IsSmooth(PolyOf(b, t))
    ensures TmpValid(b, tmp2) && Extends(tmp, tmp2)
    ensures CornerOk(b, tmp2.verts, tmp2.norms, tmp2.uvs, tmp2.cols, t, i, vi)
    ensures vi == tmp.freeIndex && tmp2.freeIndex == tmp.freeIndex + 1 && tmp2.vertexMap == tmp.vertexMap
  {
    tmp2, vi := NewVertex(b, tmp, Corner(b, t, i), FaceNormal(t));
  }

  /** The three corners of loop triangle t, smooth or flat as its polygon says. */
  method AddCorners(b: BlenderData, t: nat, tmp: Tmp) returns (tmp2: Tmp, tri: Triangle)
    requires WellFormed(b) && t < |b.loopTris| && TmpValid(b, tmp)
    ensures TmpValid(b, tmp2) && Extends(tmp, tmp2)
    ensures TriOk(b, tmp2.verts, tmp2.norms, tmp2.uvs, tmp2.cols, t, tri)
    ensures !IsSmooth(PolyOf(b, t)) ==>
              tri == Triangle(tmp.freeIndex, tmp.freeIndex + 1, tmp.freeIndex + 2)
              && tmp2.freeIndex == tmp.freeIndex + 3 && tmp2.vertexMap == tmp.vertexMap
    ensures IsSmooth(PolyOf(b, t)) ==> tmp.freeIndex <= tmp2.freeIndex <= tmp.freeIndex + 3
  {
    var vertIndices: seq<nat> := [];
    tmp2 := tmp;
    var smooth := IsSmooth(PolyOf(b, t));
    for i := 0 to 3
      invariant |vertIndices| == i && TmpValid(b, tmp2) && Extends(tmp, tmp2)
      invariant forall j :: 0 <= j < i ==> CornerOk(b, tmp2.verts, tmp2.norms, tmp2.uvs, tmp2.cols, t, j, vertIndices[j])
      invariant !smooth ==> tmp2.freeIndex == tmp.freeIndex + i && tmp2.vertexMap == tmp.vertexMap
      invariant !smooth ==> forall j :: 0 <= j < i ==> vertIndices[j] == tmp.freeIndex + j
      invariant smooth ==> tmp.freeIndex <= tmp2.freeIndex <= tmp.freeIndex + i
    {
      var next, vi := AddCorner(b, t, i, tmp2);
      CornersOkExtend(b, tmp2, next, t, vertIndices);
      ExtendsTrans(tmp, tmp2, next);
      tmp2 := next;
      vertIndices := vertIndices + [vi];
    }
    tri := Triangle(vertIndices[0], vertIndices[1], vertIndices[2]);
  }

  /** One corner, smooth or flat as the polygon of loop triangle t says. */
  method AddCorner(b: BlenderData, t: nat, i: nat, tmp: Tmp) returns (tmp2: Tmp, vi: nat)
    requires WellFormed(b) && t < |b.loopTris| && i < 3 && TmpValid(b, tmp)
    ensures TmpValid(b, tmp2) && Extends(tmp, tmp2)
    ensures CornerOk(b, tmp2.verts, tmp2.norms, tmp2.uvs, tmp2.cols, t, i, vi)
    ensures !IsSmooth(PolyOf(b, t)) ==>
              vi == tmp.freeIndex && tmp2.freeIndex == tmp.freeIndex + 1 && tmp2.vertexMap == tmp.vertexMap
    ensures IsSmooth(PolyOf(b, t)) ==> tmp.freeIndex <= tmp2.freeIndex <= tmp.freeIndex + 1
  {
    if IsSmooth(PolyOf(b, t)) {
      tmp2, vi := AddSmoothCorner(b, t, i, tmp);
    } else {
      tmp2, vi := AddFlatCorner(b, t, i, tmp);
    }
  }

  /** Corners already checked stay correct when the buffers only grow. */
  lemma CornersOkExtend(b: BlenderData, tmp: Tmp, tmp2: Tmp, t: nat, vs: seq<nat>)
    requires WellFormed(b) && t < |b.loopTris| && |vs| <= 3 && Extends(tmp, tmp2)
    requires forall j :: 0 <= j < |vs| ==> CornerOk(b, tmp.verts, tmp.norms, tmp.uvs, tmp.cols, t, j, vs[j])
    ensures forall j :: 0 <= j < |vs| ==> CornerOk(b, tmp2.verts, tmp2.norms, tmp2.uvs, tmp2.cols, t, j, vs[j])
  {
    forall j | 0 <= j < |vs|
      ensures CornerOk(b, tmp2.verts, tmp2.norms, tmp2.uvs, tmp2.cols, t, j, vs[j])
    {
      CornerOkExtends(b, tmp, tmp2, t, j, vs[j]);
    }
  }

  lemma CornerOkExtends(b: BlenderData, tmp: Tmp, tmp2: Tmp, t: nat, i: nat, vi: nat)
    requires WellFormed(b) && t < |b.loopTris| && i < 3 && Extends(tmp, tmp2)
    requires CornerOk(b, tmp.verts, tmp.norms, tmp.uvs, tmp.cols, t, i, vi)
    ensures CornerOk(b, tmp2.verts, tmp2.norms, tmp2.uvs, tmp2.cols, t, i, vi)
  {
    assert tmp2.verts[vi] == tmp2.verts[..|tmp.verts|][vi];
    assert tmp2.norms[vi] == tmp2.norms[..|tmp.norms|][vi];
    if b.loopUVs.Some? {
      assert tmp2.uvs[vi] == tmp2.uvs[..|tmp.uvs|][vi];
    }
    if b.loopCols.Some? {
      assert tmp2.cols[vi] == tmp2.cols[..|tmp.cols|][vi];
    }
  }

  //----------------------------------------------------------------------------
  // The mesh of one material
  //----------------------------------------------------------------------------

  function Vertices(tri: Triangle): set<nat>
  {
    {tri.v0, tri.v1, tri.v2}
  }

  /** A transformation matrix, `m[i][j]` being row i, column j. */
  datatype Transform = Transform(m: seq<seq<real>>)

  /** The LuxCore mesh handed to the scene. */
  datatype ExtMesh = ExtMesh(name: string, verts: seq<Vec3>, norms: seq<Normal>, uvs: Option<seq<LoopUV>>,
                             cols: Option<seq<LoopCol>>, tris: seq<Triangle>, transform: Option<Transform>)

  function Layer<T>(o: Option<seq<T>>): seq<T>
  {
    if o.Some? then o.value else []
  }

  /**
   * Mesh m is the mesh of material matIndex: one normal per vertex, UVs and
   * colours exactly when Blender has them (one per vertex), one triangle per
   * loop triangle of the material in order, and each triangle's corners are
   * correct vertices of the mesh.
   */
  predicate MeshOf(b: BlenderData, matIndex: int, m: ExtMesh)
    requires WellFormed(b)
  {
    var ts := Matching(b, matIndex, |b.loopTris|);
    |m.norms| == |m.verts|
    && (m.uvs.Some? <==> b.loopUVs.Some?) && (m.uvs.Some? ==> |m.uvs.value| == |m.verts|)
    && (m.cols.Some? <==> b.loopCols.Some?) && (m.cols.Some? ==> |m.cols.value| == |m.verts|)
    && |m.tris| == |ts|
    && forall k :: 0 <= k < |ts| ==> TriOk(b, m.verts, m.norms, Layer(m.uvs), Layer(m.cols), ts[k], m.tris[k])
  }

  /**
   * `Scene_DefineBlenderMesh`: the mesh of the loop triangles of material
   * matIndex, or None (false in the source) when the material has none.
   */
  method DefineBlenderMesh(name: string, b: BlenderData, matIndex: int, trans: Option<Transform>)
    returns (r: Option<ExtMesh>)
    requires WellFormed(b)
    ensures r.None? <==> |Matching(b, matIndex, |b.loopTris|)| == 0
    ensures r.Some? ==> r.value.name == name && r.value.transform == trans && MeshOf(b, matIndex, r.value)
  {
    var tmp := Tmp([], [], [], [], 0, map[]);
    var tris: seq<Triangle> := [];
    for loopTriIndex := 0 to |b.loopTris|
      invariant TmpValid(b, tmp)
      invariant |tris| == |Matching(b, matIndex, loopTriIndex)|
      invariant forall k :: 0 <= k < |tris| ==>
                  TriOk(b, tmp.verts, tmp.norms, tmp.uvs, tmp.cols, Matching(b, matIndex, loopTriIndex)[k], tris[k])
    {
      if PolyOf(b, loopTriIndex).matNr != matIndex {
        continue;
      }
      tmp, tris := AddMatchingTriangle(b, matIndex, loopTriIndex, tmp, tris);
    }
    if |tris| == 0 {
      return None;
    }
    var uvs := if b.loopUVs.Some? then Some(tmp.uvs) else None;
    var cols := if b.loopCols.Some? then Some(tmp.cols) else None;
    r := Some(ExtMesh(name, tmp.verts, tmp.norms, uvs, cols, tris, trans));
  }

  /** Loop triangle t of material matIndex: its corners are added and its triangle appended. */
  method AddMatchingTriangle(b: BlenderData, matIndex: int, t: nat, tmp: Tmp, tris: seq<Triangle>)
    returns (tmp2: Tmp, tris2: seq<Triangle>)
    requires WellFormed(b) && t < |b.loopTris| && PolyOf(b, t).matNr == matIndex && TmpValid(b, tmp)
    requires |tris| == |Matching(b, matIndex, t)|
    requires forall k :: 0 <= k < |tris| ==>
               TriOk(b, tmp.verts, tmp.norms, tmp.uvs, tmp.cols, Matching(b, matIndex, t)[k], tris[k])
    ensures TmpValid(b, tmp2) && |tris2| == |Matching(b, matIndex, t + 1)|
    ensures forall k :: 0 <= k < |tris2| ==>
              TriOk(b, tmp2.verts, tmp2.norms, tmp2.uvs, tmp2.cols, Matching(b, matIndex, t + 1)[k], tris2[k])
  {
    var ts := Matching(b, matIndex, t);
    var tri;
    tmp2, tri := AddCorners(b, t, tmp);
    TrisExtend(b, tmp, tmp2, ts, tris);
    tris2 := tris + [tri];
    assert Matching(b, matIndex, t + 1) == ts + [t];
  }

  /**
   * A flat-shaded triangle shares no vertex with any other triangle of the
   * mesh: each of its vertices carries its own face normal.
   */
  lemma FlatVerticesNotShared(b: BlenderData, matIndex: int, m: ExtMesh, k1: nat, k2: nat)
    requires WellFormed(b) && MeshOf(b, matIndex, m) && k1 < |m.tris| && k2 < |m.tris| && k1 != k2
    requires !IsSmooth(PolyOf(b, Matching(b, matIndex, |b.loopTris|)[k1]))
    ensures Vertices(m.tris[k1]) !! Vertices(m.tris[k2])
  {
    var ts := Matching(b, matIndex, |b.loopTris|);
    assert ts[k1] != ts[k2] by {
      if k1 < k2 { assert ts[k1] < ts[k2]; } else { assert ts[k2] < ts[k1]; }
    }
    assert TriOk(b, m.verts, m.norms, Layer(m.uvs), Layer(m.cols), ts[k1], m.tris[k1]);
    assert TriOk(b, m.verts, m.norms, Layer(m.uvs), Layer(m.cols), ts[k2], m.tris[k2]);
  }

  //----------------------------------------------------------------------------
  // All materials of an object
  //----------------------------------------------------------------------------

  /** An item of a Python list, as `extract<float>` sees it: a number, or an object it cannot convert. */
  datatype PyItem = PyNumber(value: real) | PyNonNumber

  /** The Python transformation argument: None, a list, or another object. */
  datatype PyTransformation = PyNone | PyList(items: seq<PyItem>, className: string) | PyOther(className: string)

  /** The errors of the transformation check; NotAFloat is the Python TypeError `extract<float>` raises. */
  datatype MeshError = WrongNumberOfElements(objType: string) | WrongDataType(objType: string) | NotAFloat

  predicate AllNumbers(l: seq<PyItem>)
  {
    forall k :: 0 <= k < |l| ==> l[k].PyNumber?
  }

  /** An entry of the returned list: the mesh name and its material index. */
  datatype MeshInfo = MeshInfo(meshName: string, matIndex: nat)

  const IDENTITY: seq<seq<real>> := [[1.0, 0.0, 0.0, 0.0], [0.0, 1.0, 0.0, 0.0], [0.0, 0.0, 1.0, 0.0], [0.0, 0.0, 0.0, 1.0]]

  /** Matrix mat holds the 16 list values column by column: `mat[i][j]` is value 4 j + i. */
  predicate IsMatrixOf(mat: seq<seq<real>>, l: seq<PyItem>)
    requires |l| == 16 && AllNumbers(l)
  {
    |mat| == 4 && (forall i :: 0 <= i < 4 ==> |mat[i]| == 4)
    && forall i, j :: 0 <= i < 4 && 0 <= j < 4 ==> mat[i][j] == l[4 * j + i].value
  }

  /** The transformation a valid argument gives: none for None, the matrix of a 16-value list. */
  predicate TransformFrom(trans: Option<Transform>, transformation: PyTransformation)
  {
    (trans.Some? <==> transformation.PyList?)
    && (trans.Some? ==> |transformation.items| == 16 && AllNumbers(transformation.items)
                        && IsMatrixOf(trans.value.m, transformation.items))
  }

  /** The loops that fill the matrix; the first item that is not a number raises NotAFloat. */
  method ReadMatrix(l: seq<PyItem>) returns (r: Result<seq<seq<real>>, MeshError>)
    requires |l| == 16
    ensures r.Success? <==> AllNumbers(l)
    ensures r.Failure? ==> r.error == NotAFloat
    ensures r.Success? ==> IsMatrixOf(r.value, l)
  {
    var mat := IDENTITY;
    var index := 0;
    for j := 0 to 4
      invariant index == 4 * j && |mat| == 4 && forall i :: 0 <= i < 4 ==> |mat[i]| == 4
      invariant forall k :: 0 <= k < index ==> l[k].PyNumber?
      invariant forall i, j' :: 0 <= i < 4 && 0 <= j' < j ==> l[4 * j' + i].PyNumber? && mat[i][j'] == l[4 * j' + i].value
    {
      for i := 0 to 4
        invariant index == 4 * j + i && |mat| == 4 && forall i' :: 0 <= i' < 4 ==> |mat[i']| == 4
        invariant forall k :: 0 <= k < index ==> l[k].PyNumber?
        invariant forall i', j' :: 0 <= i' < 4 && 0 <= j' < j ==> l[4 * j' + i'].PyNumber? && mat[i'][j'] == l[4 * j' + i'].value
        invariant forall i' :: 0 <= i' < i ==> l[4 * j + i'].PyNumber? && mat[i'][j] == l[4 * j + i'].value
      {
        if !l[index].PyNumber? {
          return Failure(NotAFloat);
        }
        mat := mat[i := mat[i][j := l[index].value]];
        index := index + 1;
      }
    }
    r := Success(mat);
  }

  /**
   * The mesh name of material matIndex: the object name followed by `%03d` of
   * the index. This is what the format gives for a name without `%`; with one,
   * the name itself becomes part of the format string.
   */
  function MeshName(name: string, matIndex: nat): (s: string)
    ensures |name| <= |s| && s[..|name|] == name && Decimal.Parse(s[|name|..]) == Some(matIndex)
  {
    var t := Decimal.Pad3(matIndex);
    assert (name + t)[|name|..] == t;
    name + t
  }

  /**
   * Material matIndex produces a mesh: passed on as a `short`, it selects at
   * least one loop triangle.
   */
  predicate Produces(b: BlenderData, matIndex: nat)
    requires WellFormed(b)
  {
    |Matching(b, ToShort(matIndex), |b.loopTris|)| > 0
  }

  /**
   * The list built for the first n materials: an entry for each material index
   * whose `short` conversion selects at least one loop triangle, in index order.
   */
  function MeshList(b: BlenderData, name: string, n: nat): (r: seq<MeshInfo>)
    requires WellFormed(b)
    ensures forall k :: 0 <= k < |r| ==> r[k].matIndex < n && r[k].meshName == MeshName(name, r[k].matIndex)
    ensures forall k :: 0 <= k < |r| ==> Produces(b, r[k].matIndex)
    ensures forall k1, k2 :: 0 <= k1 < k2 < |r| ==> r[k1].matIndex < r[k2].matIndex
  {
    if n == 0 then []
    else MeshList(b, name, n - 1) + MeshEntry(b, name, n - 1)
  }

  /** The entry for material index i: present exactly when that material produces a mesh. */
  function MeshEntry(b: BlenderData, name: string, i: nat): (r: seq<MeshInfo>)
    requires WellFormed(b)
    ensures |r| <= 1 && (|r| == 1 <==> Produces(b, i))
    ensures forall k :: 0 <= k < |r| ==> r[k] == MeshInfo(MeshName(name, i), i)
  {
    if Produces(b, i) then [MeshInfo(MeshName(name, i), i)] else []
  }

  /** Every material below n that produces a mesh is listed. */
  lemma {:induction false} MeshListComplete(b: BlenderData, name: string, n: nat, i: nat)
    requires WellFormed(b) && i < n
    ensures MeshInfo(MeshName(name, i), i) in MeshList(b, name, n) <==> Produces(b, i)
  {
    if i < n - 1 {
      MeshListComplete(b, name, n - 1, i);
      var front := MeshList(b, name, n - 1);
      assert forall k :: 0 <= k < |front| ==> front[k].matIndex < n - 1;
    }
  }

  /** Mesh m is the one defined for list entry info, with the transformation trans. */
  predicate DefinedAs(b: BlenderData, trans: Option<Transform>, info: MeshInfo, m: ExtMesh)
    requires WellFormed(b)
  {
    m.name == info.meshName && MeshOf(b, ToShort(info.matIndex), m) && m.transform == trans
  }

  predicate AllDefined(b: BlenderData, trans: Option<Transform>, result: seq<MeshInfo>, defined: seq<ExtMesh>)
    requires WellFormed(b)
  {
    |defined| == |result| && forall k :: 0 <= k < |defined| ==> DefinedAs(b, trans, result[k], defined[k])
  }

  lemma AllDefinedAppend(b: BlenderData, trans: Option<Transform>, result: seq<MeshInfo>, defined: seq<ExtMesh>,
                         info: MeshInfo, m: ExtMesh)
    requires WellFormed(b) && AllDefined(b, trans, result, defined) && DefinedAs(b, trans, info, m)
    ensures AllDefined(b, trans, result + [info], defined + [m])
  {
    var result2, defined2 := result + [info], defined + [m];
    forall k | 0 <= k < |defined2|
      ensures DefinedAs(b, trans, result2[k], defined2[k])
    {
      if k < |defined| {
        assert result2[k] == result[k] && defined2[k] == defined[k];
      }
    }
  }

  /**
   * `Scene_DefineBlenderMesh1`: checks the transformation, then builds the mesh
   * of every material below materialCount, defines those that have triangles
   * and lists them in index order.
   */
  method DefineBlenderMesh1(name: string, b: BlenderData, materialCount: uint32, transformation: PyTransformation)
    returns (r: Result<seq<MeshInfo>, MeshError>, defined: seq<ExtMesh>)
    requires WellFormed(b)
    requires materialCount > 0 ==> '%' !in name
    ensures transformation.PyOther? ==> r == Failure(WrongDataType(transformation.className))
    ensures transformation.PyList? && |transformation.items| != 16 ==>
              r == Failure(WrongNumberOfElements(transformation.className))
    ensures r.Failure? ==> defined == []
    ensures transformation.PyList? && |transformation.items| == 16 && !AllNumbers(transformation.items) ==>
              r == Failure(NotAFloat)
    ensures r.Success? <==> transformation.PyNone?
                            || (transformation.PyList? && |transformation.items| == 16 && AllNumbers(transformation.items))
    ensures r.Success? ==> r.value == MeshList(b, name, materialCount as nat) && |defined| == |r.value|
    ensures r.Success? ==> forall k :: 0 <= k < |defined| ==>
              defined[k].name == r.value[k].meshName
              && MeshOf(b, ToShort(r.value[k].matIndex), defined[k])
              && TransformFrom(defined[k].transform, transformation)
  {
    defined := [];
    var trans: Option<Transform> := None;
    match transformation {
      case PyNone =>
      case PyOther(className) =>
        return Failure(WrongDataType(className)), [];
      case PyList(items, className) =>
        if |items| != 16 {
          return Failure(WrongNumberOfElements(className)), [];
        }
        var mat := ReadMatrix(items);
        if mat.Failure? {
          return Failure(mat.error), [];
        }
        trans := Some(Transform(mat.value));
    }
    var result: seq<MeshInfo> := [];
    for matIndex := 0 to materialCount as nat
      invariant result == MeshList(b, name, matIndex) && AllDefined(b, trans, result, defined)
      invariant TransformFrom(trans, transformation)
    {
      var meshName := MeshName(name, matIndex);
      var mesh := DefineBlenderMesh(meshName, b, ToShort(matIndex), trans);
      if mesh.Some? {
        AllDefinedAppend(b, trans, result, defined, MeshInfo(meshName, matIndex), mesh.value);
        defined := defined + [mesh.value];
        result := result + [MeshInfo(meshName, matIndex)];
      }
    }
    forall k | 0 <= k < |defined|
      ensures defined[k].name == result[k].meshName && MeshOf(b, ToShort(result[k].matIndex), defined[k])
      ensures TransformFrom(defined[k].transform, transformation)
    {
      assert DefinedAs(b, trans, result[k], defined[k]);
    }
    r := Success(result);
  }

  /** `Scene_DefineBlenderMesh2`: the same without a transformation, so it never fails. */
  method DefineBlenderMesh2(name: string, b: BlenderData, materialCount: uint32)
    returns (result: seq<MeshInfo>, defined: seq<ExtMesh>)
    requires WellFormed(b)
    requires materialCount > 0 ==> '%' !in name
    ensures result == MeshList(b, name, materialCount as nat) && |defined| == |result|
    ensures forall k :: 0 <= k < |defined| ==>
              defined[k].name == result[k].meshName
              && MeshOf(b, ToShort(result[k].matIndex), defined[k])
              && defined[k].transform.None?
  {
    var r;
    r, defined := DefineBlenderMesh1(name, b, materialCount, PyNone);
    result := r.value;
  }
}
