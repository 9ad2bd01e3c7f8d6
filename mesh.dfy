/** Mesh topology: the index data of the latitude/longitude sphere that
    `GenerateBallMeshData` builds and of the static platform box, and the
    element counts the two meshes are drawn with.

    Vertex positions and colours of the sphere come from trigonometry in
    floating point; a vertex slot records instead which vertex was written
    there: a pole, or the ring point at polar angle `theta` and azimuth
    `alpha` (both in degrees), which is what its position is computed from. */
module Mesh {
  import opened Vectors

  // The sizes are written as literals so that index arithmetic stays linear
  // for the verifier; `SphereConstants` shows they are the derived values.
  const AngleStep: int := 15
  /** Rings of points strictly between the two poles. */
  const RowCount: int := 11
  const PointsPerRow: int := 24

  const BallVertexCount: int := 266
  const BallFaceCount: int := 528

  /** The sizes follow from the angle step as the C++ computes them. */
  lemma SphereConstants()
    ensures RowCount == 180 / AngleStep - 1 && PointsPerRow == 360 / AngleStep
    ensures BallVertexCount == PointsPerRow * RowCount + 2
    ensures BallFaceCount == PointsPerRow * 2 * RowCount
  {
  }

  /** One triangle: three indices into a vertex buffer. */
  datatype Face = Face(a: int, b: int, c: int)

  predicate HasVertex(f: Face, v: int) {
    f.a == v || f.b == v || f.c == v
  }

  /** Corner `k` of a triangle, in the order the index buffer lists them. */
  function Corner(f: Face, k: int): int
    requires 0 <= k < 3
  {
    if k == 0 then f.a else if k == 1 then f.b else f.c
  }

  /** A mesh as the renderer holds it: the number of indices one draw call
      submits. */
  datatype MeshHandle = MeshHandle(verticesCount: nat)

  // The static platform: an 18 x 1 x 18 box centred on the origin.

  /** The eight box corners in vertex-buffer order. */
  const PlatformVertexPositions: seq<Vec3> := [
    Vec3(-9.0, -0.5, 9.0), Vec3(-9.0, 0.5, 9.0),
    Vec3(9.0, -0.5, 9.0), Vec3(9.0, 0.5, 9.0),
    Vec3(9.0, -0.5, -9.0), Vec3(9.0, 0.5, -9.0),
    Vec3(-9.0, -0.5, -9.0), Vec3(-9.0, 0.5, -9.0)
  ]

  /** Two triangles per side: front, right, back, left, top, bottom. */
  const PlatformFaces: seq<Face> := [
    Face(0, 1, 2), Face(1, 2, 3),
    Face(2, 3, 4), Face(3, 4, 5),
    Face(4, 5, 6), Face(5, 6, 7),
    Face(6, 7, 0), Face(7, 0, 1),
    Face(1, 3, 5), Face(5, 7, 1),
    Face(0, 2, 4), Face(4, 6, 0)
  ]

  /** Whether point `p` lies on side `k` of the platform box, the sides in
      the order the triangle table lists them. */
  predicate OnSide(p: Vec3, k: int) {
    match k
    case 0 => p.z == 9.0
    case 1 => p.x == 9.0
    case 2 => p.z == -9.0
    case 3 => p.x == -9.0
    case 4 => p.y == 0.5
    case 5 => p.y == -0.5
    case _ => false
  }


  /** Every platform triangle has three distinct corners, each an index into
      the eight-vertex buffer. */
  lemma PlatformFacesWellFormed(k: int)
    requires 0 <= k < |PlatformFaces|
    ensures 0 <= PlatformFaces[k].a < |PlatformVertexPositions|
    ensures 0 <= PlatformFaces[k].b < |PlatformVertexPositions|
    ensures 0 <= PlatformFaces[k].c < |PlatformVertexPositions|
    ensures PlatformFaces[k].a != PlatformFaces[k].b && PlatformFaces[k].b != PlatformFaces[k].c
    ensures PlatformFaces[k].a != PlatformFaces[k].c
  {
  }

  /** Triangles 2k and 2k + 1 are two different triangles on side k of the
      box, and together they use exactly that side's four corners. */
  lemma PlatformSidesCovered(k: int)
    requires 0 <= k < 6
    ensures PlatformFaces[2 * k] != PlatformFaces[2 * k + 1]
    ensures forall v :: 0 <= v < |PlatformVertexPositions| ==>
      (OnSide(PlatformVertexPositions[v], k) <==>
       HasVertex(PlatformFaces[2 * k], v) || HasVertex(PlatformFaces[2 * k + 1], v))
  {
    var p := PlatformVertexPositions;
    assert p[0].x == -9.0 && p[0].y == -0.5 && p[0].z == 9.0;
    assert p[1].x == -9.0 && p[1].y == 0.5 && p[1].z == 9.0;
    assert p[2].x == 9.0 && p[2].y == -0.5 && p[2].z == 9.0;
    assert p[3].x == 9.0 && p[3].y == 0.5 && p[3].z == 9.0;
    assert p[4].x == 9.0 && p[4].y == -0.5 && p[4].z == -9.0;
    assert p[5].x == 9.0 && p[5].y == 0.5 && p[5].z == -9.0;
    assert p[6].x == -9.0 && p[6].y == -0.5 && p[6].z == -9.0;
    assert p[7].x == -9.0 && p[7].y == 0.5 && p[7].z == -9.0;
  }

  /** The platform mesh draws three indices per triangle of its table. */
  function CreatePlatformMesh(): (m: MeshHandle)
    ensures m.verticesCount == 36
    ensures forall i :: 0 <= i < m.verticesCount ==>
      0 <= Corner(PlatformFaces[i / 3], i % 3) < |PlatformVertexPositions|
  {
    MeshHandle(|PlatformFaces| * 3)
  }

  datatype VertexSlot = Unwritten | TopPole | BottomPole | RingPoint(theta: int, alpha: int)

  /** The slot of column `c` (taken round the ring) of ring `r`. */
  function RingVertex(r: int, c: int): int {
    r * PointsPerRow + c % PointsPerRow + 1
  }

  /** What slot `s` of the sphere's vertex array holds: the top pole first,
      then the rings from the top down, each from azimuth 0 in steps of
      AngleStep, then the bottom pole. */
  function BallVertex(s: int): VertexSlot
    requires 0 <= s < BallVertexCount
  {
    if s == 0 then TopPole
    else if s == BallVertexCount - 1 then BottomPole
    else RingPoint(((s - 1) / PointsPerRow + 1) * AngleStep, ((s - 1) % PointsPerRow) * AngleStep)
  }

  /** What slot `s` of the sphere's triangle array holds: a fan round the top
      pole over the first ring, a fan round the bottom pole over the last
      ring, then for every pair of neighbouring rings two triangles per
      column. Columns are taken round the ring, so the last column closes
      the seam at azimuth 0. */
  function BallFace(s: int): Face
    requires 0 <= s < BallFaceCount
  {
    if s < PointsPerRow then
      Face(0, RingVertex(0, s), RingVertex(0, s + 1))
    else if s < 2 * PointsPerRow then
      var c := s - PointsPerRow;
      Face(BallVertexCount - 1, RingVertex(RowCount - 1, c), RingVertex(RowCount - 1, c + 1))
    else
      var q := s % (2 * PointsPerRow);
      BandFace(s / (2 * PointsPerRow) - 1, q / 2, q % 2 == 1)
  }

  /** The triangle of column `c` between ring `band` and ring `band + 1`:
      the first one of the column (apex on the lower ring) or the second. */
  function BandFace(band: int, c: int, second: bool): Face {
    if !second then Face(RingVertex(band + 1, c), RingVertex(band, c), RingVertex(band + 1, c + 1))
    else Face(RingVertex(band, c), RingVertex(band + 1, c + 1), RingVertex(band, c + 1))
  }

  /** Slot `s` of the band part of the triangle array holds triangle
      `s mod 2` of column `(s mod 48) / 2` in band `s / 48 - 1`. */
  lemma BandSlot(s: int, band: int, c: int, second: bool)
    requires 0 <= band < RowCount - 1 && 0 <= c < PointsPerRow
    requires s == (band + 1) * (2 * PointsPerRow) + 2 * c + (if second then 1 else 0)
    ensures 2 * PointsPerRow <= s < BallFaceCount
    ensures BallFace(s) == BandFace(band, c, second)
  {
    assert s / (2 * PointsPerRow) == band + 1;
    assert s % (2 * PointsPerRow) == 2 * c + (if second then 1 else 0);
  }

  /** Slot `i * PointsPerRow + j` of the loop holds the ring point of ring `i`
      and column `j - 1`. */
  lemma RingSlot(i: int, j: int)
    requires 0 <= i < RowCount && 1 <= j <= PointsPerRow
    ensures 1 <= i * PointsPerRow + j < BallVertexCount - 1
    ensures BallVertex(i * PointsPerRow + j) == RingPoint((i + 1) * AngleStep, (j - 1) * AngleStep)
  {
    var s := i * PointsPerRow + j;
    assert (s - 1) / PointsPerRow == i;
    assert (s - 1) % PointsPerRow == j - 1;
  }

  /** The two band triangles of column `j` between rings `i` and `i + 1`,
      away from the seam. */
  lemma BandFaces(i: int, j: int)
    requires 0 <= i < RowCount - 1 && 0 <= j < PointsPerRow - 1
    ensures 2 * PointsPerRow <= (i + 1) * PointsPerRow * 2 + j * 2 < BallFaceCount - 1
    ensures BallFace((i + 1) * PointsPerRow * 2 + j * 2) ==
      Face((i + 1) * PointsPerRow + j + 1, i * PointsPerRow + j + 1, (i + 1) * PointsPerRow + j + 2)
    ensures BallFace((i + 1) * PointsPerRow * 2 + j * 2 + 1) ==
      Face(i * PointsPerRow + j + 1, (i + 1) * PointsPerRow + j + 2, i * PointsPerRow + j + 2)
  {
    var s := (i + 1) * PointsPerRow * 2 + j * 2;
    BandSlot(s, i, j, false);
    BandSlot(s + 1, i, j, true);
    InnerColumn(i, j);
  }

  /** Away from the seam, the ring slots of columns `j` and `j + 1` need no
      wrap-around. */
  lemma InnerColumn(i: int, j: int)
    requires 0 <= i < RowCount - 1 && 0 <= j < PointsPerRow - 1
    ensures RingVertex(i, j) == i * PointsPerRow + j + 1 && RingVertex(i, j + 1) == i * PointsPerRow + j + 2
    ensures RingVertex(i + 1, j) == (i + 1) * PointsPerRow + j + 1
    ensures RingVertex(i + 1, j + 1) == (i + 1) * PointsPerRow + j + 2
  {
    assert j % PointsPerRow == j && (j + 1) % PointsPerRow == j + 1;
  }

  /** The two band triangles of the last column, which close the seam. */
  lemma SeamFaces(i: int)
    requires 0 <= i < RowCount - 1
    ensures BallFace((i + 1) * PointsPerRow * 2 + (PointsPerRow - 1) * 2) ==
      Face((i + 1) * PointsPerRow + PointsPerRow, i * PointsPerRow + PointsPerRow, (i + 1) * PointsPerRow + 1)
    ensures BallFace((i + 1) * PointsPerRow * 2 + (PointsPerRow - 1) * 2 + 1) ==
      Face(i * PointsPerRow + PointsPerRow, (i + 1) * PointsPerRow + 1, i * PointsPerRow + 1)
  {
    BandSlot((i + 1) * PointsPerRow * 2 + (PointsPerRow - 1) * 2, i, PointsPerRow - 1, false);
    BandSlot((i + 1) * PointsPerRow * 2 + (PointsPerRow - 1) * 2 + 1, i, PointsPerRow - 1, true);
  }

  /** Ring `r`, column `c` names a ring-point slot whose vertex lies at polar
      angle (r + 1) * AngleStep and azimuth (c mod 24) * AngleStep. */
  lemma RingVertexAngles(r: int, c: int)
    requires 0 <= r < RowCount
    ensures 0 < RingVertex(r, c) < BallVertexCount - 1
    ensures BallVertex(RingVertex(r, c)) == RingPoint((r + 1) * AngleStep, (c % PointsPerRow) * AngleStep)
  {
    var s := RingVertex(r, c);
    assert (s - 1) / PointsPerRow == r;
    assert (s - 1) % PointsPerRow == c % PointsPerRow;
  }

  /** Every vertex slot between the poles holds a ring point strictly between
      the poles' polar angles, at an azimuth below a full turn. */
  lemma RingPointsBetweenPoles(s: int)
    requires 0 < s < BallVertexCount - 1
    ensures BallVertex(s).RingPoint?
    ensures 0 < BallVertex(s).theta < 180 && 0 <= BallVertex(s).alpha < 360
  {
  }

  /** No vertex appears in two slots. */
  lemma BallVerticesDistinct(s1: int, s2: int)
    requires 0 <= s1 < BallVertexCount && 0 <= s2 < BallVertexCount && s1 != s2
    ensures BallVertex(s1) != BallVertex(s2)
  {
    if 0 < s1 < BallVertexCount - 1 && 0 < s2 < BallVertexCount - 1 {
      var q1, m1 := (s1 - 1) / PointsPerRow, (s1 - 1) % PointsPerRow;
      var q2, m2 := (s2 - 1) / PointsPerRow, (s2 - 1) % PointsPerRow;
      assert s1 - 1 == q1 * PointsPerRow + m1 && s2 - 1 == q2 * PointsPerRow + m2;
      if q1 == q2 {
        assert m1 != m2;
      }
    }
  }

  /** A band triangle has three distinct corners, all ring points (neither
      pole). */
  lemma BandFaceInRings(band: int, c: int, second: bool)
    requires 0 <= band < RowCount - 1
    ensures 0 < BandFace(band, c, second).a < BallVertexCount - 1
    ensures 0 < BandFace(band, c, second).b < BallVertexCount - 1
    ensures 0 < BandFace(band, c, second).c < BallVertexCount - 1
    ensures BandFace(band, c, second).a != BandFace(band, c, second).b
    ensures BandFace(band, c, second).b != BandFace(band, c, second).c
    ensures BandFace(band, c, second).a != BandFace(band, c, second).c
  {
    NeighbourSlots(band, c);
    NeighbourSlots(band + 1, c);
  }

  /** The slots of neighbouring columns of one ring lie strictly between the
      poles and are distinct. */
  lemma NeighbourSlots(r: int, c: int)
    requires 0 <= r < RowCount
    ensures 0 < RingVertex(r, c) < BallVertexCount - 1 && 0 < RingVertex(r, c + 1) < BallVertexCount - 1
    ensures RingVertex(r, c) != RingVertex(r, c + 1)
  {
    assert c % PointsPerRow != (c + 1) % PointsPerRow;
  }

  /** Every index of every sphere triangle names one of the 266 vertex slots,
      and the three indices of a triangle are distinct. */
  lemma BallFaceWellFormed(s: int)
    requires 0 <= s < BallFaceCount
    ensures 0 <= BallFace(s).a < BallVertexCount
    ensures 0 <= BallFace(s).b < BallVertexCount
    ensures 0 <= BallFace(s).c < BallVertexCount
    ensures BallFace(s).a != BallFace(s).b && BallFace(s).b != BallFace(s).c && BallFace(s).a != BallFace(s).c
  {
    if s < PointsPerRow {
      NeighbourSlots(0, s);
    } else if s < 2 * PointsPerRow {
      NeighbourSlots(RowCount - 1, s - PointsPerRow);
    } else {
      var q := s % (2 * PointsPerRow);
      BandFaceInRings(s / (2 * PointsPerRow) - 1, q / 2, q % 2 == 1);
    }
  }

  /** The 24 top-cap triangles all contain the top pole and the 24
      bottom-cap triangles the bottom pole; no band triangle touches a pole. */
  lemma BallFacePoles(s: int)
    requires 0 <= s < BallFaceCount
    ensures s < PointsPerRow ==> BallFace(s).a == 0 && !HasVertex(BallFace(s), BallVertexCount - 1)
    ensures PointsPerRow <= s < 2 * PointsPerRow ==> BallFace(s).a == BallVertexCount - 1 && !HasVertex(BallFace(s), 0)
    ensures 2 * PointsPerRow <= s ==> !HasVertex(BallFace(s), 0) && !HasVertex(BallFace(s), BallVertexCount - 1)
  {
    if 2 * PointsPerRow <= s {
      var q := s % (2 * PointsPerRow);
      BandFaceInRings(s / (2 * PointsPerRow) - 1, q / 2, q % 2 == 1);
    }
  }

  /** The top cap fans round the first ring in azimuth order, closing the
      seam at azimuth 0. */
  lemma TopCapFan(k: int)
    requires 0 <= k < PointsPerRow
    ensures BallVertex(BallFace(k).b) == RingPoint(AngleStep, k * AngleStep)
    ensures BallVertex(BallFace(k).c) == RingPoint(AngleStep, ((k + 1) % PointsPerRow) * AngleStep)
  {
    assert BallFace(k) == Face(0, RingVertex(0, k), RingVertex(0, k + 1));
    RingVertexAngles(0, k);
    RingVertexAngles(0, k + 1);
  }

  /** The bottom cap fans round the last ring in azimuth order, closing the
      seam at azimuth 0. */
  lemma BottomCapFan(k: int)
    requires 0 <= k < PointsPerRow
    ensures BallVertex(BallFace(PointsPerRow + k).b) == RingPoint(RowCount * AngleStep, k * AngleStep)
    ensures BallVertex(BallFace(PointsPerRow + k).c) ==
      RingPoint(RowCount * AngleStep, ((k + 1) % PointsPerRow) * AngleStep)
  {
    assert BallFace(PointsPerRow + k) ==
      Face(BallVertexCount - 1, RingVertex(RowCount - 1, k), RingVertex(RowCount - 1, k + 1));
    RingVertexAngles(RowCount - 1, k);
    RingVertexAngles(RowCount - 1, k + 1);
  }

  /** Every vertex slot is used by at least one sphere triangle. */
  lemma EveryVertexIsUsed(v: int)
    requires 0 <= v < BallVertexCount
    ensures exists s :: 0 <= s < BallFaceCount && HasVertex(BallFace(s), v)
  {
    if v == 0 {
      assert HasVertex(BallFace(0), v);
    } else if v == BallVertexCount - 1 {
      assert HasVertex(BallFace(PointsPerRow), v);
    } else {
      var r, c := (v - 1) / PointsPerRow, (v - 1) % PointsPerRow;
      assert v == RingVertex(r, c);
      if r == 0 {
        assert HasVertex(BallFace(c), v);
      } else {
        var s := r * (2 * PointsPerRow) + 2 * c;
        BandSlot(s, r - 1, c, false);
        assert HasVertex(BallFace(s), v);
      }
    }
  }

  /** The first half of `GenerateBallMeshData`: 266 vertex slots, the top
      pole, the eleven rings of 24 points and the bottom pole, every one
      written with the vertex `BallVertex` names. */
  method GenerateBallVertices() returns (meshData: array<VertexSlot>)
    ensures meshData.Length == BallVertexCount == 266
    ensures forall s :: 0 <= s < meshData.Length ==> meshData[s] == BallVertex(s)
  {
    meshData := new VertexSlot[PointsPerRow * RowCount + 2](_ => Unwritten);
    meshData[0] := TopPole;
    for i := 0 to RowCount
      modifies meshData
      invariant meshData[0] == TopPole
      invariant forall s :: 1 <= s <= i * PointsPerRow ==> meshData[s] == BallVertex(s)
    {
      var theta := (i + 1) * AngleStep;
      var alpha := 0;
      for j := 1 to PointsPerRow + 1
        modifies meshData
        invariant alpha == (j - 1) * AngleStep
        invariant meshData[0] == TopPole
        invariant forall s :: 1 <= s < i * PointsPerRow + j ==> meshData[s] == BallVertex(s)
      {
        RingSlot(i, j);
        meshData[i * PointsPerRow + j] := RingPoint(theta, alpha);
        alpha := alpha + AngleStep;
      }
    }
    meshData[meshData.Length - 1] := BottomPole;
  }

  /** The two pole fans of `GenerateBallMeshData`, each closed by a last
      triangle that returns to the ring's first point; the bottom pole's
      index is the last vertex slot. */
  method FillCaps(faces: array<Face>, vertexCount: int)
    requires faces.Length == BallFaceCount && vertexCount == BallVertexCount
    modifies faces
    ensures forall s :: 0 <= s < 2 * PointsPerRow ==> faces[s] == BallFace(s)
    ensures forall s :: 2 * PointsPerRow <= s < faces.Length ==> faces[s] == old(faces[s])
  {
    // The fan round the top pole.
    for i := 0 to PointsPerRow - 1
      modifies faces
      invariant forall s :: 0 <= s < i ==> faces[s] == BallFace(s)
      invariant forall s :: i <= s < faces.Length ==> faces[s] == old(faces[s])
    {
      faces[i] := Face(0, i + 1, i + 2);
    }
    faces[PointsPerRow - 1] := Face(0, PointsPerRow, 1);

    // The fan round the bottom pole.
    for i := 0 to PointsPerRow - 1
      modifies faces
      invariant forall s :: 0 <= s < PointsPerRow + i ==> faces[s] == BallFace(s)
      invariant forall s :: PointsPerRow + i <= s < faces.Length ==> faces[s] == old(faces[s])
    {
      faces[PointsPerRow + i] := Face(
        vertexCount - 1,
        (RowCount - 1) * PointsPerRow + i + 1,
        (RowCount - 1) * PointsPerRow + i + 2);
    }
    faces[2 * PointsPerRow - 1] := Face(vertexCount - 1, RowCount * PointsPerRow, (RowCount - 1) * PointsPerRow + 1);
  }

  /** One column of band `i`: the two triangles of the quad between rings
      `i` and `i + 1` at column `j`, the last column closing the seam. */
  method FillQuad(faces: array<Face>, i: int, j: int)
    requires faces.Length == BallFaceCount && 0 <= i < RowCount - 1 && 0 <= j < PointsPerRow
    modifies faces
    ensures faces[(i + 1) * PointsPerRow * 2 + j * 2] == BallFace((i + 1) * PointsPerRow * 2 + j * 2)
    ensures faces[(i + 1) * PointsPerRow * 2 + j * 2 + 1] == BallFace((i + 1) * PointsPerRow * 2 + j * 2 + 1)
    ensures forall s ::
      0 <= s < faces.Length && s != (i + 1) * PointsPerRow * 2 + j * 2 && s != (i + 1) * PointsPerRow * 2 + j * 2 + 1
      ==> faces[s] == old(faces[s])
  {
    var offset := (i + 1) * PointsPerRow * 2;
    if j < PointsPerRow - 1 {
      BandFaces(i, j);
      faces[offset + j * 2] := Face(
        (i + 1) * PointsPerRow + j + 1,
        i * PointsPerRow + j + 1,
        (i + 1) * PointsPerRow + j + 2);
      faces[offset + j * 2 + 1] := Face(
        i * PointsPerRow + j + 1,
        (i + 1) * PointsPerRow + j + 2,
        i * PointsPerRow + j + 2);
    } else {
      SeamFaces(i);
      faces[offset + j * 2] := Face(
        (i + 1) * PointsPerRow + j + 1,
        i * PointsPerRow + j + 1,
        (i + 1) * PointsPerRow + 1);
      faces[offset + j * 2 + 1] := Face(
        i * PointsPerRow + j + 1,
        (i + 1) * PointsPerRow + 1,
        i * PointsPerRow + 1);
    }
  }

  /** One pass of the band loop: the 48 triangles between ring `i` and ring
      `i + 1`, two per column, the last two closing the seam. Slots outside
      the band keep their triangles. */
  method FillBand(faces: array<Face>, i: int)
    requires faces.Length == BallFaceCount && 0 <= i < RowCount - 1
    modifies faces
    ensures forall s :: (i + 1) * PointsPerRow * 2 <= s < (i + 2) * PointsPerRow * 2 ==> faces[s] == BallFace(s)
    ensures forall s :: 0 <= s < (i + 1) * PointsPerRow * 2 ==> faces[s] == old(faces[s])
    ensures forall s :: (i + 2) * PointsPerRow * 2 <= s < faces.Length ==> faces[s] == old(faces[s])
  {
    var offset := (i + 1) * PointsPerRow * 2;
    var j := 0;
    while j < PointsPerRow
      modifies faces
      invariant 0 <= j <= PointsPerRow
      invariant forall s :: offset <= s < offset + j * 2 ==> faces[s] == BallFace(s)
      invariant forall s :: 0 <= s < offset ==> faces[s] == old(faces[s])
      invariant forall s :: offset + j * 2 <= s < faces.Length ==> faces[s] == old(faces[s])
    {
      FillQuad(faces, i, j);
      j := j + 1;
    }
  }

  /** The second half of `GenerateBallMeshData`, given the size of the vertex
      array: 528 triangle slots, every one holding the triangle `BallFace`
      names. */
  method GenerateBallFaces(vertexCount: int) returns (faces: array<Face>)
    requires vertexCount == BallVertexCount
    ensures faces.Length == BallFaceCount == 528
    ensures forall s :: 0 <= s < faces.Length ==> faces[s] == BallFace(s)
  {
    faces := new Face[PointsPerRow * 2 * RowCount](_ => Face(0, 0, 0));
    FillCaps(faces, vertexCount);
    for i := 0 to RowCount - 1
      modifies faces
      invariant forall s :: 0 <= s < (i + 1) * PointsPerRow * 2 ==> faces[s] == BallFace(s)
    {
      FillBand(faces, i);
    }
  }

  /** The sphere's vertex and triangle arrays; the triangle loops take the
      bottom pole's index from the size of the vertex array. */
  method GenerateBallMeshData() returns (meshData: array<VertexSlot>, faces: array<Face>)
    ensures meshData.Length == 266 && faces.Length == 528
    ensures forall s :: 0 <= s < meshData.Length ==> meshData[s] == BallVertex(s)
    ensures forall s :: 0 <= s < faces.Length ==> faces[s] == BallFace(s)
  {
    meshData := GenerateBallVertices();
    faces := GenerateBallFaces(meshData.Length);
  }

  /** The ball mesh draws three indices per generated triangle, and every
      index it draws names a slot of the generated vertex array. */
  method CreateBallMesh() returns (mesh: MeshHandle)
    ensures mesh.verticesCount == 3 * BallFaceCount == 1584
    ensures forall i :: 0 <= i < mesh.verticesCount ==>
      0 <= Corner(BallFace(i / 3), i % 3) < BallVertexCount
  {
    var meshData, faces := GenerateBallMeshData();
    mesh := MeshHandle(faces.Length * 3);
    forall i | 0 <= i < mesh.verticesCount
      ensures 0 <= Corner(BallFace(i / 3), i % 3) < BallVertexCount
    {
      BallFaceWellFormed(i / 3);
    }
  }
}
