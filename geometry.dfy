/** The mesh of one axis-aligned box ("block"): 8 corners and 12 triangles. */
module Geometry {

  /** The vertex coordinates (flattened x, y, z triples) and triangle indices of one block. */
  datatype Part = Part(vertices: seq<real>, indices: seq<int>)

  datatype Axis = X | Y | Z

  /** The six faces of a block, in the order the index template lists them. */
  datatype Face = Front | Back | Right | Left | Top | Bottom

  /** Local corner indices of the 12 triangles, two per face:
      front, back, right, left, top, bottom. */
  const Template: seq<int> :=
    [0, 1, 2,  0, 2, 3,
     4, 5, 7,  4, 7, 6,
     3, 2, 7,  3, 7, 6,
     0, 1, 5,  0, 5, 4,
     0, 3, 6,  0, 6, 4,
     1, 2, 7,  1, 7, 5]

  /** Side of the centre (+1 or -1) on which corner `k` lies along axis `a`. */
  function Sign(a: Axis, k: int): (s: real)
    requires 0 <= k < 8
    ensures s == 1.0 || s == -1.0
  {
    match a
    case X => [-1.0, -1.0, 1.0, 1.0, -1.0, -1.0, 1.0, 1.0][k]
    case Y => [1.0, -1.0, -1.0, 1.0, 1.0, -1.0, 1.0, -1.0][k]
    case Z => [1.0, 1.0, 1.0, 1.0, -1.0, -1.0, -1.0, -1.0][k]
  }

  function AxisIndex(a: Axis): (i: nat)
    ensures i < 3
  {
    match a
    case X => 0
    case Y => 1
    case Z => 2
  }

  /** The component along axis `a` of the triple (vx, vy, vz). */
  function Along(a: Axis, vx: real, vy: real, vz: real): real {
    match a
    case X => vx
    case Y => vy
    case Z => vz
  }

  /** Coordinate `a` of local corner `k` of a part. */
  function Coord(p: Part, k: int, a: Axis): real
    requires 0 <= k < 8 && |p.vertices| == 24
  {
    p.vertices[3 * k + AxisIndex(a)]
  }

  function FaceAxis(f: Face): Axis {
    match f
    case Front => Z
    case Back => Z
    case Right => X
    case Left => X
    case Top => Y
    case Bottom => Y
  }

  /** The side of the box (+1 or -1) along `FaceAxis(f)` on which face `f` lies. */
  function FaceSign(f: Face): real {
    match f
    case Front => 1.0
    case Right => 1.0
    case Top => 1.0
    case Back => -1.0
    case Left => -1.0
    case Bottom => -1.0
  }

  /** The part's 8 corners are those of the box centred at (x, y, z) with width `w`,
      height `h` and depth `d`: corner k lies Sign(a, k) half dimensions from the
      centre along each axis a. */
  ghost predicate IsBox(p: Part, x: real, y: real, z: real, w: real, h: real, d: real) {
    |p.vertices| == 24 &&
    forall k, a :: 0 <= k < 8 ==>
      Coord(p, k, a) == Along(a, x, y, z) + Sign(a, k) * (Along(a, w, h, d) / 2.0)
  }

  /** `createBlock`: the 8 corners of the box centred at (x, y, z) with width `w`,
      height `h` and depth `d`, and its 36 triangle indices rebased by `offset`. */
  function CreateBlock(x: real, y: real, z: real, w: real, h: real, d: real, offset: int): (p: Part)
    ensures |p.vertices| == 24 && |p.indices| == 36
    ensures forall j :: 0 <= j < 36 ==> p.indices[j] == Template[j] + offset
    ensures forall j :: 0 <= j < 36 ==> offset <= p.indices[j] < offset + 8
  {
    var hw, hh, hd := w / 2.0, h / 2.0, d / 2.0;
    Part(
      [x - hw, y + hh, z + hd,
       x - hw, y - hh, z + hd,
       x + hw, y - hh, z + hd,
       x + hw, y + hh, z + hd,

       x - hw, y + hh, z - hd,
       x - hw, y - hh, z - hd,
       x + hw, y + hh, z - hd,
       x + hw, y - hh, z - hd],
      seq(36, j requires 0 <= j < 36 => Template[j] + offset))
  }

  /** Along axis `a`, corner k of the part lies on the side `Sign(a, k)` of the centre,
      half the box's extent away. */
  ghost predicate BoxAlong(p: Part, a: Axis, x: real, y: real, z: real, w: real, h: real, d: real) {
    |p.vertices| == 24 &&
    forall k :: 0 <= k < 8 ==>
      Coord(p, k, a) == Along(a, x, y, z) + Sign(a, k) * (Along(a, w, h, d) / 2.0)
  }

  /** A part that is the box along each of the three axes is the box. */
  lemma BoxFromAxes(p: Part, x: real, y: real, z: real, w: real, h: real, d: real)
    requires BoxAlong(p, X, x, y, z, w, h, d)
    requires BoxAlong(p, Y, x, y, z, w, h, d)
    requires BoxAlong(p, Z, x, y, z, w, h, d)
    ensures IsBox(p, x, y, z, w, h, d)
  {
    forall k, a | 0 <= k < 8
      ensures Coord(p, k, a) == Along(a, x, y, z) + Sign(a, k) * (Along(a, w, h, d) / 2.0)
    {
      match a
      case X => case Y => case Z =>
    }
  }

  /** Along the x axis, the vertices `CreateBlock` lists are the box's corners. */
  lemma CreateBlockAlongX(x: real, y: real, z: real, w: real, h: real, d: real, offset: int)
    ensures BoxAlong(CreateBlock(x, y, z, w, h, d, offset), X, x, y, z, w, h, d)
  {
    var p := CreateBlock(x, y, z, w, h, d, offset);
    forall k | 0 <= k < 8
      ensures Coord(p, k, X) == x + Sign(X, k) * (w / 2.0)
    {
      match k
      case 0 => case 1 => case 2 => case 3 => case 4 => case 5 => case 6 => case 7 =>
    }
  }

  /** Along the y axis, the vertices `CreateBlock` lists are the box's corners. */
  lemma CreateBlockAlongY(x: real, y: real, z: real, w: real, h: real, d: real, offset: int)
    ensures BoxAlong(CreateBlock(x, y, z, w, h, d, offset), Y, x, y, z, w, h, d)
  {
    var p := CreateBlock(x, y, z, w, h, d, offset);
    forall k | 0 <= k < 8
      ensures Coord(p, k, Y) == y + Sign(Y, k) * (h / 2.0)
    {
      match k
      case 0 => case 1 => case 2 => case 3 => case 4 => case 5 => case 6 => case 7 =>
    }
  }

  /** Along the z axis, the vertices `CreateBlock` lists are the box's corners. */
  lemma CreateBlockAlongZ(x: real, y: real, z: real, w: real, h: real, d: real, offset: int)
    ensures BoxAlong(CreateBlock(x, y, z, w, h, d, offset), Z, x, y, z, w, h, d)
  {
    var p := CreateBlock(x, y, z, w, h, d, offset);
    forall k | 0 <= k < 8
      ensures Coord(p, k, Z) == z + Sign(Z, k) * (d / 2.0)
    {
      match k
      case 0 => case 1 => case 2 => case 3 => case 4 => case 5 => case 6 => case 7 =>
    }
  }

  /** The vertices `CreateBlock` lists are the corners of the box. */
  lemma CreateBlockIsBox(x: real, y: real, z: real, w: real, h: real, d: real, offset: int)
    ensures IsBox(CreateBlock(x, y, z, w, h, d, offset), x, y, z, w, h, d)
  {
    var p := CreateBlock(x, y, z, w, h, d, offset);
    CreateBlockAlongX(x, y, z, w, h, d, offset);
    CreateBlockAlongY(x, y, z, w, h, d, offset);
    CreateBlockAlongZ(x, y, z, w, h, d, offset);
    BoxFromAxes(p, x, y, z, w, h, d);
  }

  /** The six corner indices of face `f`'s two triangles, as the template lists them. */
  function FaceTriangles(f: Face): (c: seq<int>)
    ensures |c| == 6 && forall i :: 0 <= i < 6 ==> 0 <= c[i] < 8
  {
    match f
    case Front => [0, 1, 2, 0, 2, 3]
    case Back => [4, 5, 7, 4, 7, 6]
    case Right => [3, 2, 7, 3, 7, 6]
    case Left => [0, 1, 5, 0, 5, 4]
    case Top => [0, 3, 6, 0, 6, 4]
    case Bottom => [1, 2, 7, 1, 7, 5]
  }

  /** The template is the six faces' triangles, front to bottom. */
  lemma TemplateByFace()
    ensures Template == FaceTriangles(Front) + FaceTriangles(Back) + FaceTriangles(Right)
                      + FaceTriangles(Left) + FaceTriangles(Top) + FaceTriangles(Bottom)
  {
  }

  /** The four corners on face `f`'s side of the box. */
  function FaceCorners(f: Face): (c: set<int>)
    ensures |c| == 4
  {
    match f
    case Front => {0, 1, 2, 3}
    case Back => {4, 5, 6, 7}
    case Right => {2, 3, 6, 7}
    case Left => {0, 1, 4, 5}
    case Top => {0, 3, 4, 6}
    case Bottom => {1, 2, 5, 7}
  }

  /** A corner is one of face `f`'s four corners exactly when it lies on the face's side
      of the box along the face's axis. */
  lemma FaceCornersAreItsSide(f: Face, k: int)
    requires 0 <= k < 8
    ensures k in FaceCorners(f) <==> Sign(FaceAxis(f), k) == FaceSign(f)
  {
    match k
    case 0 => case 1 => case 2 => case 3 => case 4 => case 5 => case 6 => case 7 =>
  }

  /** Both triangles of a face use only corners on that face's side of the box (front all
      +z, back all -z, right all +x, left all -x, top all +y, bottom all -y), and between
      them they use all four of its corners. */
  lemma FaceTrianglesUseTheirCorners(f: Face)
    ensures forall i :: 0 <= i < 6 ==> Sign(FaceAxis(f), FaceTriangles(f)[i]) == FaceSign(f)
    ensures (set i | 0 <= i < 6 :: FaceTriangles(f)[i]) == FaceCorners(f)
  {
    var c := FaceTriangles(f);
    var used := set i | 0 <= i < 6 :: c[i];
    forall i | 0 <= i < 6 ensures Sign(FaceAxis(f), c[i]) == FaceSign(f) && c[i] in FaceCorners(f) {
      FaceCornersAreItsSide(f, c[i]);
      match f
      case Front => case Back => case Right => case Left => case Top => case Bottom =>
    }
    // where each of the face's corners first appears
    match f
    case Front => assert c[0] in used && c[1] in used && c[2] in used && c[5] in used;
    case Back => assert c[0] in used && c[1] in used && c[5] in used && c[2] in used;
    case Right => assert c[1] in used && c[0] in used && c[5] in used && c[2] in used;
    case Left => assert c[0] in used && c[1] in used && c[5] in used && c[2] in used;
    case Top => assert c[0] in used && c[1] in used && c[5] in used && c[2] in used;
    case Bottom => assert c[0] in used && c[1] in used && c[5] in used && c[2] in used;
  }

  /** Component along axis `a` of the cross product (V[j] - V[i]) x (V[k] - V[i]) of
      corners i, j, k of a part: the direction the triangle (i, j, k) faces. */
  function NormalAlong(p: Part, i: int, j: int, k: int, a: Axis): real
    requires 0 <= i < 8 && 0 <= j < 8 && 0 <= k < 8 && |p.vertices| == 24
  {
    var ux, uy, uz := Coord(p, j, X) - Coord(p, i, X), Coord(p, j, Y) - Coord(p, i, Y), Coord(p, j, Z) - Coord(p, i, Z);
    var vx, vy, vz := Coord(p, k, X) - Coord(p, i, X), Coord(p, k, Y) - Coord(p, i, Y), Coord(p, k, Z) - Coord(p, i, Z);
    match a
    case X => uy * vz - uz * vy
    case Y => uz * vx - ux * vz
    case Z => ux * vy - uy * vx
  }

  /** The product of the two box dimensions lying across axis `a`: the area of a face
      perpendicular to `a`. */
  function AreaAcross(a: Axis, w: real, h: real, d: real): real {
    match a
    case X => h * d
    case Y => w * d
    case Z => w * h
  }

  // Winding. Each lemma below shows that both triangles of one face face the positive
  // direction of the face's axis: the normal's component along that axis is the face's
  // area, and across it zero. With positive dimensions the front, right and top faces are
  // therefore wound to face out of the box, and the back, left and bottom faces to face
  // into it.

  lemma FrontFaceNormals(p: Part, x: real, y: real, z: real, w: real, h: real, d: real, a: Axis)
    requires IsBox(p, x, y, z, w, h, d)
    ensures var c := FaceTriangles(Front);
      NormalAlong(p, c[0], c[1], c[2], a) == (if a == Z then AreaAcross(Z, w, h, d) else 0.0) &&
      NormalAlong(p, c[3], c[4], c[5], a) == (if a == Z then AreaAcross(Z, w, h, d) else 0.0)
  {
    assert FaceTriangles(Front) == [0, 1, 2, 0, 2, 3];
  }

  lemma BackFaceNormals(p: Part, x: real, y: real, z: real, w: real, h: real, d: real, a: Axis)
    requires IsBox(p, x, y, z, w, h, d)
    ensures var c := FaceTriangles(Back);
      NormalAlong(p, c[0], c[1], c[2], a) == (if a == Z then AreaAcross(Z, w, h, d) else 0.0) &&
      NormalAlong(p, c[3], c[4], c[5], a) == (if a == Z then AreaAcross(Z, w, h, d) else 0.0)
  {
    assert FaceTriangles(Back) == [4, 5, 7, 4, 7, 6];
  }

  lemma RightFaceNormals(p: Part, x: real, y: real, z: real, w: real, h: real, d: real, a: Axis)
    requires IsBox(p, x, y, z, w, h, d)
    ensures var c := FaceTriangles(Right);
      NormalAlong(p, c[0], c[1], c[2], a) == (if a == X then AreaAcross(X, w, h, d) else 0.0) &&
      NormalAlong(p, c[3], c[4], c[5], a) == (if a == X then AreaAcross(X, w, h, d) else 0.0)
  {
    assert FaceTriangles(Right) == [3, 2, 7, 3, 7, 6];
  }

  lemma LeftFaceNormals(p: Part, x: real, y: real, z: real, w: real, h: real, d: real, a: Axis)
    requires IsBox(p, x, y, z, w, h, d)
    ensures var c := FaceTriangles(Left);
      NormalAlong(p, c[0], c[1], c[2], a) == (if a == X then AreaAcross(X, w, h, d) else 0.0) &&
      NormalAlong(p, c[3], c[4], c[5], a) == (if a == X then AreaAcross(X, w, h, d) else 0.0)
  {
    assert FaceTriangles(Left) == [0, 1, 5, 0, 5, 4];
  }

  lemma TopFaceNormals(p: Part, x: real, y: real, z: real, w: real, h: real, d: real, a: Axis)
    requires IsBox(p, x, y, z, w, h, d)
    ensures var c := FaceTriangles(Top);
      NormalAlong(p, c[0], c[1], c[2], a) == (if a == Y then AreaAcross(Y, w, h, d) else 0.0) &&
      NormalAlong(p, c[3], c[4], c[5], a) == (if a == Y then AreaAcross(Y, w, h, d) else 0.0)
  {
    assert FaceTriangles(Top) == [0, 3, 6, 0, 6, 4];
  }

  lemma BottomFaceNormals(p: Part, x: real, y: real, z: real, w: real, h: real, d: real, a: Axis)
    requires IsBox(p, x, y, z, w, h, d)
    ensures var c := FaceTriangles(Bottom);
      NormalAlong(p, c[0], c[1], c[2], a) == (if a == Y then AreaAcross(Y, w, h, d) else 0.0) &&
      NormalAlong(p, c[3], c[4], c[5], a) == (if a == Y then AreaAcross(Y, w, h, d) else 0.0)
  {
    assert FaceTriangles(Bottom) == [1, 2, 7, 1, 7, 5];
  }
}
