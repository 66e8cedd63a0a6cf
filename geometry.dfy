/** Pure description of the mesh data that the renderer's `quad` and
    `createCuboid` helpers emit: vectors, faces, the per-face buffers and
    the six faces of an axis-aligned cuboid. The imperative builders in
    module MeshBuilder are proved to produce exactly these values. */
module Geometry {

  /** A three-component vector: a position, a normal or an RGB colour. */
  datatype Vec3 = Vec3(x: real, y: real, z: real) {
    /** The three numbers as they are pushed into a flat attribute array. */
    function Flat(): (s: seq<real>)
      ensures |s| == 3 && s[0] == x && s[1] == y && s[2] == z
    {
      [x, y, z]
    }

    function Minus(o: Vec3): Vec3 {
      Vec3(x - o.x, y - o.y, z - o.z)
    }

    function Plus(o: Vec3): Vec3 {
      Vec3(x + o.x, y + o.y, z + o.z)
    }

    function Dot(o: Vec3): real {
      x * o.x + y * o.y + z * o.z
    }
  }

  function Cross(t1: Vec3, t2: Vec3): Vec3 {
    Vec3(t1.y * t2.z - t1.z * t2.y,
         t1.z * t2.x - t1.x * t2.z,
         t1.x * t2.y - t1.y * t2.x)
  }

  /** The (unnormalised) face normal `quad` computes from its first three
      corners: the cross product of the edges a->b and b->c. */
  function FaceNormal(a: Vec3, b: Vec3, c: Vec3): Vec3 {
    Cross(b.Minus(a), c.Minus(b))
  }

  /** One quad, given by its four corners in emission order. */
  datatype Face = Face(a: Vec3, b: Vec3, c: Vec3, d: Vec3) {
    function Normal(): Vec3 {
      FaceNormal(a, b, c)
    }

    /** Four times the centroid; enough to compare directions. */
    function CornerSum(): Vec3 {
      a.Plus(b).Plus(c).Plus(d)
    }
  }

  // ---------------------------------------------------------------------
  // What one call of `quad` appends to each attribute array

  function QuadVertices(f: Face): seq<real> {
    f.a.Flat() + f.b.Flat() + f.c.Flat() + f.d.Flat()
  }

  function QuadNormals(f: Face): seq<real> {
    var n := f.Normal().Flat();
    n + n + n + n
  }

  function QuadColors(color: Vec3): seq<real> {
    var c := color.Flat();
    c + c + c + c
  }

  /** Unit-square corners when textured, otherwise eight zeros. */
  function QuadTexCoords(useTexture: bool): seq<real> {
    if useTexture then [0.0, 0.0, 1.0, 0.0, 1.0, 1.0, 0.0, 1.0]
    else [0.0, 0.0, 0.0, 0.0, 0.0, 0.0, 0.0, 0.0]
  }

  /** Two triangles (0,1,2) and (0,2,3) of the block starting at `o`. */
  function QuadIndices(o: nat): seq<nat> {
    [o, o + 1, o + 2, o, o + 2, o + 3]
  }

  // ---------------------------------------------------------------------
  // Cuboids

  /** The arguments of `addCuboidToScene`: centre, extents, flat colour and
      whether the cuboid's faces carry texture coordinates. */
  datatype Box = Box(x: real, y: real, z: real,
                     width: real, height: real, depth: real,
                     color: Vec3, useTexture: bool)
  {
    function Centre(): Vec3 {
      Vec3(x, y, z)
    }

    /** Face number `k` in emission order: front, back, right, left, top,
        bottom, over the eight corners v0..v7 (v0..v3 on the +z side, v4..v7
        on the -z side), each with the corner order `createCuboid` passes. */
    function Side(k: nat): Face
      requires k < 6
    {
      var hw, hh, hd := width / 2.0, height / 2.0, depth / 2.0;
      var v0 := Vec3(x - hw, y - hh, z + hd);
      var v1 := Vec3(x + hw, y - hh, z + hd);
      var v2 := Vec3(x + hw, y + hh, z + hd);
      var v3 := Vec3(x - hw, y + hh, z + hd);
      var v4 := Vec3(x - hw, y - hh, z - hd);
      var v5 := Vec3(x + hw, y - hh, z - hd);
      var v6 := Vec3(x + hw, y + hh, z - hd);
      var v7 := Vec3(x - hw, y + hh, z - hd);
      match k
      case 0 => Face(v0, v1, v2, v3)
      case 1 => Face(v5, v4, v7, v6)
      case 2 => Face(v1, v5, v6, v2)
      case 3 => Face(v4, v0, v3, v7)
      case 4 => Face(v3, v2, v6, v7)
      case _ => Face(v4, v5, v1, v0)
    }

    /** The six faces in emission order. */
    function Faces(): (fs: seq<Face>)
      ensures |fs| == 6
    {
      [Side(0), Side(1), Side(2), Side(3), Side(4), Side(5)]
    }
  }

  /** The five arrays `quad` pushes into. */
  datatype Buffers = Buffers(vertices: seq<real>, normals: seq<real>,
                             colors: seq<real>, texCoords: seq<real>,
                             indices: seq<nat>)

  const NoBuffers := Buffers([], [], [], [], [])

  /** One `quad` call on face `f` whose first vertex gets number `o`. */
  function PushQuad(bs: Buffers, f: Face, color: Vec3, o: nat, useTexture: bool): Buffers {
    Buffers(bs.vertices + QuadVertices(f),
            bs.normals + QuadNormals(f),
            bs.colors + QuadColors(color),
            bs.texCoords + QuadTexCoords(useTexture),
            bs.indices + QuadIndices(o))
  }

  /** The object `createCuboid` returns. */
  datatype CuboidMesh = CuboidMesh(vertices: seq<real>, normals: seq<real>,
                                   colors: seq<real>, texCoords: seq<real>,
                                   indices: seq<nat>, newIndexOffset: nat)

  /** The buffers after the first `n` of the six `quad` calls of
      `createCuboid` for box `b`, whose first vertex gets number `start`:
      face k is numbered from start + 4k. */
  function CuboidFaces(b: Box, start: nat, n: nat): Buffers
    requires n <= 6
  {
    if n == 0 then NoBuffers
    else PushQuad(CuboidFaces(b, start, n - 1), b.Side(n - 1), b.color,
                  start + 4 * (n - 1), b.useTexture)
  }

  /** The result of `createCuboid` for box `b` whose first vertex gets
      number `start`: its six faces pushed in order, and the offset after
      them. */
  function Cuboid(b: Box, start: nat): CuboidMesh {
    var bs := CuboidFaces(b, start, 6);
    CuboidMesh(bs.vertices, bs.normals, bs.colors, bs.texCoords, bs.indices, start + 24)
  }

  // ---------------------------------------------------------------------
  // Properties

  /** One quad: 4 vertices (12 numbers) in each vec3 attribute, 4 texture
      pairs, 6 indices, all within the new block [o, o+4). */
  lemma QuadShape(f: Face, color: Vec3, o: nat, useTexture: bool)
    ensures |QuadVertices(f)| == 12 && |QuadNormals(f)| == 12 && |QuadColors(color)| == 12
    ensures |QuadTexCoords(useTexture)| == 8
    ensures |QuadIndices(o)| == 6
    ensures forall i :: 0 <= i < 6 ==> o <= QuadIndices(o)[i] < o + 4
    ensures useTexture ==> QuadTexCoords(useTexture) == [0.0, 0.0, 1.0, 0.0, 1.0, 1.0, 0.0, 1.0]
    ensures !useTexture ==> forall i :: 0 <= i < 8 ==> QuadTexCoords(useTexture)[i] == 0.0
  {
  }

  /** One `quad` call grows every vec3 attribute by 12 numbers, the texture
      coordinates by 8 and the indices by 6; if all earlier indices lie in
      [lo, o), all indices afterwards lie in [lo, o + 4). */
  lemma PushQuadShape(bs: Buffers, f: Face, color: Vec3, o: nat, useTexture: bool, lo: nat)
    requires lo <= o
    requires forall i :: 0 <= i < |bs.indices| ==> lo <= bs.indices[i] < o
    ensures var bs' := PushQuad(bs, f, color, o, useTexture);
      && |bs'.vertices| == |bs.vertices| + 12
      && |bs'.normals| == |bs.normals| + 12
      && |bs'.colors| == |bs.colors| + 12
      && |bs'.texCoords| == |bs.texCoords| + 8
      && |bs'.indices| == |bs.indices| + 6
      && forall i :: 0 <= i < |bs'.indices| ==> lo <= bs'.indices[i] < o + 4
  {
    var bs' := PushQuad(bs, f, color, o, useTexture);
    forall i | 0 <= i < |bs'.indices|
      ensures lo <= bs'.indices[i] < o + 4
    {
      if i < |bs.indices| {
        assert bs'.indices[i] == bs.indices[i];
      } else {
        assert bs'.indices[i] == QuadIndices(o)[i - |bs.indices|];
      }
    }
  }

  /** After n faces: 4n vertices, normals, colours and texture pairs and
      6n indices, every one of them in [start, start + 4n). */
  lemma {:induction false} CuboidFacesShape(b: Box, start: nat, n: nat)
    requires n <= 6
    ensures var bs := CuboidFaces(b, start, n);
      && |bs.vertices| == 12 * n && |bs.normals| == 12 * n && |bs.colors| == 12 * n
      && |bs.texCoords| == 8 * n
      && |bs.indices| == 6 * n
      && forall i :: 0 <= i < |bs.indices| ==> start <= bs.indices[i] < start + 4 * n
  {
    if n > 0 {
      CuboidFacesShape(b, start, n - 1);
      PushQuadShape(CuboidFaces(b, start, n - 1), b.Side(n - 1), b.color,
                    start + 4 * (n - 1), b.useTexture, start);
    }
  }

  /** `createCuboid` yields 24 vertices, normals, colours and texture pairs
      and 36 indices, advances the offset by 24, and every index it emits
      lies in [start, start + 24). */
  lemma CuboidShape(b: Box, start: nat)
    ensures var c := Cuboid(b, start);
      && |c.vertices| == 72 && |c.normals| == 72 && |c.colors| == 72
      && |c.texCoords| == 48
      && |c.indices| == 36
      && c.newIndexOffset == start + 24
      && forall i :: 0 <= i < |c.indices| ==> start <= c.indices[i] < start + 24
  {
    CuboidFacesShape(b, start, 6);
  }

  /** The unnormalised normal of each face, in emission order:
      front +z, back -z, right +x, left -x, top +y, bottom -y. */
  lemma CuboidFaceNormals(b: Box)
    ensures var fs := b.Faces();
      var w, h, d := b.width, b.height, b.depth;
      && fs[0].Normal() == Vec3(0.0, 0.0, w * h)
      && fs[1].Normal() == Vec3(0.0, 0.0, -(w * h))
      && fs[2].Normal() == Vec3(d * h, 0.0, 0.0)
      && fs[3].Normal() == Vec3(-(d * h), 0.0, 0.0)
      && fs[4].Normal() == Vec3(0.0, w * d, 0.0)
      && fs[5].Normal() == Vec3(0.0, -(w * d), 0.0)
  {
  }

  /** For a box with positive extents every face normal points away from
      the box centre: its dot product with (face centre - box centre) is
      positive (the face centre is a quarter of the corner sum). */
  lemma CuboidNormalsPointOutward(b: Box)
    requires b.width > 0.0 && b.height > 0.0 && b.depth > 0.0
    ensures forall k :: 0 <= k < 6 ==>
      b.Faces()[k].Normal().Dot(b.Faces()[k].CornerSum().Minus(Vec3(4.0 * b.x, 4.0 * b.y, 4.0 * b.z))) > 0.0
  {
    CuboidFaceNormals(b);
    var w, h, d := b.width, b.height, b.depth;
    assert w * h > 0.0 && w * d > 0.0 && d * h > 0.0;
    forall k | 0 <= k < 6
      ensures b.Faces()[k].Normal().Dot(b.Faces()[k].CornerSum().Minus(Vec3(4.0 * b.x, 4.0 * b.y, 4.0 * b.z))) > 0.0
    {
      var o := b.Faces()[k].CornerSum().Minus(Vec3(4.0 * b.x, 4.0 * b.y, 4.0 * b.z));
      if k < 2 {
        assert o.x == 0.0 && o.y == 0.0 && o.z == (if k == 0 then 2.0 * d else -2.0 * d);
        PositiveProduct(w * h, 2.0 * d);
      } else if k < 4 {
        assert o.y == 0.0 && o.z == 0.0 && o.x == (if k == 2 then 2.0 * w else -2.0 * w);
        PositiveProduct(d * h, 2.0 * w);
      } else {
        assert o.x == 0.0 && o.z == 0.0 && o.y == (if k == 4 then 2.0 * h else -2.0 * h);
        PositiveProduct(w * d, 2.0 * h);
      }
    }
  }

  /** Two positive factors, or their negations, give a positive product. */
  lemma PositiveProduct(p: real, q: real)
    requires p > 0.0 && q > 0.0
    ensures p * q > 0.0 && (-p) * (-q) > 0.0
  {
  }
}
