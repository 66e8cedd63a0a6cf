/** The imperative mesh builder of `initBuffers`: `quad` pushes into
    caller-owned arrays, `createCuboid` threads a running index offset
    through six `quad` calls, and `addCuboidToScene` appends the result to
    the scene arrays. Each is proved to compute the values described in
    modules Geometry and Scene. */
module MeshBuilder {
  import opened Geometry
  import opened Scene

  /** The five arrays a caller hands to `quad`. */
  class QuadBuffers {
    var vertices: seq<real>
    var normals: seq<real>
    var colors: seq<real>
    var texCoords: seq<real>
    var indices: seq<nat>

    function Contents(): Buffers
      reads this
    {
      Buffers(vertices, normals, colors, texCoords, indices)
    }

    constructor ()
      ensures Contents() == NoBuffers
    {
      vertices, normals, colors, texCoords, indices := [], [], [], [], [];
    }

    /** Push one face a-b-c-d: its four corners, four copies of its normal
        and of `color`, its texture coordinates and its two triangles; the
        result is the offset of the next face's first vertex. */
    method Quad(a: Vec3, b: Vec3, c: Vec3, d: Vec3, color: Vec3, indexOffset: nat, useTexture: bool)
      returns (next: nat)
      modifies this
      ensures Contents() == PushQuad(old(Contents()), Face(a, b, c, d), color, indexOffset, useTexture)
      ensures next == indexOffset + 4
    {
      var t1 := b.Minus(a);
      var t2 := c.Minus(b);
      var normal := Cross(t1, t2);

      vertices := vertices + a.Flat() + b.Flat() + c.Flat() + d.Flat();
      normals := normals + normal.Flat() + normal.Flat() + normal.Flat() + normal.Flat();
      colors := colors + color.Flat() + color.Flat() + color.Flat() + color.Flat();
      if useTexture {
        texCoords := texCoords + [0.0, 0.0, 1.0, 0.0, 1.0, 1.0, 0.0, 1.0];
      } else {
        texCoords := texCoords + [0.0, 0.0, 0.0, 0.0, 0.0, 0.0, 0.0, 0.0];
      }
      indices := indices + [indexOffset, indexOffset + 1, indexOffset + 2,
                            indexOffset, indexOffset + 2, indexOffset + 3];
      next := indexOffset + 4;
    }
  }

  /** `createCuboid`: the six faces of box `b`, numbered from `startIndex`. */
  method CreateCuboid(b: Box, startIndex: nat) returns (r: CuboidMesh)
    ensures r == Cuboid(b, startIndex)
  {
    var x, y, z := b.x, b.y, b.z;
    var hw := b.width / 2.0;
    var hh := b.height / 2.0;
    var hd := b.depth / 2.0;

    var v0 := Vec3(x - hw, y - hh, z + hd);
    var v1 := Vec3(x + hw, y - hh, z + hd);
    var v2 := Vec3(x + hw, y + hh, z + hd);
    var v3 := Vec3(x - hw, y + hh, z + hd);
    var v4 := Vec3(x - hw, y - hh, z - hd);
    var v5 := Vec3(x + hw, y - hh, z - hd);
    var v6 := Vec3(x + hw, y + hh, z - hd);
    var v7 := Vec3(x - hw, y + hh, z - hd);

    assert b.Side(0) == Face(v0, v1, v2, v3) && b.Side(1) == Face(v5, v4, v7, v6);
    assert b.Side(2) == Face(v1, v5, v6, v2) && b.Side(3) == Face(v4, v0, v3, v7);
    assert b.Side(4) == Face(v3, v2, v6, v7) && b.Side(5) == Face(v4, v5, v1, v0);

    var buf := new QuadBuffers();
    var indexOffset := startIndex;
    indexOffset := buf.Quad(v0, v1, v2, v3, b.color, indexOffset, b.useTexture); // front
    ghost var front := buf.Contents();
    indexOffset := buf.Quad(v5, v4, v7, v6, b.color, indexOffset, b.useTexture); // back
    ghost var back := buf.Contents();
    indexOffset := buf.Quad(v1, v5, v6, v2, b.color, indexOffset, b.useTexture); // right
    ghost var right := buf.Contents();
    indexOffset := buf.Quad(v4, v0, v3, v7, b.color, indexOffset, b.useTexture); // left
    ghost var left := buf.Contents();
    indexOffset := buf.Quad(v3, v2, v6, v7, b.color, indexOffset, b.useTexture); // top
    ghost var top := buf.Contents();
    indexOffset := buf.Quad(v4, v5, v1, v0, b.color, indexOffset, b.useTexture); // bottom

    r := CuboidMesh(buf.vertices, buf.normals, buf.colors, buf.texCoords, buf.indices, indexOffset);
    CuboidUnfolded(b, startIndex, b.color, b.useTexture, front, back, right, left, top, buf.Contents());
  }

  /** The scene arrays `initBuffers` fills and its running vertex count. */
  class SceneBuilder {
    var allVertices: seq<real>
    var allNormals: seq<real>
    var allColors: seq<real>
    var allTexCoords: seq<real>
    var allIndices: seq<nat>
    var texturedIndices: seq<nat>
    var nonTexturedIndices: seq<nat>
    var currentIndexOffset: nat

    /** The arrays as one value. */
    function Model(): SceneMesh
      reads this
    {
      SceneMesh(allVertices, allNormals, allColors, allTexCoords,
                allIndices, texturedIndices, nonTexturedIndices, currentIndexOffset)
    }

    /** The module is loaded with all arrays empty. */
    constructor ()
      ensures Model() == EmptyScene()
    {
      allVertices, allNormals, allColors, allTexCoords := [], [], [], [];
      allIndices, texturedIndices, nonTexturedIndices := [], [], [];
      currentIndexOffset := 0;
    }

    /** `addCuboidToScene`: append the cuboid built from the current offset,
        route its indices by `useTexture`, and advance the offset. The
        scene invariant is kept. */
    method AddCuboidToScene(b: Box)
      modifies this
      ensures Model() == AddCuboid(old(Model()), b)
      ensures WellFormed(old(Model())) ==> WellFormed(Model())
    {
      ghost var before := Model();
      var c := CreateCuboid(b, currentIndexOffset);
      allVertices := allVertices + c.vertices;
      allNormals := allNormals + c.normals;
      allColors := allColors + c.colors;
      allTexCoords := allTexCoords + c.texCoords;
      allIndices := allIndices + c.indices;
      if b.useTexture {
        texturedIndices := texturedIndices + c.indices;
      } else {
        nonTexturedIndices := nonTexturedIndices + c.indices;
      }
      currentIndexOffset := c.newIndexOffset;
      assert Model() == Append(before, c, b.useTexture);
      if WellFormed(before) {
        AddCuboidKeepsWellFormed(before, b);
      }
    }

    /** The geometry part of `initBuffers`: clear the arrays and add the
        fourteen cuboids of the monitor, desk, keyboard and mouse. */
    method InitBuffers()
      modifies this
      ensures Model() == BuildScene(SceneBoxes())
      ensures WellFormed(Model())
      ensures currentIndexOffset == 336 && |allIndices| == 504
      ensures |texturedIndices| == 36 && |nonTexturedIndices| == 468
    {
      allVertices, allNormals, allColors, allTexCoords := [], [], [], [];
      allIndices := [];
      texturedIndices := [];
      nonTexturedIndices := [];
      currentIndexOffset := 0;
      AddSceneCuboids(SceneBoxes());
      FixedScene(Model());
    }

    /** The fourteen `addCuboidToScene` calls of `initBuffers`, in call
        order, on the cleared arrays; `boxes` holds their argument lists. */
    method AddSceneCuboids(boxes: seq<Box>)
      modifies this
      requires |boxes| == 14
      requires Model() == EmptyScene()
      ensures Model() == BuildScene(boxes)
    {
      AddMonitor(boxes);
      AddDesk(boxes);
      AddKeyboardAndMouse(boxes);
      assert boxes[..14] == boxes;
    }

    /** Monitor components: screen panel, bezel, back casing, logo, neck
        and base. */
    method AddMonitor(boxes: seq<Box>)
      modifies this
      requires |boxes| == 14 && Model() == EmptyScene()
      ensures HoldsScene(Model(), boxes[..6])
    {
      NoneAdded(boxes);
      AddBox(boxes, 0);
      AddBox(boxes, 1);
      AddBox(boxes, 2);
      AddBox(boxes, 3);
      AddBox(boxes, 4);
      AddBox(boxes, 5);
    }

    /** Desk components: the top and the four legs. */
    method AddDesk(boxes: seq<Box>)
      modifies this
      requires |boxes| == 14 && HoldsScene(Model(), boxes[..6])
      ensures HoldsScene(Model(), boxes[..11])
    {
      AddBox(boxes, 6);
      AddBox(boxes, 7);
      AddBox(boxes, 8);
      AddBox(boxes, 9);
      AddBox(boxes, 10);
    }

    /** Keyboard body, the one key, and the mouse body. */
    method AddKeyboardAndMouse(boxes: seq<Box>)
      modifies this
      requires |boxes| == 14 && HoldsScene(Model(), boxes[..11])
      ensures HoldsScene(Model(), boxes[..14])
    {
      AddBox(boxes, 11);
      AddBox(boxes, 12);
      AddBox(boxes, 13);
    }

    /** One `addCuboidToScene` call: box number k of `boxes`, after the
        boxes before it. */
    method AddBox(boxes: seq<Box>, k: nat)
      modifies this
      requires k < |boxes| && HoldsScene(Model(), boxes[..k])
      ensures HoldsScene(Model(), boxes[..k + 1])
    {
      assert Model() == BuildScene(boxes[..k]);
      AddCuboidToScene(boxes[k]);
      var added' := Added(boxes[..k], boxes[k]);
      assert added' == boxes[..k + 1];
    }
  }

  /** `m` is the scene of the boxes `added`. Stated through a quantifier
      so that a chain of builder steps passes it along without unfolding
      each intermediate scene; a proof unfolds it by naming BuildScene(s). */
  ghost predicate HoldsScene(m: SceneMesh, added: seq<Box>) {
    forall s :: s == added ==> m == BuildScene(s)
  }

  /** The cleared arrays are the scene of no boxes. */
  lemma NoneAdded(boxes: seq<Box>)
    ensures HoldsScene(EmptyScene(), boxes[..0])
  {
    assert boxes[..0] == [];
  }

  /** `Cuboid` unfolded into its six `quad` steps. */
  lemma CuboidUnfolded(b: Box, start: nat, c: Vec3, t: bool,
                       front: Buffers, back: Buffers, right: Buffers, left: Buffers,
                       top: Buffers, bottom: Buffers)
    requires c == b.color && t == b.useTexture
    requires front == PushQuad(NoBuffers, b.Side(0), c, start, t)
    requires back == PushQuad(front, b.Side(1), c, start + 4, t)
    requires right == PushQuad(back, b.Side(2), c, start + 8, t)
    requires left == PushQuad(right, b.Side(3), c, start + 12, t)
    requires top == PushQuad(left, b.Side(4), c, start + 16, t)
    requires bottom == PushQuad(top, b.Side(5), c, start + 20, t)
    ensures Cuboid(b, start) == CuboidMesh(bottom.vertices, bottom.normals, bottom.colors,
                                           bottom.texCoords, bottom.indices, start + 24)
  {
    assert CuboidFaces(b, start, 1) == front;
    assert CuboidFaces(b, start, 2) == back;
    assert CuboidFaces(b, start, 3) == right;
    assert CuboidFaces(b, start, 4) == left;
    assert CuboidFaces(b, start, 5) == top;
    assert CuboidFaces(b, start, 6) == bottom;
  }

  /** Adding box `b` after the boxes `added` gives the scene of `added + [b]`. */
  lemma Added(added: seq<Box>, b: Box) returns (added': seq<Box>)
    ensures added' == added + [b]
    ensures BuildScene(added') == AddCuboid(BuildScene(added), b)
  {
    added' := added + [b];
    assert added'[..|added|] == added;
  }
}
