/** Pure description of the scene mesh that `initBuffers` accumulates:
    one `addCuboidToScene` step as a function on the accumulated buffers,
    the whole scene as a fold of that step over the list of boxes, the
    invariant every step keeps, and the fixed monitor-and-desk scene. */
module Scene {
  import opened Geometry

  /** The module-level arrays `initBuffers` fills, plus its running
      `currentIndexOffset`. */
  datatype SceneMesh = SceneMesh(vertices: seq<real>, normals: seq<real>,
                                 colors: seq<real>, texCoords: seq<real>,
                                 allIndices: seq<nat>,
                                 texturedIndices: seq<nat>,
                                 nonTexturedIndices: seq<nat>,
                                 currentIndexOffset: nat)

  /** The state right after the arrays are cleared. */
  function EmptyScene(): SceneMesh {
    SceneMesh([], [], [], [], [], [], [], 0)
  }

  /** One `addCuboidToScene` call: append the cuboid's buffers, route its
      indices into exactly one of the two draw lists, advance the offset. */
  function AddCuboid(m: SceneMesh, b: Box): SceneMesh {
    Append(m, Cuboid(b, m.currentIndexOffset), b.useTexture)
  }

  /** Appending the result `c` of `createCuboid` to the scene arrays. */
  function Append(m: SceneMesh, c: CuboidMesh, useTexture: bool): SceneMesh {
    SceneMesh(m.vertices + c.vertices,
              m.normals + c.normals,
              m.colors + c.colors,
              m.texCoords + c.texCoords,
              m.allIndices + c.indices,
              if useTexture then m.texturedIndices + c.indices else m.texturedIndices,
              if useTexture then m.nonTexturedIndices else m.nonTexturedIndices + c.indices,
              c.newIndexOffset)
  }

  /** The scene after adding `boxes` in order to the cleared arrays. */
  function BuildScene(boxes: seq<Box>): SceneMesh
    decreases |boxes|
  {
    if boxes == [] then EmptyScene()
    else AddCuboid(BuildScene(boxes[..|boxes| - 1]), boxes[|boxes| - 1])
  }

  /** Number of boxes whose faces are textured. */
  function CountTextured(boxes: seq<Box>): nat
    decreases |boxes|
  {
    if boxes == [] then 0
    else CountTextured(boxes[..|boxes| - 1]) + (if boxes[|boxes| - 1].useTexture then 1 else 0)
  }

  /** The mesh invariant: one position, normal, colour and texture pair per
      vertex; every index names an existing vertex; the two draw lists hold
      together exactly the indices of `allIndices`; and no index value is in
      both draw lists. */
  ghost predicate WellFormed(m: SceneMesh) {
    && |m.vertices| == 3 * m.currentIndexOffset
    && |m.normals| == 3 * m.currentIndexOffset
    && |m.colors| == 3 * m.currentIndexOffset
    && |m.texCoords| == 2 * m.currentIndexOffset
    && (forall i :: 0 <= i < |m.allIndices| ==> m.allIndices[i] < m.currentIndexOffset)
    && multiset(m.allIndices) == multiset(m.texturedIndices) + multiset(m.nonTexturedIndices)
    && (forall i, j :: 0 <= i < |m.texturedIndices| && 0 <= j < |m.nonTexturedIndices| ==>
          m.texturedIndices[i] != m.nonTexturedIndices[j])
  }

  /** In a well-formed mesh the draw lists, too, only name existing
      vertices. */
  lemma DrawListsBelowOffset(m: SceneMesh)
    requires WellFormed(m)
    ensures forall i :: 0 <= i < |m.texturedIndices| ==> m.texturedIndices[i] < m.currentIndexOffset
    ensures forall i :: 0 <= i < |m.nonTexturedIndices| ==> m.nonTexturedIndices[i] < m.currentIndexOffset
  {
    forall i | 0 <= i < |m.texturedIndices|
      ensures m.texturedIndices[i] < m.currentIndexOffset
    {
      assert m.texturedIndices[i] in multiset(m.allIndices);
    }
    forall i | 0 <= i < |m.nonTexturedIndices|
      ensures m.nonTexturedIndices[i] < m.currentIndexOffset
    {
      assert m.nonTexturedIndices[i] in multiset(m.allIndices);
    }
  }

  /** The cuboid data `createCuboid` hands to `addCuboidToScene`: 24 fresh
      vertices whose 36 indices all lie in [offset, offset + 24). */
  ghost predicate FreshBlock(c: CuboidMesh, offset: nat) {
    && |c.vertices| == 72 && |c.normals| == 72 && |c.colors| == 72 && |c.texCoords| == 48
    && |c.indices| == 36 && c.newIndexOffset == offset + 24
    && forall i :: 0 <= i < |c.indices| ==> offset <= c.indices[i] < offset + 24
  }

  /** After appending a fresh block every index names an existing vertex. */
  lemma AppendKeepsBounds(m: SceneMesh, c: CuboidMesh, useTexture: bool)
    requires WellFormed(m) && FreshBlock(c, m.currentIndexOffset)
    ensures var m' := Append(m, c, useTexture);
      forall i :: 0 <= i < |m'.allIndices| ==> m'.allIndices[i] < m'.currentIndexOffset
  {
    var m' := Append(m, c, useTexture);
    forall i | 0 <= i < |m'.allIndices|
      ensures m'.allIndices[i] < m'.currentIndexOffset
    {
      if i < |m.allIndices| {
        assert m'.allIndices[i] == m.allIndices[i];
      } else {
        assert m'.allIndices[i] == c.indices[i - |m.allIndices|];
      }
    }
  }

  /** After appending a fresh block no index value is in both draw lists:
      the old lists were disjoint and below the offset, the new indices are
      at or above it. */
  lemma AppendKeepsDisjoint(m: SceneMesh, c: CuboidMesh, useTexture: bool)
    requires WellFormed(m) && FreshBlock(c, m.currentIndexOffset)
    ensures var m' := Append(m, c, useTexture);
      forall i, j :: 0 <= i < |m'.texturedIndices| && 0 <= j < |m'.nonTexturedIndices| ==>
        m'.texturedIndices[i] != m'.nonTexturedIndices[j]
  {
    var m' := Append(m, c, useTexture);
    DrawListsBelowOffset(m);
    forall i, j | 0 <= i < |m'.texturedIndices| && 0 <= j < |m'.nonTexturedIndices|
      ensures m'.texturedIndices[i] != m'.nonTexturedIndices[j]
    {
      if useTexture {
        assert m'.nonTexturedIndices[j] == m.nonTexturedIndices[j];
        if i < |m.texturedIndices| {
          assert m'.texturedIndices[i] == m.texturedIndices[i];
        } else {
          assert m'.texturedIndices[i] == c.indices[i - |m.texturedIndices|];
        }
      } else {
        assert m'.texturedIndices[i] == m.texturedIndices[i];
        if j < |m.nonTexturedIndices| {
          assert m'.nonTexturedIndices[j] == m.nonTexturedIndices[j];
        } else {
          assert m'.nonTexturedIndices[j] == c.indices[j - |m.nonTexturedIndices|];
        }
      }
    }
  }

  /** Appending a fresh block keeps the invariant. */
  lemma AppendKeepsWellFormed(m: SceneMesh, c: CuboidMesh, useTexture: bool)
    requires WellFormed(m) && FreshBlock(c, m.currentIndexOffset)
    ensures WellFormed(Append(m, c, useTexture))
  {
    var m' := Append(m, c, useTexture);
    AppendKeepsBounds(m, c, useTexture);
    AppendKeepsDisjoint(m, c, useTexture);
    assert multiset(m'.allIndices) == multiset(m.allIndices) + multiset(c.indices);
    if useTexture {
      assert multiset(m'.texturedIndices) == multiset(m.texturedIndices) + multiset(c.indices);
    } else {
      assert multiset(m'.nonTexturedIndices) == multiset(m.nonTexturedIndices) + multiset(c.indices);
    }
  }

  /** Each `addCuboidToScene` adds 24 vertices and 36 indices, and sends
      those 36 to the draw list its flag selects. */
  lemma AddCuboidCounts(m: SceneMesh, b: Box)
    ensures var m' := AddCuboid(m, b);
      && m'.currentIndexOffset == m.currentIndexOffset + 24
      && |m'.vertices| == |m.vertices| + 72
      && |m'.allIndices| == |m.allIndices| + 36
      && |m'.texturedIndices| == |m.texturedIndices| + (if b.useTexture then 36 else 0)
      && |m'.nonTexturedIndices| == |m.nonTexturedIndices| + (if b.useTexture then 0 else 36)
  {
    CuboidShape(b, m.currentIndexOffset);
  }

  /** Each `addCuboidToScene` keeps the invariant. */
  lemma AddCuboidKeepsWellFormed(m: SceneMesh, b: Box)
    requires WellFormed(m)
    ensures WellFormed(AddCuboid(m, b))
  {
    CuboidShape(b, m.currentIndexOffset);
    AppendKeepsWellFormed(m, Cuboid(b, m.currentIndexOffset), b.useTexture);
  }

  /** For any list of boxes the invariant holds, with 24 vertices per box. */
  lemma {:induction false} BuildSceneWellFormed(boxes: seq<Box>)
    ensures WellFormed(BuildScene(boxes))
    ensures BuildScene(boxes).currentIndexOffset == 24 * |boxes|
    decreases |boxes|
  {
    if boxes != [] {
      var init := boxes[..|boxes| - 1];
      BuildSceneWellFormed(init);
      AddCuboidKeepsWellFormed(BuildScene(init), boxes[|boxes| - 1]);
      AddCuboidCounts(BuildScene(init), boxes[|boxes| - 1]);
    }
  }

  /** For any list of boxes: 36 indices per box, 36 textured ones per
      textured box and 36 non-textured ones per other box. */
  lemma {:induction false} BuildSceneCounts(boxes: seq<Box>)
    ensures var m := BuildScene(boxes);
      && |m.allIndices| == 36 * |boxes|
      && CountTextured(boxes) <= |boxes|
      && |m.texturedIndices| == 36 * CountTextured(boxes)
      && |m.nonTexturedIndices| == 36 * (|boxes| - CountTextured(boxes))
    decreases |boxes|
  {
    if boxes != [] {
      var init := boxes[..|boxes| - 1];
      BuildSceneCounts(init);
      AddCuboidCounts(BuildScene(init), boxes[|boxes| - 1]);
    }
  }

  /** The single-box scenario: one untextured box gives 24 vertices and 36
      indices, all of them in the non-textured list. */
  lemma SingleBoxScene(b: Box)
    requires !b.useTexture
    ensures var m := BuildScene([b]);
      && |m.vertices| == 72
      && |m.allIndices| == 36
      && m.texturedIndices == []
      && m.nonTexturedIndices == m.allIndices
  {
    assert [b][..0] == [];
    CuboidShape(b, 0);
  }

  // ---------------------------------------------------------------------
  // The fixed scene of `initBuffers`

  const White := Vec3(1.0, 1.0, 1.0)
  const Silver := Vec3(0.75, 0.75, 0.75)
  const DarkGrey := Vec3(0.2, 0.2, 0.2)
  const Wood := Vec3(0.8, 0.66, 0.53)
  const ScreenImgColor := Vec3(0.2, 0.2, 0.2)

  const LegHeight := 1.5
  const LegWidth := 0.2
  const DeskX := 2.5
  const DeskZ := 2.0
  const DeskBottomY := -1.0
  const KeyboardY := -0.85 + 0.02

  const ScreenPanel := Box(0.0, 0.275, 0.05, 2.0, 1.0, 0.05, ScreenImgColor, false)
  const Bezel := Box(0.0, 0.275, 0.035, 2.1, 1.1, 0.03, White, false)
  const BackCasing := Box(0.0, 0.275, -0.05, 2.05, 1.05, 0.1, Silver, true)
  const Logo := Box(0.0, 0.475, -0.105, 0.2, 0.3, 0.01, DarkGrey, false)
  const Neck := Box(0.0, -0.425, 0.01, 0.1, 0.7, 0.04, Silver, false)
  const MonitorBase := Box(0.0, -0.825, 0.0, 0.8, 0.05, 0.5, Silver, false)
  const DeskTop := Box(0.0, -0.9, 0.0, 5.0, 0.1, 4.0, Wood, false)
  const LegFrontRight := Box(DeskX - LegWidth / 2.0, DeskBottomY - LegHeight / 2.0, DeskZ - LegWidth / 2.0,
                             LegWidth, LegHeight, LegWidth, Wood, false)
  const LegFrontLeft := Box(-DeskX + LegWidth / 2.0, DeskBottomY - LegHeight / 2.0, DeskZ - LegWidth / 2.0,
                            LegWidth, LegHeight, LegWidth, Wood, false)
  const LegBackRight := Box(DeskX - LegWidth / 2.0, DeskBottomY - LegHeight / 2.0, -DeskZ + LegWidth / 2.0,
                            LegWidth, LegHeight, LegWidth, Wood, false)
  const LegBackLeft := Box(-DeskX + LegWidth / 2.0, DeskBottomY - LegHeight / 2.0, -DeskZ + LegWidth / 2.0,
                           LegWidth, LegHeight, LegWidth, Wood, false)
  const KeyboardBody := Box(0.0, KeyboardY, 0.6, 1.5, 0.04, 0.4, White, false)
  const Key := Box(0.7, KeyboardY + 0.02, 0.7, 0.1, 0.02, 0.1, DarkGrey, false)
  const MouseBody := Box(1.5, KeyboardY, 0.7, 0.3, 0.04, 0.4, White, false)

  /** Cuboid number `k` in the order `initBuffers` adds them. */
  function SceneBox(k: nat): Box
    requires k < 14
  {
    match k
    case 0 => ScreenPanel
    case 1 => Bezel
    case 2 => BackCasing
    case 3 => Logo
    case 4 => Neck
    case 5 => MonitorBase
    case 6 => DeskTop
    case 7 => LegFrontRight
    case 8 => LegFrontLeft
    case 9 => LegBackRight
    case 10 => LegBackLeft
    case 11 => KeyboardBody
    case 12 => Key
    case _ => MouseBody
  }

  /** The fourteen cuboids of `initBuffers`, in call order. The list is
      given by index so that a proof about the whole scene does not
      evaluate every box. */
  function SceneBoxes(): (boxes: seq<Box>)
    ensures |boxes| == 14
  {
    seq(14, k requires 0 <= k < 14 => SceneBox(k))
  }

  /** Only the back casing is textured. */
  lemma {:induction false} SceneCountTextured()
    ensures CountTextured(SceneBoxes()) == 1
  {
    var s := SceneBoxes();
    assert s[..0] == [];
    assert CountTextured(s[..1]) == 0 by { assert s[..1][..0] == s[..0]; }
    assert CountTextured(s[..2]) == 0 by { assert s[..2][..1] == s[..1]; }
    assert CountTextured(s[..3]) == 1 by { assert s[..3][..2] == s[..2]; }
    assert CountTextured(s[..4]) == 1 by { assert s[..4][..3] == s[..3]; }
    assert CountTextured(s[..5]) == 1 by { assert s[..5][..4] == s[..4]; }
    assert CountTextured(s[..6]) == 1 by { assert s[..6][..5] == s[..5]; }
    assert CountTextured(s[..7]) == 1 by { assert s[..7][..6] == s[..6]; }
    assert CountTextured(s[..8]) == 1 by { assert s[..8][..7] == s[..7]; }
    assert CountTextured(s[..9]) == 1 by { assert s[..9][..8] == s[..8]; }
    assert CountTextured(s[..10]) == 1 by { assert s[..10][..9] == s[..9]; }
    assert CountTextured(s[..11]) == 1 by { assert s[..11][..10] == s[..10]; }
    assert CountTextured(s[..12]) == 1 by { assert s[..12][..11] == s[..11]; }
    assert CountTextured(s[..13]) == 1 by { assert s[..13][..12] == s[..12]; }
    assert s[..14] == s;
    assert s[..14][..13] == s[..13];
  }

  /** The index buffers are uploaded as `Uint16Array`s, which keep each
      value modulo 2^16. */
  function ToUint16(s: seq<nat>): (r: seq<nat>)
    ensures |r| == |s|
    ensures forall i :: 0 <= i < |s| ==> r[i] < 65536
  {
    seq(|s|, i requires 0 <= i < |s| => s[i] % 65536)
  }

  /** Indices below 2^16 survive the `Uint16Array` upload unchanged. */
  lemma Uint16Lossless(s: seq<nat>, bound: nat)
    requires bound <= 65536
    requires forall i :: 0 <= i < |s| ==> s[i] < bound
    ensures ToUint16(s) == s
  {
  }

  /** Any scene of 14 boxes of which one is textured: 336 vertices, 504
      indices, 36 textured and 468 not, every index below 336, and the
      `Uint16Array` uploads lose nothing. */
  lemma FourteenBoxScene(boxes: seq<Box>, m: SceneMesh)
    requires |boxes| == 14 && CountTextured(boxes) == 1
    requires m == BuildScene(boxes)
    ensures WellFormed(m)
    ensures m.currentIndexOffset == 336 && |m.vertices| == 3 * 336
    ensures |m.allIndices| == 504
    ensures |m.texturedIndices| == 36 && |m.nonTexturedIndices| == 468
    ensures ToUint16(m.allIndices) == m.allIndices
    ensures ToUint16(m.texturedIndices) == m.texturedIndices
    ensures ToUint16(m.nonTexturedIndices) == m.nonTexturedIndices
  {
    BuildSceneWellFormed(boxes);
    BuildSceneCounts(boxes);
    DrawListsBelowOffset(m);
    Uint16Lossless(m.allIndices, 336);
    Uint16Lossless(m.texturedIndices, 336);
    Uint16Lossless(m.nonTexturedIndices, 336);
  }

  /** The fixed scene of `initBuffers` is such a scene. */
  lemma FixedScene(m: SceneMesh)
    requires m == BuildScene(SceneBoxes())
    ensures WellFormed(m)
    ensures m.currentIndexOffset == 336 && |m.vertices| == 3 * 336
    ensures |m.allIndices| == 504
    ensures |m.texturedIndices| == 36 && |m.nonTexturedIndices| == 468
    ensures ToUint16(m.allIndices) == m.allIndices
    ensures ToUint16(m.texturedIndices) == m.texturedIndices
    ensures ToUint16(m.nonTexturedIndices) == m.nonTexturedIndices
  {
    SceneCountTextured();
    FourteenBoxScene(SceneBoxes(), m);
  }
}
