/** The renderer's module-level state: the model pose (`translate`,
    `rotate`, `scale`), the light (`lightPosition` and its three colours),
    the `lightingEnabled` flag, and the lighting uniforms `updateLighting`
    sends to the shader. The setters are methods of class RendererState;
    each is proved to compute a pure step on the abstract value
    RenderState, and the properties of those steps are lemmas. */
module Renderer {

  /** The abstract value of the renderer globals. Vectors are the JS arrays
      as sequences: three numbers for the pose, four for the light. */
  datatype RenderState = RenderState(
    translate: seq<real>, rotate: seq<real>, scale: seq<real>,
    lightPosition: seq<real>, lightAmbient: seq<real>,
    lightDiffuse: seq<real>, lightSpecular: seq<real>,
    lightingEnabled: bool)

  /** The uniform values `updateLighting` uploads. */
  datatype LightUniforms = LightUniforms(
    ambientProduct: seq<real>, diffuseProduct: seq<real>, specularProduct: seq<real>,
    lightPosition: seq<real>, shininess: real, lightingEnabled: int)

  const InitialTranslate: seq<real> := [0.0, -0.8, -8.0]
  const InitialRotate: seq<real> := [0.0, 0.0, 0.0]
  const InitialScale: seq<real> := [1.0, 1.0, 1.0]

  const MaterialAmbient: seq<real> := [1.0, 1.0, 1.0, 1.0]
  const MaterialDiffuse: seq<real> := [1.0, 1.0, 1.0, 1.0]
  const MaterialSpecular: seq<real> := [1.0, 1.0, 1.0, 1.0]
  const MaterialShininess: real := 100.0

  /** The globals as the script is loaded. */
  function Initial(): RenderState {
    RenderState(InitialTranslate, InitialRotate, InitialScale,
                [1.0, 1.0, 1.0, 0.0], [0.2, 0.2, 0.2, 1.0],
                [1.0, 1.0, 1.0, 1.0], [1.0, 1.0, 1.0, 1.0],
                true)
  }

  /** What every operation keeps: three-component pose vectors, a
      directional light (w = 0) and opaque light colours (alpha = 1). */
  ghost predicate ValidState(s: RenderState) {
    && |s.translate| == 3 && |s.rotate| == 3 && |s.scale| == 3
    && |s.lightPosition| == 4 && s.lightPosition[3] == 0.0
    && |s.lightAmbient| == 4 && s.lightAmbient[3] == 1.0
    && |s.lightDiffuse| == 4 && s.lightDiffuse[3] == 1.0
    && |s.lightSpecular| == 4 && s.lightSpecular[3] == 1.0
  }

  /** The light x material product of `updateLighting`: component-wise on
      red, green and blue, with alpha 1. */
  function Product(light: seq<real>, material: seq<real>): (p: seq<real>)
    requires |light| >= 3 && |material| >= 3
    ensures |p| == 4
  {
    [light[0] * material[0], light[1] * material[1], light[2] * material[2], 1.0]
  }

  /** Proof step of UpdateLighting, modelling nothing of its own: the three
      arrays written out element by element are `Product` with the
      material. */
  lemma ProductsMatch(ambient: seq<real>, diffuse: seq<real>, specular: seq<real>,
                      ap: seq<real>, dp: seq<real>, sp: seq<real>)
    requires |ambient| >= 3 && |diffuse| >= 3 && |specular| >= 3
    requires ap == [ambient[0] * MaterialAmbient[0], ambient[1] * MaterialAmbient[1],
                    ambient[2] * MaterialAmbient[2], 1.0]
    requires dp == [diffuse[0] * MaterialDiffuse[0], diffuse[1] * MaterialDiffuse[1],
                    diffuse[2] * MaterialDiffuse[2], 1.0]
    requires sp == [specular[0] * MaterialSpecular[0], specular[1] * MaterialSpecular[1],
                    specular[2] * MaterialSpecular[2], 1.0]
    ensures ap == Product(ambient, MaterialAmbient)
    ensures dp == Product(diffuse, MaterialDiffuse)
    ensures sp == Product(specular, MaterialSpecular)
  {
    assert ap == [ambient[0], ambient[1], ambient[2], 1.0];
    assert dp == [diffuse[0], diffuse[1], diffuse[2], 1.0];
    assert sp == [specular[0], specular[1], specular[2], 1.0];
  }

  /** The uniforms `updateLighting` derives from the state. */
  function LightingUniforms(s: RenderState): LightUniforms
    requires |s.lightAmbient| >= 3 && |s.lightDiffuse| >= 3 && |s.lightSpecular| >= 3
  {
    LightUniforms(Product(s.lightAmbient, MaterialAmbient),
                  Product(s.lightDiffuse, MaterialDiffuse),
                  Product(s.lightSpecular, MaterialSpecular),
                  s.lightPosition, MaterialShininess,
                  if s.lightingEnabled then 1 else 0)
  }

  // ---------------------------------------------------------------------
  // The steps, on the abstract value

  /** Components 0, 1 and 2 of `v` overwritten, the rest kept. */
  function WithXYZ(v: seq<real>, a: real, b: real, c: real): seq<real>
    requires |v| >= 3
  {
    v[0 := a][1 := b][2 := c]
  }

  /** `setCamera({zoom})`: move along the view axis. */
  function Zoomed(s: RenderState, zoom: real): RenderState
    requires |s.translate| == 3
  {
    s.(translate := s.translate[2 := s.translate[2] + zoom])
  }

  /** `resetView`: the initial pose; the light is not touched. */
  function Reset(s: RenderState): RenderState {
    s.(translate := InitialTranslate, rotate := InitialRotate, scale := InitialScale)
  }

  /** `toggleLighting`. */
  function Toggled(s: RenderState): RenderState {
    s.(lightingEnabled := !s.lightingEnabled)
  }

  function LightPositionSet(s: RenderState, x: real, y: real, z: real): RenderState
    requires |s.lightPosition| >= 3
  {
    s.(lightPosition := WithXYZ(s.lightPosition, x, y, z))
  }

  function AmbientSet(s: RenderState, r: real, g: real, b: real): RenderState
    requires |s.lightAmbient| >= 3
  {
    s.(lightAmbient := WithXYZ(s.lightAmbient, r, g, b))
  }

  function DiffuseSet(s: RenderState, r: real, g: real, b: real): RenderState
    requires |s.lightDiffuse| >= 3
  {
    s.(lightDiffuse := WithXYZ(s.lightDiffuse, r, g, b))
  }

  function SpecularSet(s: RenderState, r: real, g: real, b: real): RenderState
    requires |s.lightSpecular| >= 3
  {
    s.(lightSpecular := WithXYZ(s.lightSpecular, r, g, b))
  }

  // ---------------------------------------------------------------------
  // The globals, updated in place

  class RendererState {
    var translate: seq<real>
    var rotate: seq<real>
    var scale: seq<real>
    var lightPosition: seq<real>
    var lightAmbient: seq<real>
    var lightDiffuse: seq<real>
    var lightSpecular: seq<real>
    var lightingEnabled: bool

    var ambientProductUniform: seq<real>
    var diffuseProductUniform: seq<real>
    var specularProductUniform: seq<real>
    var lightPositionUniform: seq<real>
    var shininessUniform: real
    var lightingEnabledUniform: int

    function State(): RenderState
      reads this
    {
      RenderState(translate, rotate, scale, lightPosition, lightAmbient,
                  lightDiffuse, lightSpecular, lightingEnabled)
    }

    function Uniforms(): LightUniforms
      reads this
    {
      LightUniforms(ambientProductUniform, diffuseProductUniform, specularProductUniform,
                    lightPositionUniform, shininessUniform, lightingEnabledUniform)
    }

    ghost predicate Valid()
      reads this
    {
      ValidState(State())
    }

    /** The uploaded uniforms are those of the current state: true from
        the first `updateLighting` on, and kept by every method below. */
    ghost predicate Synced()
      reads this
    {
      Valid() && Uniforms() == LightingUniforms(State())
    }

    /** Script load: the initial globals; no uniform has been uploaded yet,
        so the uniform fields are empty until the first `updateLighting`. */
    constructor ()
      ensures State() == Initial() && Valid()
      ensures Uniforms() == LightUniforms([], [], [], [], 0.0, 0)
    {
      translate := [0.0, -0.8, -8.0];
      rotate := [0.0, 0.0, 0.0];
      scale := [1.0, 1.0, 1.0];
      lightPosition := [1.0, 1.0, 1.0, 0.0];
      lightAmbient := [0.2, 0.2, 0.2, 1.0];
      lightDiffuse := [1.0, 1.0, 1.0, 1.0];
      lightSpecular := [1.0, 1.0, 1.0, 1.0];
      lightingEnabled := true;
      ambientProductUniform, diffuseProductUniform, specularProductUniform := [], [], [];
      lightPositionUniform, shininessUniform, lightingEnabledUniform := [], 0.0, 0;
    }

    /** `setCamera({zoom})`: `translate[2] += zoom`. */
    method SetCamera(zoom: real)
      requires Valid()
      modifies this
      ensures State() == Zoomed(old(State()), zoom) && Valid()
      ensures Uniforms() == old(Uniforms())
      ensures old(Synced()) ==> Synced()
    {
      translate := translate[2 := translate[2] + zoom];
    }

    /** `resetView`: fresh pose arrays with the initial values. */
    method ResetView()
      requires Valid()
      modifies this
      ensures State() == Reset(old(State())) && Valid()
      ensures Uniforms() == old(Uniforms())
      ensures old(Synced()) ==> Synced()
    {
      translate := [0.0, -0.8, -8.0];
      rotate := [0.0, 0.0, 0.0];
      scale := [1.0, 1.0, 1.0];
    }

    /** `updateLighting`: recompute the products and upload every lighting
        uniform; the state itself is unchanged. */
    method UpdateLighting()
      requires Valid()
      modifies this
      ensures State() == old(State()) && Valid()
      ensures Uniforms() == LightingUniforms(State())
    {
      var ambientProduct := [lightAmbient[0] * MaterialAmbient[0],
                             lightAmbient[1] * MaterialAmbient[1],
                             lightAmbient[2] * MaterialAmbient[2], 1.0];
      var diffuseProduct := [lightDiffuse[0] * MaterialDiffuse[0],
                             lightDiffuse[1] * MaterialDiffuse[1],
                             lightDiffuse[2] * MaterialDiffuse[2], 1.0];
      var specularProduct := [lightSpecular[0] * MaterialSpecular[0],
                              lightSpecular[1] * MaterialSpecular[1],
                              lightSpecular[2] * MaterialSpecular[2], 1.0];
      ProductsMatch(lightAmbient, lightDiffuse, lightSpecular, ambientProduct, diffuseProduct, specularProduct);
      ambientProductUniform := ambientProduct;
      diffuseProductUniform := diffuseProduct;
      specularProductUniform := specularProduct;
      lightPositionUniform := lightPosition;
      shininessUniform := MaterialShininess;
      lightingEnabledUniform := if lightingEnabled then 1 else 0;
    }

    /** `setLightPosition(x, y, z)`. */
    method SetLightPosition(x: real, y: real, z: real)
      requires Valid()
      modifies this
      ensures State() == LightPositionSet(old(State()), x, y, z) && Valid()
      ensures Uniforms() == LightingUniforms(State())
    {
      lightPosition := lightPosition[0 := x];
      lightPosition := lightPosition[1 := y];
      lightPosition := lightPosition[2 := z];
      UpdateLighting();
    }

    /** `setAmbientLight(r, g, b)`. */
    method SetAmbientLight(r: real, g: real, b: real)
      requires Valid()
      modifies this
      ensures State() == AmbientSet(old(State()), r, g, b) && Valid()
      ensures Uniforms() == LightingUniforms(State())
    {
      lightAmbient := lightAmbient[0 := r];
      lightAmbient := lightAmbient[1 := g];
      lightAmbient := lightAmbient[2 := b];
      UpdateLighting();
    }

    /** `setDiffuseLight(r, g, b)`. */
    method SetDiffuseLight(r: real, g: real, b: real)
      requires Valid()
      modifies this
      ensures State() == DiffuseSet(old(State()), r, g, b) && Valid()
      ensures Uniforms() == LightingUniforms(State())
    {
      lightDiffuse := lightDiffuse[0 := r];
      lightDiffuse := lightDiffuse[1 := g];
      lightDiffuse := lightDiffuse[2 := b];
      UpdateLighting();
    }

    /** `setSpecularLight(r, g, b)`. */
    method SetSpecularLight(r: real, g: real, b: real)
      requires Valid()
      modifies this
      ensures State() == SpecularSet(old(State()), r, g, b) && Valid()
      ensures Uniforms() == LightingUniforms(State())
    {
      lightSpecular := lightSpecular[0 := r];
      lightSpecular := lightSpecular[1 := g];
      lightSpecular := lightSpecular[2 := b];
      UpdateLighting();
    }

    /** `toggleLighting`: flip the flag, upload, and return the new value. */
    method ToggleLighting() returns (enabled: bool)
      requires Valid()
      modifies this
      ensures State() == Toggled(old(State())) && Valid()
      ensures Uniforms() == LightingUniforms(State())
      ensures enabled == lightingEnabled && enabled == !old(lightingEnabled)
    {
      lightingEnabled := !lightingEnabled;
      UpdateLighting();
      enabled := lightingEnabled;
    }
  }

  // ---------------------------------------------------------------------
  // Properties

  /** The script starts in a valid state. */
  lemma InitialValid()
    ensures ValidState(Initial())
  {
  }

  /** Every step keeps the state valid. */
  lemma StepsKeepValid(s: RenderState, zoom: real, x: real, y: real, z: real)
    requires ValidState(s)
    ensures ValidState(Zoomed(s, zoom)) && ValidState(Reset(s)) && ValidState(Toggled(s))
    ensures ValidState(LightPositionSet(s, x, y, z))
    ensures ValidState(AmbientSet(s, x, y, z))
    ensures ValidState(DiffuseSet(s, x, y, z))
    ensures ValidState(SpecularSet(s, x, y, z))
  {
  }

  /** Setting components 0-2 of a four-component vector: reading them back
      gives the new values, and component 3 is the old one. */
  lemma WithXYZReadBack(v: seq<real>, a: real, b: real, c: real)
    requires |v| == 4
    ensures WithXYZ(v, a, b, c) == [a, b, c, v[3]]
  {
  }

  /** `setCamera(z)` then `setCamera(-z)` is the identity. */
  lemma {:induction false} ZoomRoundTrip(s: RenderState, zoom: real)
    requires |s.translate| == 3
    ensures Zoomed(Zoomed(s, zoom), -zoom) == s
  {
    assert s.translate[2 := s.translate[2] + zoom][2 := s.translate[2]] == s.translate;
  }

  /** `setCamera` moves only `translate[2]`, by exactly `zoom`. */
  lemma ZoomOnlyMovesDepth(s: RenderState, zoom: real)
    requires |s.translate| == 3
    ensures var s' := Zoomed(s, zoom);
      && s'.translate[0] == s.translate[0] && s'.translate[1] == s.translate[1]
      && s'.translate[2] == s.translate[2] + zoom
      && s'.(translate := s.translate) == s
  {
  }

  /** `resetView` restores the pose of script load, leaves the light alone,
      and a second reset changes nothing. */
  lemma ResetRestoresInitialPose(s: RenderState)
    ensures var r := Reset(s);
      && r.translate == Initial().translate
      && r.rotate == Initial().rotate
      && r.scale == Initial().scale
      && r.(translate := s.translate, rotate := s.rotate, scale := s.scale) == s
      && Reset(r) == r
  {
  }

  /** Two toggles restore the flag and the whole state. */
  lemma ToggleTwice(s: RenderState)
    ensures Toggled(s).lightingEnabled == !s.lightingEnabled
    ensures Toggled(Toggled(s)) == s
  {
  }

  /** With the white material, each product is the light colour itself, and
      the enabled uniform is 1 exactly when lighting is on. */
  lemma {:induction false} WhiteMaterialPassesLight(s: RenderState)
    requires ValidState(s)
    ensures LightingUniforms(s).ambientProduct == s.lightAmbient
    ensures LightingUniforms(s).diffuseProduct == s.lightDiffuse
    ensures LightingUniforms(s).specularProduct == s.lightSpecular
    ensures LightingUniforms(s).lightPosition == s.lightPosition
    ensures LightingUniforms(s).lightingEnabled == 1 <==> s.lightingEnabled
  {
    assert Product(s.lightAmbient, MaterialAmbient) == s.lightAmbient;
    assert Product(s.lightDiffuse, MaterialDiffuse) == s.lightDiffuse;
    assert Product(s.lightSpecular, MaterialSpecular) == s.lightSpecular;
  }

  /** A light setter changes only its own vector, and only components 0-2:
      the position stays directional and the colours stay opaque. */
  lemma LightSettersTouchOneVector(s: RenderState, a: real, b: real, c: real)
    requires ValidState(s)
    ensures LightPositionSet(s, a, b, c) == s.(lightPosition := [a, b, c, 0.0])
    ensures AmbientSet(s, a, b, c) == s.(lightAmbient := [a, b, c, 1.0])
    ensures DiffuseSet(s, a, b, c) == s.(lightDiffuse := [a, b, c, 1.0])
    ensures SpecularSet(s, a, b, c) == s.(lightSpecular := [a, b, c, 1.0])
  {
    WithXYZReadBack(s.lightPosition, a, b, c);
    WithXYZReadBack(s.lightAmbient, a, b, c);
    WithXYZReadBack(s.lightDiffuse, a, b, c);
    WithXYZReadBack(s.lightSpecular, a, b, c);
  }

  /** Toggling twice through the class: the flag and the uploaded uniform
      are back where they were after the last upload. */
  method ToggleLightingTwice(r: RendererState) returns (first: bool, second: bool)
    requires r.Valid()
    modifies r
    ensures first == !old(r.lightingEnabled) && second == old(r.lightingEnabled)
    ensures r.State() == old(r.State())
    ensures r.Uniforms() == LightingUniforms(old(r.State()))
    ensures old(r.Synced()) ==> r.Uniforms() == old(r.Uniforms())
  {
    first := r.ToggleLighting();
    second := r.ToggleLighting();
    ToggleTwice(old(r.State()));
  }
}
