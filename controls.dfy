/** The state changes made by the page's event handlers: the translate,
    rotate and scale sliders, the reflect, zoom, reset and lighting buttons,
    the light sliders, mouse dragging and the mouse wheel. Each handler is
    a method on the shared RendererState, proved to compute a pure step on
    RenderState; the DOM side (reading slider strings, updating labels and
    slider positions) is outside the model except where a handler returns
    a value the page shows. */
module Controls {
  import opened Renderer

  /** `Math.PI`, as the degree-to-radian factor uses it. */
  const Pi: real := 3.141592653589793

  // ---------------------------------------------------------------------
  // The steps, on the abstract value

  /** A translate slider: component `axis` of `translate` becomes `v`. */
  function TranslateSet(s: RenderState, axis: nat, v: real): RenderState
    requires axis < 3 && |s.translate| == 3
  {
    s.(translate := s.translate[axis := v])
  }

  /** A rotate slider: `degrees` converted to radians. */
  function RotateSet(s: RenderState, axis: nat, degrees: real): RenderState
    requires axis < 3 && |s.rotate| == 3
  {
    s.(rotate := s.rotate[axis := degrees * Pi / 180.0])
  }

  /** The uniform scale slider: a new three-component scale. */
  function UniformScaleSet(s: RenderState, v: real): RenderState {
    s.(scale := [v, v, v])
  }

  /** A per-axis scale slider. */
  function ScaleSet(s: RenderState, axis: nat, v: real): RenderState
    requires axis < 3 && |s.scale| == 3
  {
    s.(scale := s.scale[axis := v])
  }

  /** A reflect button: `scale[axis] *= -1`. */
  function Reflected(s: RenderState, axis: nat): RenderState
    requires axis < 3 && |s.scale| == 3
  {
    s.(scale := s.scale[axis := s.scale[axis] * -1.0])
  }

  /** One drag step by (dx, dy) pixels: yaw from dx, pitch from dy. */
  function Dragged(s: RenderState, dx: real, dy: real): RenderState
    requires |s.rotate| == 3
  {
    s.(rotate := s.rotate[1 := s.rotate[1] + dx * 0.01][0 := s.rotate[0] + dy * 0.01])
  }

  /** The four light vectors the light sliders drive. */
  datatype LightParam = Position | Ambient | Diffuse | Specular

  function LightVector(s: RenderState, p: LightParam): seq<real> {
    match p
    case Position => s.lightPosition
    case Ambient => s.lightAmbient
    case Diffuse => s.lightDiffuse
    case Specular => s.lightSpecular
  }

  /** A light slider for channel `channel` of vector `p`: call the matching
      setter with `val` there and the current values elsewhere. */
  function LightSliderStep(s: RenderState, p: LightParam, channel: nat, val: real): RenderState
    requires ValidState(s) && channel < 3
  {
    var v := LightVector(s, p);
    var a := if channel == 0 then val else v[0];
    var b := if channel == 1 then val else v[1];
    var c := if channel == 2 then val else v[2];
    match p
    case Position => LightPositionSet(s, a, b, c)
    case Ambient => AmbientSet(s, a, b, c)
    case Diffuse => DiffuseSet(s, a, b, c)
    case Specular => SpecularSet(s, a, b, c)
  }

  /** The text of the lighting button after a toggle. */
  function ToggleLabel(isEnabled: bool): string {
    if isEnabled then "Turn Lighting OFF" else "Turn Lighting ON"
  }

  // ---------------------------------------------------------------------
  // The handlers

  /** `translateX/Y/Z.oninput`. */
  method TranslateInput(r: RendererState, axis: nat, v: real)
    requires r.Valid() && axis < 3
    modifies r
    ensures r.State() == TranslateSet(old(r.State()), axis, v) && r.Valid()
    ensures r.Uniforms() == old(r.Uniforms())
  {
    r.translate := r.translate[axis := v];
  }

  /** `rotateX/Y/Z.oninput`: the slider is in degrees. */
  method RotateInput(r: RendererState, axis: nat, degrees: real)
    requires r.Valid() && axis < 3
    modifies r
    ensures r.State() == RotateSet(old(r.State()), axis, degrees) && r.Valid()
    ensures r.Uniforms() == old(r.Uniforms())
  {
    r.rotate := r.rotate[axis := (degrees * Pi) / 180.0];
  }

  /** `scaleU.oninput`: one value on all three axes. */
  method UniformScaleInput(r: RendererState, v: real)
    requires r.Valid()
    modifies r
    ensures r.State() == UniformScaleSet(old(r.State()), v) && r.Valid()
    ensures r.Uniforms() == old(r.Uniforms())
  {
    r.scale := [v, v, v];
  }

  /** `scaleX/Y/Z.oninput`. */
  method ScaleInput(r: RendererState, axis: nat, v: real)
    requires r.Valid() && axis < 3
    modifies r
    ensures r.State() == ScaleSet(old(r.State()), axis, v) && r.Valid()
    ensures r.Uniforms() == old(r.Uniforms())
  {
    r.scale := r.scale[axis := v];
  }

  /** `reflectX/Y/Z.onclick`. */
  method ReflectClick(r: RendererState, axis: nat)
    requires r.Valid() && axis < 3
    modifies r
    ensures r.State() == Reflected(old(r.State()), axis) && r.Valid()
    ensures r.Uniforms() == old(r.Uniforms())
  {
    r.scale := r.scale[axis := r.scale[axis] * -1.0];
  }

  /** `zoomIn.onclick`. */
  method ZoomInClick(r: RendererState)
    requires r.Valid()
    modifies r
    ensures r.State() == Zoomed(old(r.State()), 0.5) && r.Valid()
    ensures r.Uniforms() == old(r.Uniforms())
  {
    r.SetCamera(0.5);
  }

  /** `zoomOut.onclick`. */
  method ZoomOutClick(r: RendererState)
    requires r.Valid()
    modifies r
    ensures r.State() == Zoomed(old(r.State()), -0.5) && r.Valid()
    ensures r.Uniforms() == old(r.Uniforms())
  {
    r.SetCamera(-0.5);
  }

  /** Zoom in, then zoom out: the renderer is back where it was. */
  method ZoomInThenOut(r: RendererState)
    requires r.Valid()
    modifies r
    ensures r.State() == old(r.State()) && r.Uniforms() == old(r.Uniforms())
  {
    ZoomInClick(r);
    ZoomOutClick(r);
    ZoomRoundTrip(old(r.State()), 0.5);
  }

  /** `resetView.onclick`, without the visual slider reset. */
  method ResetClick(r: RendererState)
    requires r.Valid()
    modifies r
    ensures r.State() == Reset(old(r.State())) && r.Valid()
    ensures r.Uniforms() == old(r.Uniforms())
  {
    r.ResetView();
  }

  /** `toggleLighting.onclick`: toggle, then relabel the button by the new
      state. */
  method ToggleLightingClick(r: RendererState) returns (buttonText: string)
    requires r.Valid()
    modifies r
    ensures r.State() == Toggled(old(r.State())) && r.Valid()
    ensures r.Uniforms() == LightingUniforms(r.State())
    ensures buttonText == ToggleLabel(r.lightingEnabled)
    ensures buttonText == (if old(r.lightingEnabled) then "Turn Lighting ON" else "Turn Lighting OFF")
  {
    var isEnabled := r.ToggleLighting();
    buttonText := if isEnabled then "Turn Lighting OFF" else "Turn Lighting ON";
  }

  /** The twelve light sliders: `lightX/Y/Z`, `ambientR/G/B`,
      `diffuseR/G/B` and `specularR/G/B`. */
  method LightSliderInput(r: RendererState, p: LightParam, channel: nat, val: real)
    requires r.Valid() && channel < 3
    modifies r
    ensures r.State() == LightSliderStep(old(r.State()), p, channel, val) && r.Valid()
    ensures r.Uniforms() == LightingUniforms(r.State())
  {
    var v := match p
      case Position => r.lightPosition
      case Ambient => r.lightAmbient
      case Diffuse => r.lightDiffuse
      case Specular => r.lightSpecular;
    var a := if channel == 0 then val else v[0];
    var b := if channel == 1 then val else v[1];
    var c := if channel == 2 then val else v[2];
    match p
    case Position => r.SetLightPosition(a, b, c);
    case Ambient => r.SetAmbientLight(a, b, c);
    case Diffuse => r.SetDiffuseLight(a, b, c);
    case Specular => r.SetSpecularLight(a, b, c);
  }

  // ---------------------------------------------------------------------
  // Mouse dragging

  /** The handlers' shared `isDragging`, `lastMouseX` and `lastMouseY`. */
  class DragState {
    var isDragging: bool
    var lastMouseX: real
    var lastMouseY: real

    constructor ()
      ensures !isDragging && lastMouseX == 0.0 && lastMouseY == 0.0
    {
      isDragging, lastMouseX, lastMouseY := false, 0.0, 0.0;
    }

    /** `onmousedown`: start dragging from (x, y). */
    method MouseDown(x: real, y: real)
      modifies this
      ensures isDragging && lastMouseX == x && lastMouseY == y
    {
      isDragging := true;
      lastMouseX := x;
      lastMouseY := y;
    }

    /** `onmouseup` and `onmouseleave`. */
    method MouseUp()
      modifies this
      ensures !isDragging && lastMouseX == old(lastMouseX) && lastMouseY == old(lastMouseY)
    {
      isDragging := false;
    }

    /** `onmousemove`: while dragging, turn by the distance moved since the
        last event and remember the new position; otherwise do nothing. */
    method MouseMove(x: real, y: real, r: RendererState)
      requires r.Valid()
      modifies this, r
      ensures isDragging == old(isDragging) && r.Valid()
      ensures r.Uniforms() == old(r.Uniforms())
      ensures old(isDragging) ==>
        && r.State() == Dragged(old(r.State()), x - old(lastMouseX), y - old(lastMouseY))
        && lastMouseX == x && lastMouseY == y
      ensures !old(isDragging) ==>
        r.State() == old(r.State()) && lastMouseX == old(lastMouseX) && lastMouseY == old(lastMouseY)
    {
      if !isDragging {
        return;
      }
      var deltaX := x - lastMouseX;
      var deltaY := y - lastMouseY;
      r.rotate := r.rotate[1 := r.rotate[1] + deltaX * 0.01];
      r.rotate := r.rotate[0 := r.rotate[0] + deltaY * 0.01];
      lastMouseX := x;
      lastMouseY := y;
    }
  }

  /** A mouse position in client pixels. */
  datatype MousePos = MousePos(x: real, y: real)

  /** The state after a drag that starts at `from` and passes through the
      positions of `path`, one `onmousemove` each. */
  function DragPath(s: RenderState, from: MousePos, path: seq<MousePos>): RenderState
    requires |s.rotate| == 3
    decreases |path|
  {
    if path == [] then s
    else DragPath(Dragged(s, path[0].x - from.x, path[0].y - from.y), path[0], path[1..])
  }

  // ---------------------------------------------------------------------
  // The mouse wheel

  /** Wheel up (negative deltaY) enlarges by 10%, anything else shrinks by
      10%. */
  function ScaleFactor(deltaY: real): real {
    if deltaY < 0.0 then 1.1 else 0.9
  }

  /** `Math.max(lo, Math.min(hi, x))`. */
  function Clamp(x: real, lo: real, hi: real): (c: real)
    ensures lo <= hi ==> lo <= c <= hi
    ensures lo <= x <= hi ==> c == x
    ensures lo > hi ==> c == lo
  {
    var m := if hi < x then hi else x;
    if lo > m then lo else m
  }

  /** The new uniform scale after one wheel event on slider value `value`
      with slider bounds [lo, hi]. */
  function WheelScale(value: real, deltaY: real, lo: real, hi: real): real {
    Clamp(value * ScaleFactor(deltaY), lo, hi)
  }

  /** `n` wheel events in the same direction. */
  function WheelRepeat(value: real, deltaY: real, lo: real, hi: real, n: nat): real
    decreases n
  {
    if n == 0 then value else WheelRepeat(WheelScale(value, deltaY, lo, hi), deltaY, lo, hi, n - 1)
  }

  /** `onwheel`: scale the uniform slider's value, clamp it to the slider
      bounds, store it back and apply it as the uniform scale. */
  method WheelInput(r: RendererState, deltaY: real, sliderValue: real, lo: real, hi: real)
    returns (newScale: real)
    requires r.Valid()
    modifies r
    ensures newScale == WheelScale(sliderValue, deltaY, lo, hi)
    ensures lo <= hi ==> lo <= newScale <= hi
    ensures r.State() == UniformScaleSet(old(r.State()), newScale) && r.Valid()
    ensures r.Uniforms() == old(r.Uniforms())
  {
    var scaleFactor := if deltaY < 0.0 then 1.1 else 0.9;
    newScale := sliderValue * scaleFactor;
    var upper := if hi < newScale then hi else newScale;
    newScale := if lo > upper then lo else upper;
    UniformScaleInput(r, newScale);
  }

  // ---------------------------------------------------------------------
  // Properties

  /** A translate slider sets its own component and nothing else. */
  lemma TranslateOnlyAxis(s: RenderState, axis: nat, v: real)
    requires ValidState(s) && axis < 3
    ensures var s' := TranslateSet(s, axis, v);
      && ValidState(s')
      && (forall k :: 0 <= k < 3 ==> s'.translate[k] == if k == axis then v else s.translate[k])
      && s'.(translate := s.translate) == s
  {
  }

  /** A per-axis scale slider sets its own component and nothing else. */
  lemma ScaleOnlyAxis(s: RenderState, axis: nat, v: real)
    requires ValidState(s) && axis < 3
    ensures var s' := ScaleSet(s, axis, v);
      && ValidState(s')
      && (forall k :: 0 <= k < 3 ==> s'.scale[k] == if k == axis then v else s.scale[k])
      && s'.(scale := s.scale) == s
  {
  }

  /** A rotate slider sets its own angle: 180 degrees is pi radians. */
  lemma RotateOnlyAxis(s: RenderState, axis: nat, degrees: real)
    requires ValidState(s) && axis < 3
    ensures var s' := RotateSet(s, axis, degrees);
      && ValidState(s')
      && (forall k :: 0 <= k < 3 ==> s'.rotate[k] == if k == axis then degrees * Pi / 180.0 else s.rotate[k])
      && s'.(rotate := s.rotate) == s
    ensures RotateSet(s, axis, 180.0).rotate[axis] == Pi
  {
  }

  /** After the uniform scale slider all three factors are equal. */
  lemma UniformScaleEqual(s: RenderState, v: real)
    requires ValidState(s)
    ensures var s' := UniformScaleSet(s, v);
      && ValidState(s')
      && s'.scale[0] == s'.scale[1] == s'.scale[2] == v
      && s'.(scale := s.scale) == s
  {
  }

  /** Reflecting negates one scale factor and nothing else; reflecting
      twice on the same axis restores the state. */
  lemma {:induction false} ReflectTwice(s: RenderState, axis: nat)
    requires ValidState(s) && axis < 3
    ensures var s' := Reflected(s, axis);
      && ValidState(s')
      && (forall k :: 0 <= k < 3 ==> s'.scale[k] == if k == axis then -s.scale[axis] else s.scale[k])
      && Reflected(s', axis) == s
  {
    var s' := Reflected(s, axis);
    assert s'.scale[axis] * -1.0 == s.scale[axis];
    assert s'.scale[axis := s'.scale[axis] * -1.0] == s.scale;
  }

  /** A light slider changes one component of its own vector and nothing
      else. */
  lemma {:induction false} LightSliderOnlyChannel(s: RenderState, p: LightParam, channel: nat, val: real)
    requires ValidState(s) && channel < 3
    ensures var s' := LightSliderStep(s, p, channel, val);
      && ValidState(s')
      && LightVector(s', p) == LightVector(s, p)[channel := val]
      && (forall q :: q != p ==> LightVector(s', q) == LightVector(s, q))
      && s'.translate == s.translate && s'.rotate == s.rotate && s'.scale == s.scale
      && s'.lightingEnabled == s.lightingEnabled
  {
    var v := LightVector(s, p);
    var a := if channel == 0 then val else v[0];
    var b := if channel == 1 then val else v[1];
    var c := if channel == 2 then val else v[2];
    LightSettersTouchOneVector(s, a, b, c);
    assert [a, b, c, v[3]] == v[channel := val];
  }

  /** Two drag steps in a row turn as far as one step over the summed
      distance. */
  lemma DraggedAdds(s: RenderState, dx1: real, dy1: real, dx2: real, dy2: real)
    requires |s.rotate| == 3
    ensures Dragged(Dragged(s, dx1, dy1), dx2, dy2) == Dragged(s, dx1 + dx2, dy1 + dy2)
  {
    var r := Dragged(Dragged(s, dx1, dy1), dx2, dy2).rotate;
    var r' := Dragged(s, dx1 + dx2, dy1 + dy2).rotate;
    assert r[0] == r'[0] && r[1] == r'[1] && r[2] == r'[2];
  }

  /** A whole drag depends only on where it starts and ends: pitch and yaw
      grow by 0.01 per pixel between the first and the last position, and
      roll, translation, scale and light are untouched. */
  lemma {:induction false} DragPathTelescopes(s: RenderState, from: MousePos, path: seq<MousePos>)
    requires |s.rotate| == 3 && path != []
    ensures DragPath(s, from, path) ==
      Dragged(s, path[|path| - 1].x - from.x, path[|path| - 1].y - from.y)
    decreases |path|
  {
    var s1 := Dragged(s, path[0].x - from.x, path[0].y - from.y);
    if |path| > 1 {
      DragPathTelescopes(s1, path[0], path[1..]);
      assert path[1..][|path[1..]| - 1] == path[|path| - 1];
      DraggedAdds(s, path[0].x - from.x, path[0].y - from.y,
                  path[|path| - 1].x - path[0].x, path[|path| - 1].y - path[0].y);
    }
  }

  /** A drag changes only pitch and yaw. */
  lemma DragOnlyTurns(s: RenderState, dx: real, dy: real)
    requires ValidState(s)
    ensures var s' := Dragged(s, dx, dy);
      && ValidState(s')
      && s'.rotate[0] == s.rotate[0] + dy * 0.01
      && s'.rotate[1] == s.rotate[1] + dx * 0.01
      && s'.rotate[2] == s.rotate[2]
      && s'.(rotate := s.rotate) == s
  {
  }

  /** Arithmetic of one induction step of WheelUpProgress: a step of at
      least d followed by k more steps of at least d makes k + 1 steps. */
  lemma UpStepsAdd(v: real, v1: real, w: real, hi: real, d: real, k: nat)
    requires d > 0.0 && (v1 == hi || v1 >= v + d)
    requires w <= hi && (w == hi || w >= v1 + (k as real) * d)
    ensures w == hi || w >= v + ((k + 1) as real) * d
  {
    assert (k as real) * d >= 0.0;
    assert ((k + 1) as real) * d == (k as real) * d + d;
  }

  /** Arithmetic of one induction step of WheelDownProgress. */
  lemma DownStepsAdd(v: real, v1: real, w: real, lo: real, d: real, k: nat)
    requires d > 0.0 && (v1 == lo || v1 <= v - d)
    requires w >= lo && (w == lo || w <= v1 - (k as real) * d)
    ensures w == lo || w <= v - ((k + 1) as real) * d
  {
    assert (k as real) * d >= 0.0;
    assert ((k + 1) as real) * d == (k as real) * d + d;
  }

  /** One wheel-up step from a value in [lo, hi] with lo > 0 grows by at
      least lo / 10 unless it hits hi. */
  lemma WheelUpStep(v: real, deltaY: real, lo: real, hi: real)
    requires deltaY < 0.0 && 0.0 < lo <= v <= hi
    ensures var w := WheelScale(v, deltaY, lo, hi);
      lo <= w <= hi && (w == hi || w >= v + lo / 10.0)
  {
  }

  /** After n wheel-up steps the value is at least min(hi, v + n * lo / 10). */
  lemma {:induction false} WheelUpProgress(v: real, deltaY: real, lo: real, hi: real, n: nat)
    requires deltaY < 0.0 && 0.0 < lo <= v <= hi
    ensures var w := WheelRepeat(v, deltaY, lo, hi, n);
      lo <= w <= hi && (w == hi || w >= v + (n as real) * lo / 10.0)
    decreases n
  {
    if n > 0 {
      var v1 := WheelScale(v, deltaY, lo, hi);
      WheelUpStep(v, deltaY, lo, hi);
      WheelUpProgress(v1, deltaY, lo, hi, n - 1);
      UpStepsAdd(v, v1, WheelRepeat(v1, deltaY, lo, hi, n - 1), hi, lo / 10.0, n - 1);
    }
  }

  /** Wheel up on the maximum stays at the maximum. */
  lemma {:induction false} WheelUpStaysAtMax(deltaY: real, lo: real, hi: real, n: nat)
    requires deltaY < 0.0 && 0.0 < lo <= hi
    ensures WheelRepeat(hi, deltaY, lo, hi, n) == hi
    decreases n
  {
    if n > 0 {
      assert WheelScale(hi, deltaY, lo, hi) == hi;
      WheelUpStaysAtMax(deltaY, lo, hi, n - 1);
    }
  }

  /** Enough wheel-up steps reach the slider maximum: n steps suffice once
      n * lo >= 10 * (hi - lo). */
  lemma WheelUpReachesMax(v: real, deltaY: real, lo: real, hi: real, n: nat)
    requires deltaY < 0.0 && 0.0 < lo <= v <= hi
    requires (n as real) * lo >= 10.0 * (hi - lo)
    ensures WheelRepeat(v, deltaY, lo, hi, n) == hi
  {
    WheelUpProgress(v, deltaY, lo, hi, n);
  }

  /** One wheel-down step from a value in [lo, hi] with lo > 0 shrinks by
      at least lo / 10 unless it hits lo. */
  lemma WheelDownStep(v: real, deltaY: real, lo: real, hi: real)
    requires deltaY >= 0.0 && 0.0 < lo <= v <= hi
    ensures var w := WheelScale(v, deltaY, lo, hi);
      lo <= w <= hi && (w == lo || w <= v - lo / 10.0)
  {
  }

  /** After n wheel-down steps the value is at most max(lo, v - n * lo / 10). */
  lemma {:induction false} WheelDownProgress(v: real, deltaY: real, lo: real, hi: real, n: nat)
    requires deltaY >= 0.0 && 0.0 < lo <= v <= hi
    ensures var w := WheelRepeat(v, deltaY, lo, hi, n);
      lo <= w <= hi && (w == lo || w <= v - (n as real) * lo / 10.0)
    decreases n
  {
    if n > 0 {
      var v1 := WheelScale(v, deltaY, lo, hi);
      WheelDownStep(v, deltaY, lo, hi);
      WheelDownProgress(v1, deltaY, lo, hi, n - 1);
      DownStepsAdd(v, v1, WheelRepeat(v1, deltaY, lo, hi, n - 1), lo, lo / 10.0, n - 1);
    }
  }

  /** Enough wheel-down steps reach the slider minimum. */
  lemma WheelDownReachesMin(v: real, deltaY: real, lo: real, hi: real, n: nat)
    requires deltaY >= 0.0 && 0.0 < lo <= v <= hi
    requires (n as real) * lo >= 10.0 * (hi - lo)
    ensures WheelRepeat(v, deltaY, lo, hi, n) == lo
  {
    WheelDownProgress(v, deltaY, lo, hi, n);
  }
}
