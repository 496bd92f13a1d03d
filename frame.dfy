/** The values the render loop hands to the expansion shader each frame:
    the mesh grid size from the window's aspect ratio, the grid gap, the
    screen extents, the focal distance from the wheel, the image circle from
    the selected catalog entry plus the modifier accumulators, and the
    instanced draw call. Floating-point values are modelled as reals. */
module Frame {
  import opened ShaderCatalog
  import opened InputEvents
  import GlfwWindow

  /** The number of mesh grid points the screen is sampled with. */
  const ScreenSamples := 1271

  /** The catalog entry the program is built with (the panorama preset). */
  const ShaderSelection := 2

  /** The capture resolution and image circle, all read from that one
      entry. */
  const CaptureWidth: int := ShaderType[ShaderSelection].width
  const CaptureHeight: int := ShaderType[ShaderSelection].height
  const CaptureCircle: Circle := ShaderType[ShaderSelection].circle

  /** The selection names an entry of the catalog, and the width, height and
      circle the capture uses are that entry's. */
  lemma SelectionIsValid()
    ensures 0 <= ShaderSelection < |ShaderType|
    ensures Shader(ShaderSelection) == ExpansionShader(CaptureWidth, CaptureHeight, CaptureCircle)
    ensures CaptureWidth == 1280 && CaptureHeight == 720 && CaptureCircle == Circle(1.0, 1.0, 0.0, 0.0)
  {
  }

  // ---------------------------------------------------------------------
  // Mesh grid

  /** The integer square root: the truncation of `sqrt(n)`. */
  function FloorSqrt(n: nat): (r: nat)
    ensures r * r <= n < (r + 1) * (r + 1)
  {
    if n < 4 then
      (if n == 0 then 0 else 1)
    else
      var h := 2 * FloorSqrt(n / 4);
      FloorSqrtStep(n, h / 2);
      if (h + 1) * (h + 1) <= n then h + 1 else h
  }

  /** From the root of `n / 4`, twice it is at most the root of `n` and the
      root is below twice it plus two. */
  lemma FloorSqrtStep(n: nat, s: nat)
    requires s * s <= n / 4 < (s + 1) * (s + 1)
    ensures (2 * s) * (2 * s) <= n < (2 * s + 2) * (2 * s + 2)
  {
    var q := n / 4;
    assert 4 * q <= n < 4 * q + 4;
    assert (2 * s) * (2 * s) == 4 * (s * s);
    assert (2 * s + 2) * (2 * s + 2) == 4 * ((s + 1) * (s + 1));
    assert q + 1 <= (s + 1) * (s + 1);
  }

  /** `slices`: the truncated square root of `aspect * ScreenSamples`, the
      number of grid columns. */
  function Slices(aspect: real): (s: nat)
    requires 0.0 <= aspect
    ensures (s * s) as real <= aspect * ScreenSamples as real < ((s + 1) * (s + 1)) as real
  {
    var x := aspect * ScreenSamples as real;
    var n := x.Floor;
    var s := FloorSqrt(n);
    assert (s + 1) * (s + 1) >= n + 1;
    s
  }

  /** `slices` is the largest integer whose square does not exceed
      `aspect * ScreenSamples`: truncation, not rounding. */
  lemma SlicesIsLargest(aspect: real, t: nat)
    requires 0.0 <= aspect
    ensures (t * t) as real <= aspect * ScreenSamples as real <==> t <= Slices(aspect)
  {
    var s := Slices(aspect);
    if t <= s {
      assert t * t <= s * s by { MulMonotone(t, s); }
    } else {
      assert (s + 1) * (s + 1) <= t * t by { MulMonotone(s + 1, t); }
    }
  }

  lemma MulMonotone(a: nat, b: nat)
    requires a <= b
    ensures a * a <= b * b
  {
    assert a * a <= a * b <= b * b;
  }

  /** `stacks`: the number of strip instances, the grid rows less one, with
      C++ integer division (operands positive, so no rounding difference). */
  function Stacks(slices: int): (t: int)
    requires 0 < slices
    ensures slices * (t + 1) <= ScreenSamples < slices * (t + 2)
  {
    var q := ScreenSamples / slices;
    assert ScreenSamples == slices * q + ScreenSamples % slices;
    q - 1
  }

  /** The gap between grid points in clip space, which spans [-1, 1]. */
  datatype Vec2 = Vec2(x: real, y: real)

  /** `gap`: `slices` columns and `stacks + 1` rows spread evenly over the
      width and height 2 of clip space. */
  function Gap(slices: int, stacks: int): (g: Vec2)
    requires 1 < slices && 0 < stacks
    ensures g.x * (slices - 1) as real == 2.0 && g.y * stacks as real == 2.0
    ensures 0.0 < g.x <= 2.0 && 0.0 < g.y <= 2.0
  {
    Vec2(2.0 / (slices - 1) as real, 2.0 / stacks as real)
  }

  /** The aspect ratios for which the gap is defined (at least two columns
      and at least one strip instance). */
  predicate GridDefined(aspect: real)
  {
    4.0 <= aspect * ScreenSamples as real < 404496.0
  }

  /** The gap's denominators are non-zero exactly when the aspect lies in
      [4/1271, 404496/1271): below, fewer than two columns; at or above,
      more than 635 columns and no room for a second row. */
  lemma GridDefinedIff(aspect: real)
    requires 0.0 <= aspect
    ensures (1 < Slices(aspect) && 0 < Stacks(Slices(aspect))) <==> GridDefined(aspect)
  {
    var s := Slices(aspect);
    if 0 < s {
      StacksPositiveIff(s);
    }
    SlicesIsLargest(aspect, 2);
    SlicesIsLargest(aspect, 636);
  }

  /** There is a strip instance exactly when there are at most 635 columns. */
  lemma StacksPositiveIff(slices: int)
    requires 0 < slices
    ensures 0 < Stacks(slices) <==> slices <= 635
  {
    var t := Stacks(slices);
    if 0 < t {
      MulLe(slices, 2, t + 1);
    } else {
      MulLe(slices, t + 2, 2);
    }
  }

  lemma MulLe(a: int, b: int, c: int)
    requires 0 <= a && b <= c
    ensures a * b <= a * c
  {
  }

  // ---------------------------------------------------------------------
  // Screen, focal distance, image circle

  /** `screen`: half the width and height of the virtual screen, then its
      centre. */
  datatype Screen = Screen(halfWidth: real, halfHeight: real, centerX: real, centerY: real)

  /** The screen spans [-aspect, aspect] horizontally and [-1, 1]
      vertically, centred on the origin. */
  function ScreenOf(aspect: real): (s: Screen)
    ensures s.centerX - s.halfWidth == -aspect && s.centerX + s.halfWidth == aspect
    ensures s.centerY - s.halfHeight == -1.0 && s.centerY + s.halfHeight == 1.0
  {
    Screen(aspect, 1.0, 0.0, 0.0)
  }

  /** `focal`: the distance to the screen, `-50 / (wheel - 50)`. It is
      positive below a wheel of 50, and the wheel is read back from it as
      `50 - 50 / focal`. */
  function Focal(wheel: real): (f: real)
    requires wheel != 50.0
    ensures wheel < 50.0 ==> 0.0 < f
    ensures f != 0.0 && 50.0 - 50.0 / f == wheel
  {
    -50.0 / (wheel - 50.0)
  }

  lemma FocalAtPoints()
    ensures Focal(WHEEL_MIN) == 1.0 / 3.0
    ensures Focal(0.0) == 1.0
    ensures Focal(WHEEL_MAX) == 50.0
  {
  }

  /** Focal grows strictly with the wheel below 50. */
  lemma FocalIncreasing(a: real, b: real)
    requires a < b < 50.0
    ensures Focal(a) < Focal(b)
  {
    var da, db := 50.0 - a, 50.0 - b;
    assert Focal(a) == 50.0 / da && Focal(b) == 50.0 / db;
    assert 0.0 < db < da;
  }

  /** Over the wheel's clamped range the focal distance runs from 1/3 to 50;
      it stays at most 1 exactly for the wheel values at most 0. */
  lemma FocalRange(w: real)
    requires WHEEL_MIN <= w <= WHEEL_MAX
    ensures 1.0 / 3.0 <= Focal(w) <= 50.0
    ensures Focal(w) <= 1.0 <==> w <= 0.0
  {
    if w > WHEEL_MIN { FocalIncreasing(WHEEL_MIN, w); }
    if w < WHEEL_MAX { FocalIncreasing(w, WHEEL_MAX); }
    if w < 0.0 { FocalIncreasing(w, 0.0); }
    if w > 0.0 { FocalIncreasing(0.0, w); }
  }

  /** `circle`: both radii move with the shift wheel, the centre's x with the
      shift arrow x minus the control arrow x, its y with the shift arrow y
      plus the control arrow y, each unit counting 0.001. */
  function CircleOf(base: Circle, shiftWheel: real, shiftArrow: Pan, controlArrow: Pan): (c: Circle)
    ensures (c.radiusX - base.radiusX) * 1000.0 == shiftWheel
    ensures c.radiusX - base.radiusX == c.radiusY - base.radiusY
    ensures (c.centerX - base.centerX) * 1000.0 == (shiftArrow.x - controlArrow.x) as real
    ensures (c.centerY - base.centerY) * 1000.0 == (shiftArrow.y + controlArrow.y) as real
  {
    Circle(base.radiusX + shiftWheel * 0.001,
           base.radiusY + shiftWheel * 0.001,
           base.centerX + (shiftArrow.x - controlArrow.x) as real * 0.001,
           base.centerY + (shiftArrow.y + controlArrow.y) as real * 0.001)
  }

  /** With every accumulator at zero the circle is the catalog entry's. */
  lemma CircleAtRest(base: Circle)
    ensures CircleOf(base, 0.0, Pan(0, 0), Pan(0, 0)) == base
  {
  }

  /** The circle a window's state asks for. */
  function WindowCircle(base: Circle, v: InputView): Circle
  {
    CircleOf(base, v.shiftWheel, v.shiftArrow, v.controlArrow)
  }

  /** One arrow press moves the circle's centre by 0.001: with shift, in the
      arrow's direction; with control only, horizontally against it and
      vertically with it; with neither, not at all. */
  lemma ArrowKeyMovesCircle(base: Circle, v: InputView, key: int)
    requires IsArrowKey(key)
    ensures var c0, c1 := WindowCircle(base, v), WindowCircle(base, Keyboard(v, key, PRESS));
      c1.radiusX == c0.radiusX && c1.radiusY == c0.radiusY &&
      (v.shiftKey ==>
         c1.centerX == c0.centerX + ArrowDx(key) as real * 0.001 &&
         c1.centerY == c0.centerY + ArrowDy(key) as real * 0.001) &&
      (!v.shiftKey && v.controlKey ==>
         c1.centerX == c0.centerX - ArrowDx(key) as real * 0.001 &&
         c1.centerY == c0.centerY + ArrowDy(key) as real * 0.001) &&
      (!v.shiftKey && !v.controlKey ==> c1 == c0)
  {
  }

  /** A scroll with shift held widens both radii by 0.001 per unit and
      leaves the focal distance alone. */
  lemma ShiftWheelScalesCircle(base: Circle, v: InputView, y: real)
    requires v.shiftKey && v.wheel != 50.0
    ensures var c0, c1 := WindowCircle(base, v), WindowCircle(base, Wheel(v, y));
      c1.radiusX == c0.radiusX + y * 0.001 && c1.radiusY == c0.radiusY + y * 0.001 &&
      c1.centerX == c0.centerX && c1.centerY == c0.centerY &&
      Focal(Wheel(v, y).wheel) == Focal(v.wheel)
  {
  }

  // ---------------------------------------------------------------------
  // Draw call and the whole frame

  /** `glDrawArraysInstanced(GL_TRIANGLE_STRIP, first, count, instances)`. */
  datatype DrawCall = DrawCall(first: int, count: int, instances: int)

  /** Each instance is one triangle strip joining two neighbouring grid rows
      (two vertices per column); one instance per gap between rows. */
  function Draw(slices: int, stacks: int): (d: DrawCall)
    requires 0 < slices
    ensures d.first == 0 && d.count == 2 * slices && d.instances == stacks
  {
    DrawCall(0, slices * 2, stacks)
  }

  /** The rows the strips cover (`stacks + 1`) times the columns fit the
      sample budget, and one more row would not. */
  lemma DrawFitsBudget(slices: int)
    requires 0 < slices
    ensures var d := Draw(slices, Stacks(slices));
      d.count == 2 * slices && (d.instances + 1) * slices <= ScreenSamples < (d.instances + 2) * slices
  {
  }

  /** The uniforms of one frame. `rotation` stands for the left trackball's
      matrix, represented by the calls that trackball has received. */
  datatype Uniforms = Uniforms(gap: Vec2, screen: Screen, focal: real, rotation: seq<TrackballCall>,
                               circle: Circle, image: int)

  /** Everything the loop body computes from the window's state: the gap
      of the grid the aspect selects, the screen, the focal distance the
      wheel selects, the left trackball's rotation, the circle and image
      unit 0. */
  function FrameUniforms(v: InputView, profile: ExpansionShader): (u: Uniforms)
    requires 0.0 <= v.aspect && GridDefined(v.aspect)
    requires WHEEL_MIN <= v.wheel <= WHEEL_MAX
    ensures var s := Slices(v.aspect); 1 < s && 0 < Stacks(s) && u.gap == Gap(s, Stacks(s))
    ensures u.screen == ScreenOf(v.aspect)
    ensures u.focal == Focal(v.wheel) && 1.0 / 3.0 <= u.focal <= 50.0
    ensures u.image == 0 && u.rotation == v.left
    ensures u.circle == WindowCircle(profile.circle, v)
  {
    var slices := Slices(v.aspect);
    GridDefinedIff(v.aspect);
    var stacks := Stacks(slices);
    FocalRange(v.wheel);
    Uniforms(Gap(slices, stacks), ScreenOf(v.aspect), Focal(v.wheel), v.left,
             CircleOf(profile.circle, v.shiftWheel, v.shiftArrow, v.controlArrow), 0)
  }

  /** The frame's grid gap spreads the `slices` columns and the
      `stacks + 1` rows across the full width and height of clip space. */
  lemma FrameGapSpansClipSpace(v: InputView, profile: ExpansionShader)
    requires 0.0 <= v.aspect && GridDefined(v.aspect)
    requires WHEEL_MIN <= v.wheel <= WHEEL_MAX
    ensures var s := Slices(v.aspect); var g := FrameUniforms(v, profile).gap;
      1 < s && g.x * (s - 1) as real == 2.0 && g.y * Stacks(s) as real == 2.0
  {
    GridDefinedIff(v.aspect);
  }

  /** After the reset key the view is the default one: the catalog's circle
      and a focal distance of 1. */
  lemma ResetRestoresDefaultView(v: InputView, profile: ExpansionShader)
    requires 0.0 <= v.aspect && GridDefined(v.aspect)
    ensures var r := Keyboard(v, KEY_R, PRESS);
      WHEEL_MIN <= r.wheel <= WHEEL_MAX &&
      FrameUniforms(r, profile).circle == profile.circle && FrameUniforms(r, profile).focal == 1.0
  {
    FocalAtPoints();
  }

  /** One pass of the render loop: read the window's state through its
      getters, compute the uniforms and the draw call with the selected
      catalog entry, then end the frame (the events polled, the cursor and
      the button states are what the platform reports). The GL calls themselves are not modelled. */
  method RenderFrame(window: GlfwWindow.Window, events: seq<Event>, cursorX: real, cursorY: real, button1Held: bool, button2Held: bool)
      returns (u: Uniforms, d: DrawCall)
    requires window.Valid() && GridDefined(window.GetAspect())
    requires forall i :: 0 <= i < |events| ==> EventOk(events[i])
    modifies window, window.arrow, window.shiftArrow, window.controlArrow
    modifies window.trackballLeft, window.trackballRight
    ensures window.Valid()
    ensures u == FrameUniforms(old(window.View()), Shader(ShaderSelection))
    ensures d == Draw(Slices(old(window.View()).aspect), Stacks(Slices(old(window.View()).aspect)))
    ensures window.View() == SwapBuffers(old(window.View()), events, cursorX, cursorY, button1Held, button2Held)
  {
    var aspect := window.GetAspect();
    var slices := Slices(aspect);
    GridDefinedIff(aspect);
    var stacks := Stacks(slices);
    var gap := Gap(slices, stacks);
    var screen := ScreenOf(aspect);
    var focal := Focal(window.GetWheel());
    var circle := CircleOf(CaptureCircle, window.GetShiftWheel(),
                           Pan(window.GetShiftArrowX(), window.GetShiftArrowY()),
                           Pan(window.GetControlArrowX(), window.GetControlArrowY()));
    u := Uniforms(gap, screen, focal, window.View().left, circle, 0);
    d := Draw(slices, stacks);
    window.SwapBuffers(events, cursorX, cursorY, button1Held, button2Held);
  }
}
