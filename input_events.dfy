/** The input state a `Window` keeps between frames, as a value, and the
    effect of each platform callback on it (keyboard, mouse button, wheel,
    framebuffer resize, and the end-of-frame work of `swapBuffers`).
    The class in module GlfwWindow changes its fields in place exactly as
    these functions say. */
module InputEvents {

  // Action codes of GLFW's key and mouse-button callbacks.
  const RELEASE := 0
  const PRESS := 1
  const REPEAT := 2

  // GLFW key codes used by the keyboard callback.
  const KEY_SPACE := 32
  const KEY_O := 79
  const KEY_R := 82
  const KEY_BACKSPACE := 259
  const KEY_DELETE := 261
  const KEY_RIGHT := 262
  const KEY_LEFT := 263
  const KEY_DOWN := 264
  const KEY_UP := 265
  const KEY_LEFT_SHIFT := 340
  const KEY_LEFT_CONTROL := 341
  const KEY_RIGHT_SHIFT := 344
  const KEY_RIGHT_CONTROL := 345

  // GLFW mouse-button codes.
  const MOUSE_BUTTON_1 := 0
  const MOUSE_BUTTON_2 := 1
  const MOUSE_BUTTON_3 := 2

  /** The range the plain wheel accumulator is saturated to. */
  const WHEEL_MIN := -100.0
  const WHEEL_MAX := 49.0

  /** An arrow-key pan pair (`arrow[0]`, `arrow[1]`). */
  datatype Pan = Pan(x: int, y: int)

  /** What a window asks of one of its trackballs. The trackball's rotation
      arithmetic lives outside this model; a trackball is known only by the
      calls it has received, in order. */
  datatype TrackballCall =
    | Start(x: real, y: real)
    | Stop(x: real, y: real)
    | Motion(x: real, y: real)
    | Reset
    | Region(w: int, h: int)

  /** Everything a window's callbacks read or write. */
  datatype InputView = InputView(
    width: int, height: int, aspect: real,
    shiftKey: bool, controlKey: bool,
    arrow: Pan, shiftArrow: Pan, controlArrow: Pan,
    mouseX: real, mouseY: real,
    wheel: real, shiftWheel: real, controlWheel: real,
    left: seq<TrackballCall>, right: seq<TrackballCall>)

  /** The accumulators and flags all at zero, as a first window starts them. */
  function Initial(width: int, height: int): (v: InputView)
    requires 0 <= width && 0 < height
    ensures v.arrow == v.shiftArrow == v.controlArrow == Pan(0, 0)
    ensures v.wheel == v.shiftWheel == v.controlWheel == 0.0
    ensures !v.shiftKey && !v.controlKey
    ensures v.width == width && v.height == height && v.aspect * height as real == width as real
    ensures v.left == [Region(width, height)] && v.right == [Region(width, height)]
  {
    Resize(InputView(0, 1, 0.0, false, false, Pan(0, 0), Pan(0, 0), Pan(0, 0), 0.0, 0.0,
                     0.0, 0.0, 0.0, [], []), width, height)
  }

  /** The invariant every reachable state keeps: the plain wheel stays in
      [WHEEL_MIN, WHEEL_MAX] and the aspect is the (non-negative) width over
      the (positive) height. */
  ghost predicate Inv(v: InputView)
  {
    WHEEL_MIN <= v.wheel <= WHEEL_MAX &&
    0 <= v.width && 0 < v.height && 0.0 <= v.aspect && v.aspect * v.height as real == v.width as real
  }

  // ---------------------------------------------------------------------
  // Keyboard

  /** Which pan pair an arrow key moves: shift wins over control, control
      over no modifier. */
  function Nudge(v: InputView, dx: int, dy: int): (r: InputView)
    ensures v.shiftKey ==> r == v.(shiftArrow := Pan(v.shiftArrow.x + dx, v.shiftArrow.y + dy))
    ensures !v.shiftKey && v.controlKey ==>
              r == v.(controlArrow := Pan(v.controlArrow.x + dx, v.controlArrow.y + dy))
    ensures !v.shiftKey && !v.controlKey ==> r == v.(arrow := Pan(v.arrow.x + dx, v.arrow.y + dy))
  {
    if v.shiftKey then v.(shiftArrow := Pan(v.shiftArrow.x + dx, v.shiftArrow.y + dy))
    else if v.controlKey then v.(controlArrow := Pan(v.controlArrow.x + dx, v.controlArrow.y + dy))
    else v.(arrow := Pan(v.arrow.x + dx, v.arrow.y + dy))
  }

  /** Both trackballs told to reset, left first. */
  function ResetTrackballs(v: InputView): (r: InputView)
    ensures r.left == v.left + [Reset] && r.right == v.right + [Reset]
    ensures r.(left := v.left, right := v.right) == v
  {
    v.(left := v.left + [Reset], right := v.right + [Reset])
  }

  /** All three wheels and all six arrow components set to zero. */
  function ZeroAccumulators(v: InputView): (r: InputView)
    ensures r.wheel == r.shiftWheel == r.controlWheel == 0.0
    ensures r.arrow == r.shiftArrow == r.controlArrow == Pan(0, 0)
    ensures r.(wheel := v.wheel, shiftWheel := v.shiftWheel, controlWheel := v.controlWheel,
               arrow := v.arrow, shiftArrow := v.shiftArrow, controlArrow := v.controlArrow) == v
  {
    v.(wheel := 0.0, shiftWheel := 0.0, controlWheel := 0.0,
       arrow := Pan(0, 0), shiftArrow := Pan(0, 0), controlArrow := Pan(0, 0))
  }

  /** The keys the keyboard callback acts on: R, O, the four modifiers and
      the arrows. Every other key, space, backspace and delete included,
      falls through to no effect. */
  predicate ActingKey(key: int)
  {
    key == KEY_R || key == KEY_O || key == KEY_LEFT_SHIFT || key == KEY_RIGHT_SHIFT ||
    key == KEY_LEFT_CONTROL || key == KEY_RIGHT_CONTROL || IsArrowKey(key)
  }

  predicate IsArrowKey(key: int)
  {
    key == KEY_UP || key == KEY_DOWN || key == KEY_RIGHT || key == KEY_LEFT
  }

  /** The horizontal and vertical step of an arrow key. */
  function ArrowDx(key: int): int
  {
    if key == KEY_RIGHT then 1 else if key == KEY_LEFT then -1 else 0
  }

  function ArrowDy(key: int): int
  {
    if key == KEY_UP then 1 else if key == KEY_DOWN then -1 else 0
  }

  /** The keyboard callback. Only presses act. `R` zeroes every wheel and
      arrow accumulator and then, falling through into `O`, resets both
      trackballs; `O` resets the trackballs alone. A shift or control press
      raises its flag (nothing here lowers it). An arrow key steps one pan
      pair. Every other key, including space, backspace and delete, does
      nothing. */
  function Keyboard(v: InputView, key: int, action: int): (r: InputView)
    ensures action != PRESS ==> r == v
    ensures r.shiftKey == (v.shiftKey || (action == PRESS && (key == KEY_LEFT_SHIFT || key == KEY_RIGHT_SHIFT)))
    ensures r.controlKey == (v.controlKey || (action == PRESS && (key == KEY_LEFT_CONTROL || key == KEY_RIGHT_CONTROL)))
    ensures r.width == v.width && r.height == v.height && r.aspect == v.aspect
    ensures r.mouseX == v.mouseX && r.mouseY == v.mouseY
    ensures action == PRESS && (key == KEY_LEFT_SHIFT || key == KEY_RIGHT_SHIFT) ==> r == v.(shiftKey := true)
    ensures action == PRESS && (key == KEY_LEFT_CONTROL || key == KEY_RIGHT_CONTROL) ==> r == v.(controlKey := true)
    ensures !ActingKey(key) ==> r == v
  {
    if action != PRESS then v
    else if key == KEY_R then ResetTrackballs(ZeroAccumulators(v))
    else if key == KEY_O then ResetTrackballs(v)
    else if key == KEY_LEFT_SHIFT || key == KEY_RIGHT_SHIFT then v.(shiftKey := true)
    else if key == KEY_LEFT_CONTROL || key == KEY_RIGHT_CONTROL then v.(controlKey := true)
    else if IsArrowKey(key) then Nudge(v, ArrowDx(key), ArrowDy(key))
    else v
  }

  // ---------------------------------------------------------------------
  // Mouse buttons

  /** The mouse-button callback. Button 1 drives the left trackball and
      button 2 the right one: any non-zero action starts a drag, a release
      stops it, both at the cursor position the last frame recorded. Every
      other button changes nothing. */
  function Mouse(v: InputView, button: int, action: int): (r: InputView)
    ensures button == MOUSE_BUTTON_1 ==>
              r == v.(left := v.left + [if action != RELEASE then Start(v.mouseX, v.mouseY) else Stop(v.mouseX, v.mouseY)])
    ensures button == MOUSE_BUTTON_2 ==>
              r == v.(right := v.right + [if action != RELEASE then Start(v.mouseX, v.mouseY) else Stop(v.mouseX, v.mouseY)])
    ensures button != MOUSE_BUTTON_1 && button != MOUSE_BUTTON_2 ==> r == v
  {
    var call := if action != RELEASE then Start(v.mouseX, v.mouseY) else Stop(v.mouseX, v.mouseY);
    if button == MOUSE_BUTTON_1 then v.(left := v.left + [call])
    else if button == MOUSE_BUTTON_2 then v.(right := v.right + [call])
    else v
  }

  // ---------------------------------------------------------------------
  // Wheel

  /** `x` saturated to [WHEEL_MIN, WHEEL_MAX]. */
  function ClampWheel(x: real): (r: real)
    ensures WHEEL_MIN <= r <= WHEEL_MAX
    ensures WHEEL_MIN <= x <= WHEEL_MAX ==> r == x
    ensures x < WHEEL_MIN ==> r == WHEEL_MIN
    ensures WHEEL_MAX < x ==> r == WHEEL_MAX
  {
    if x < WHEEL_MIN then WHEEL_MIN else if x > WHEEL_MAX then WHEEL_MAX else x
  }

  /** The scroll callback with vertical offset `y`: it adds to exactly one
      accumulator. Shift held: the shift wheel, unclamped. Control held (and
      not shift): the control wheel, unclamped. Otherwise the plain wheel,
      saturated to [WHEEL_MIN, WHEEL_MAX]. */
  function Wheel(v: InputView, y: real): (r: InputView)
    ensures v.shiftKey ==> r == v.(shiftWheel := v.shiftWheel + y)
    ensures !v.shiftKey && v.controlKey ==> r == v.(controlWheel := v.controlWheel + y)
    ensures !v.shiftKey && !v.controlKey ==>
              r == v.(wheel := r.wheel) && WHEEL_MIN <= r.wheel <= WHEEL_MAX
    ensures !v.shiftKey && !v.controlKey && WHEEL_MIN <= v.wheel + y <= WHEEL_MAX ==> r.wheel == v.wheel + y
    ensures !v.shiftKey && !v.controlKey && v.wheel + y < WHEEL_MIN ==> r.wheel == WHEEL_MIN
    ensures !v.shiftKey && !v.controlKey && WHEEL_MAX < v.wheel + y ==> r.wheel == WHEEL_MAX
  {
    if v.shiftKey then v.(shiftWheel := v.shiftWheel + y)
    else if v.controlKey then v.(controlWheel := v.controlWheel + y)
    else v.(wheel := ClampWheel(v.wheel + y))
  }

  // ---------------------------------------------------------------------
  // Resize and end of frame

  /** The framebuffer-size callback: stores the size and its aspect ratio
      and tells both trackballs the new region. */
  function Resize(v: InputView, width: int, height: int): (r: InputView)
    requires 0 <= width && 0 < height
    ensures r.width == width && r.height == height
    ensures 0.0 <= r.aspect && r.aspect * height as real == width as real
    ensures r.left == v.left + [Region(width, height)] && r.right == v.right + [Region(width, height)]
    ensures r.(width := v.width, height := v.height, aspect := v.aspect, left := v.left, right := v.right) == v
  {
    v.(width := width, height := height, aspect := width as real / height as real,
       left := v.left + [Region(width, height)], right := v.right + [Region(width, height)])
  }

  /** The first step of `swapBuffers`: both modifier flags drop. */
  function ClearModifiers(v: InputView): (r: InputView)
    ensures !r.shiftKey && !r.controlKey
    ensures r.(shiftKey := v.shiftKey, controlKey := v.controlKey) == v
  {
    v.(shiftKey := false, controlKey := false)
  }

  /** The last step of `swapBuffers`: the cursor position is recorded and
      each trackball whose button is held receives a motion to it. */
  function SampleCursor(v: InputView, cursorX: real, cursorY: real, button1Held: bool, button2Held: bool): (r: InputView)
    ensures r.mouseX == cursorX && r.mouseY == cursorY
    ensures r.left == v.left + (if button1Held then [Motion(cursorX, cursorY)] else [])
    ensures r.right == v.right + (if button2Held then [Motion(cursorX, cursorY)] else [])
    ensures r.(mouseX := v.mouseX, mouseY := v.mouseY, left := v.left, right := v.right) == v
  {
    v.(mouseX := cursorX, mouseY := cursorY,
       left := v.left + (if button1Held then [Motion(cursorX, cursorY)] else []),
       right := v.right + (if button2Held then [Motion(cursorX, cursorY)] else []))
  }

  /** A callback the platform delivers while events are polled. */
  datatype Event =
    | KeyEvent(key: int, action: int)
    | ButtonEvent(button: int, action: int)
    | ScrollEvent(dy: real)
    | SizeEvent(w: int, h: int)

  /** The events the model admits: a size event needs a non-negative width
      and a positive height (a zero height, which a minimised window can
      report, is excluded). */
  predicate EventOk(e: Event)
  {
    e.SizeEvent? ==> 0 <= e.w && 0 < e.h
  }

  /** Runs the callback registered for `e`. */
  function Dispatch(v: InputView, e: Event): (r: InputView)
    requires EventOk(e)
    ensures e.KeyEvent? ==> r == Keyboard(v, e.key, e.action)
    ensures e.ButtonEvent? ==> r == Mouse(v, e.button, e.action)
    ensures e.ScrollEvent? ==> r == Wheel(v, e.dy)
    ensures e.SizeEvent? ==> r == Resize(v, e.w, e.h)
  {
    match e
    case KeyEvent(key, action) => Keyboard(v, key, action)
    case ButtonEvent(button, action) => Mouse(v, button, action)
    case ScrollEvent(dy) => Wheel(v, dy)
    case SizeEvent(w, h) => Resize(v, w, h)
  }

  /** Runs the callbacks for `events` in delivery order. No callback moves
      the recorded cursor, and the trackballs' call lists only grow. */
  function DispatchAll(v: InputView, events: seq<Event>): (r: InputView)
    requires forall i :: 0 <= i < |events| ==> EventOk(events[i])
    ensures r.mouseX == v.mouseX && r.mouseY == v.mouseY
    ensures v.left <= r.left && v.right <= r.right
  {
    if events == [] then v
    else Dispatch(DispatchAll(v, events[..|events| - 1]), events[|events| - 1])
  }

  /** The input half of `swapBuffers`: both modifier flags drop, then the
      callbacks for the events polled this frame run in order (they see the
      lowered flags and the cursor position of the previous frame), then
      the cursor is sampled and held buttons feed their trackballs. */
  function SwapBuffers(v: InputView, events: seq<Event>, cursorX: real, cursorY: real,
                       button1Held: bool, button2Held: bool): (r: InputView)
    requires forall i :: 0 <= i < |events| ==> EventOk(events[i])
    ensures r.mouseX == cursorX && r.mouseY == cursorY
    ensures v.left <= r.left && v.right <= r.right
    ensures button1Held ==> 0 < |r.left| && r.left[|r.left| - 1] == Motion(cursorX, cursorY)
    ensures button2Held ==> 0 < |r.right| && r.right[|r.right| - 1] == Motion(cursorX, cursorY)
  {
    SampleCursor(DispatchAll(ClearModifiers(v), events), cursorX, cursorY, button1Held, button2Held)
  }

  // ---------------------------------------------------------------------
  // Properties

  /** Every callback keeps the invariant (resize needs a positive height). */
  lemma KeyboardKeepsInv(v: InputView, key: int, action: int)
    requires Inv(v)
    ensures Inv(Keyboard(v, key, action))
  {
  }

  lemma WheelKeepsInv(v: InputView, y: real)
    requires Inv(v)
    ensures Inv(Wheel(v, y))
  {
  }

  lemma MouseKeepsInv(v: InputView, button: int, action: int)
    requires Inv(v)
    ensures Inv(Mouse(v, button, action))
  {
  }

  lemma ResizeKeepsInv(v: InputView, width: int, height: int)
    requires Inv(v) && 0 <= width && 0 < height
    ensures Inv(Resize(v, width, height))
  {
  }

  /** A whole poll keeps the invariant: each callback does, in turn. */
  lemma {:induction false} DispatchAllKeepsInv(v: InputView, events: seq<Event>)
    requires Inv(v)
    requires forall i :: 0 <= i < |events| ==> EventOk(events[i])
    ensures Inv(DispatchAll(v, events))
  {
    if events != [] {
      DispatchAllKeepsInv(v, events[..|events| - 1]);
    }
  }

  lemma SwapBuffersKeepsInv(v: InputView, events: seq<Event>, cursorX: real, cursorY: real, b1: bool, b2: bool)
    requires Inv(v)
    requires forall i :: 0 <= i < |events| ==> EventOk(events[i])
    ensures Inv(SwapBuffers(v, events, cursorX, cursorY, b1, b2))
  {
    DispatchAllKeepsInv(ClearModifiers(v), events);
  }

  /** An arrow-key press moves exactly one component of exactly one pan
      pair by one, chosen by the modifiers with shift first, and changes
      nothing else. */
  lemma ArrowKeyStepsOnePair(v: InputView, key: int)
    requires IsArrowKey(key)
    ensures var r := Keyboard(v, key, PRESS);
      var d := Pan(ArrowDx(key), ArrowDy(key));
      (d.x == 0) != (d.y == 0) && -1 <= d.x + d.y <= 1 &&
      (v.shiftKey ==> r == v.(shiftArrow := Pan(v.shiftArrow.x + d.x, v.shiftArrow.y + d.y))) &&
      (!v.shiftKey && v.controlKey ==> r == v.(controlArrow := Pan(v.controlArrow.x + d.x, v.controlArrow.y + d.y))) &&
      (!v.shiftKey && !v.controlKey ==> r == v.(arrow := Pan(v.arrow.x + d.x, v.arrow.y + d.y)))
  {
  }

  /** Up undoes down and right undoes left, whatever the modifiers: the
      pan pairs are unbounded counters. */
  lemma OppositeArrowsCancel(v: InputView)
    ensures Keyboard(Keyboard(v, KEY_UP, PRESS), KEY_DOWN, PRESS) == v
    ensures Keyboard(Keyboard(v, KEY_RIGHT, PRESS), KEY_LEFT, PRESS) == v
  {
  }

  /** `R` zeroes all wheels and arrows and, by falling through, does
      everything `O` does. */
  lemma ResetKey(v: InputView)
    ensures var r := Keyboard(v, KEY_R, PRESS);
      r.wheel == r.shiftWheel == r.controlWheel == 0.0 &&
      r.arrow == r.shiftArrow == r.controlArrow == Pan(0, 0) &&
      r == Keyboard(ZeroAccumulators(v), KEY_O, PRESS)
  {
  }

  /** `O` resets both trackballs and leaves every wheel and arrow value as
      it was. */
  lemma RecenterKey(v: InputView)
    ensures var r := Keyboard(v, KEY_O, PRESS);
      r.left == v.left + [Reset] && r.right == v.right + [Reset] &&
      r.(left := v.left, right := v.right) == v
  {
  }

  /** A press of either shift key. */
  predicate RaisesShift(e: Event)
  {
    e.KeyEvent? && e.action == PRESS && (e.key == KEY_LEFT_SHIFT || e.key == KEY_RIGHT_SHIFT)
  }

  /** A press of either control key. */
  predicate RaisesControl(e: Event)
  {
    e.KeyEvent? && e.action == PRESS && (e.key == KEY_LEFT_CONTROL || e.key == KEY_RIGHT_CONTROL)
  }

  /** Over a run of callbacks a modifier flag ends up raised exactly when it
      was raised before or one of the events pressed that modifier. */
  lemma {:induction false} DispatchAllModifiers(v: InputView, events: seq<Event>)
    requires forall i :: 0 <= i < |events| ==> EventOk(events[i])
    ensures DispatchAll(v, events).shiftKey ==
              (v.shiftKey || exists i :: 0 <= i < |events| && RaisesShift(events[i]))
    ensures DispatchAll(v, events).controlKey ==
              (v.controlKey || exists i :: 0 <= i < |events| && RaisesControl(events[i]))
  {
    if events != [] {
      var n := |events| - 1;
      var prefix := events[..n];
      DispatchAllModifiers(v, prefix);
      assert forall i :: 0 <= i < n ==> prefix[i] == events[i];
    }
  }

  /** A release never lowers a modifier flag, and a flag survives a frame
      only when its key was pressed during that frame's poll: after
      `swapBuffers` each flag is up exactly when a press of it was polled. */
  lemma ModifiersStickyForOneFrame(v: InputView, key: int, events: seq<Event>,
                                   cursorX: real, cursorY: real, b1: bool, b2: bool)
    requires forall i :: 0 <= i < |events| ==> EventOk(events[i])
    ensures Keyboard(v, key, RELEASE) == v
    ensures var r := SwapBuffers(v, events, cursorX, cursorY, b1, b2);
      (r.shiftKey <==> exists i :: 0 <= i < |events| && RaisesShift(events[i])) &&
      (r.controlKey <==> exists i :: 0 <= i < |events| && RaisesControl(events[i]))
  {
    DispatchAllModifiers(ClearModifiers(v), events);
  }

  /** The end of a frame with nothing polled only lowers the flags, moves
      the cursor and feeds held buttons' motions. */
  lemma QuietFrame(v: InputView, cursorX: real, cursorY: real, b1: bool, b2: bool)
    ensures var r := SwapBuffers(v, [], cursorX, cursorY, b1, b2);
      !r.shiftKey && !r.controlKey && r.mouseX == cursorX && r.mouseY == cursorY &&
      r.left == v.left + (if b1 then [Motion(cursorX, cursorY)] else []) &&
      r.right == v.right + (if b2 then [Motion(cursorX, cursorY)] else []) &&
      r.(shiftKey := v.shiftKey, controlKey := v.controlKey, mouseX := v.mouseX, mouseY := v.mouseY,
         left := v.left, right := v.right) == v
  {
  }

  /** A button press polled during `swapBuffers` starts its drag at the
      cursor position of the previous frame, before the new position is
      sampled and fed as a motion. */
  lemma PolledPressUsesPreviousCursor(v: InputView, cursorX: real, cursorY: real, b1: bool, b2: bool)
    ensures SwapBuffers(v, [ButtonEvent(MOUSE_BUTTON_1, PRESS)], cursorX, cursorY, b1, b2).left ==
              v.left + [Start(v.mouseX, v.mouseY)] + (if b1 then [Motion(cursorX, cursorY)] else [])
  {
    var events := [ButtonEvent(MOUSE_BUTTON_1, PRESS)];
    assert events[..0] == [];
    assert DispatchAll(ClearModifiers(v), events) == Mouse(ClearModifiers(v), MOUSE_BUTTON_1, PRESS);
  }

  /** A wheel event changes exactly one accumulator. */
  lemma WheelChangesOneAccumulator(v: InputView, y: real)
    ensures var r := Wheel(v, y);
      r == v.(wheel := r.wheel, shiftWheel := r.shiftWheel, controlWheel := r.controlWheel) &&
      ((r.shiftWheel != v.shiftWheel) ==> v.shiftKey) &&
      ((r.controlWheel != v.controlWheel) ==> !v.shiftKey && v.controlKey) &&
      ((r.wheel != v.wheel) ==> !v.shiftKey && !v.controlKey)
  {
  }

  /** Within the range, a scroll and the opposite scroll cancel on the plain
      wheel; a scroll past a bound does not wrap, so the state there is the
      bound however far one scrolls. */
  lemma WheelUndo(v: InputView, y: real)
    requires !v.shiftKey && !v.controlKey
    requires WHEEL_MIN <= v.wheel <= WHEEL_MAX && WHEEL_MIN <= v.wheel + y <= WHEEL_MAX
    ensures Wheel(Wheel(v, y), -y).wheel == v.wheel
  {
  }

  lemma WheelSaturates(v: InputView, y: real, z: real)
    requires !v.shiftKey && !v.controlKey
    requires 0.0 <= y && v.wheel + y >= WHEEL_MAX && 0.0 <= z
    ensures Wheel(Wheel(v, y), z).wheel == WHEEL_MAX
  {
  }
}
