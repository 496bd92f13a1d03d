/** The window object: its input fields, changed in place by the platform
    callbacks, two trackballs it drives, and (for the older head-mounted
    display SDK) the swap-texture sets whose current index it advances
    before drawing each eye. Each method is specified by the matching
    transition of module InputEvents on the window's `View()`. */
module GlfwWindow {
  import opened InputEvents

  /** A trackball, known only by the calls it receives. */
  class Trackball {
    var calls: seq<TrackballCall>

    constructor ()
      ensures calls == []
    {
      calls := [];
    }

    method Start(x: real, y: real)
      modifies this
      ensures calls == old(calls) + [TrackballCall.Start(x, y)]
    {
      calls := calls + [TrackballCall.Start(x, y)];
    }

    method Stop(x: real, y: real)
      modifies this
      ensures calls == old(calls) + [TrackballCall.Stop(x, y)]
    {
      calls := calls + [TrackballCall.Stop(x, y)];
    }

    method Motion(x: real, y: real)
      modifies this
      ensures calls == old(calls) + [TrackballCall.Motion(x, y)]
    {
      calls := calls + [TrackballCall.Motion(x, y)];
    }

    method Reset()
      modifies this
      ensures calls == old(calls) + [TrackballCall.Reset]
    {
      calls := calls + [TrackballCall.Reset];
    }

    method Region(w: int, h: int)
      modifies this
      ensures calls == old(calls) + [TrackballCall.Region(w, h)]
    {
      calls := calls + [TrackballCall.Region(w, h)];
    }
  }

  class Window {
    var width: int
    var height: int
    var aspect: real
    var shiftKey: bool
    var controlKey: bool
    const arrow: array<int>
    const shiftArrow: array<int>
    const controlArrow: array<int>
    var mouseX: real
    var mouseY: real
    var wheelRotation: real
    var shiftWheelRotation: real
    var controlWheelRotation: real
    const trackballLeft: Trackball
    const trackballRight: Trackball

    /** The three pan pairs are separate two-element arrays, the trackballs
        separate objects, and the state keeps the input invariant. */
    ghost predicate Valid()
      reads this, arrow, shiftArrow, controlArrow, trackballLeft, trackballRight
    {
      Separate() && Inv(View())
    }

    ghost predicate Separate()
      reads this
    {
      arrow.Length == 2 && shiftArrow.Length == 2 && controlArrow.Length == 2 &&
      arrow != shiftArrow && arrow != controlArrow && shiftArrow != controlArrow &&
      trackballLeft != trackballRight
    }

    /** The window's input state as a value. */
    function View(): InputView
      reads this, arrow, shiftArrow, controlArrow, trackballLeft, trackballRight
      requires arrow.Length == 2 && shiftArrow.Length == 2 && controlArrow.Length == 2
    {
      InputView(width, height, aspect, shiftKey, controlKey,
                Pan(arrow[0], arrow[1]), Pan(shiftArrow[0], shiftArrow[1]),
                Pan(controlArrow[0], controlArrow[1]),
                mouseX, mouseY, wheelRotation, shiftWheelRotation, controlWheelRotation,
                trackballLeft.calls, trackballRight.calls)
    }

    /** Opens a window of the given size. In Window.h every counter is
        zeroed only by the first window a process creates, and the shift
        and control flags are never initialised; here every window starts
        with all counters at zero and both flags down. The constructor ends
        with the resize callback for the initial size. */
    constructor (width: int, height: int)
      requires 0 <= width && 0 < height
      ensures Valid() && View() == Initial(width, height)
      ensures fresh(arrow) && fresh(shiftArrow) && fresh(controlArrow)
      ensures fresh(trackballLeft) && fresh(trackballRight)
    {
      arrow := new int[2](_ => 0);
      shiftArrow := new int[2](_ => 0);
      controlArrow := new int[2](_ => 0);
      trackballLeft := new Trackball();
      trackballRight := new Trackball();
      shiftKey, controlKey := false, false;
      mouseX, mouseY := 0.0, 0.0;
      wheelRotation, shiftWheelRotation, controlWheelRotation := 0.0, 0.0, 0.0;
      new;
      Resize(width, height);
    }

    /** The framebuffer-size callback. */
    method Resize(width: int, height: int)
      requires Separate() && 0 <= width && 0 < height
      modifies this, trackballLeft, trackballRight
      ensures Separate() && View() == InputEvents.Resize(old(View()), width, height)
    {
      this.width := width;
      this.height := height;
      trackballLeft.Region(width, height);
      trackballRight.Region(width, height);
      aspect := width as real / height as real;
    }

    /** The keyboard callback; `R` does its own work and then that of `O`,
        as the switch in Window.h falls through. */
    method Keyboard(key: int, action: int)
      requires Valid()
      modifies this, arrow, shiftArrow, controlArrow, trackballLeft, trackballRight
      ensures Valid() && View() == InputEvents.Keyboard(old(View()), key, action)
    {
      if action == PRESS {
        if key == KEY_R || key == KEY_O {
          if key == KEY_R {
            ZeroAccumulators();
          }
          ResetTrackballs();
        } else if key == KEY_LEFT_SHIFT || key == KEY_RIGHT_SHIFT {
          shiftKey := true;
        } else if key == KEY_LEFT_CONTROL || key == KEY_RIGHT_CONTROL {
          controlKey := true;
        } else if IsArrowKey(key) {
          StepArrow(key);
        }
      }
      KeyboardKeepsInv(old(View()), key, action);
    }

    /** The `R` half of the reset key: every wheel and arrow back to zero. */
    method ZeroAccumulators()
      requires Separate()
      modifies this, arrow, shiftArrow, controlArrow
      ensures Separate() && View() == InputEvents.ZeroAccumulators(old(View()))
    {
      wheelRotation, shiftWheelRotation, controlWheelRotation := 0.0, 0.0, 0.0;
      arrow[0], arrow[1] := 0, 0;
      shiftArrow[0], shiftArrow[1] := 0, 0;
      controlArrow[0], controlArrow[1] := 0, 0;
    }

    /** The `O` key: both trackballs reset, left first. */
    method ResetTrackballs()
      requires Separate()
      modifies trackballLeft, trackballRight
      ensures View() == InputEvents.ResetTrackballs(old(View()))
    {
      trackballLeft.Reset();
      trackballRight.Reset();
    }

    /** An arrow key: one component of the pan pair the modifiers select,
        up or right by one, down or left by minus one. */
    method StepArrow(key: int)
      requires Separate() && IsArrowKey(key)
      modifies arrow, shiftArrow, controlArrow
      ensures View() == Nudge(old(View()), ArrowDx(key), ArrowDy(key))
    {
      // index 0 is the horizontal component, 1 the vertical one
      var i := if key == KEY_UP || key == KEY_DOWN then 1 else 0;
      var d := if key == KEY_UP || key == KEY_RIGHT then 1 else -1;
      if shiftKey {
        shiftArrow[i] := shiftArrow[i] + d;
      } else if controlKey {
        controlArrow[i] := controlArrow[i] + d;
      } else {
        arrow[i] := arrow[i] + d;
      }
    }

    /** The mouse-button callback, at the cursor position the last frame
        recorded. */
    method Mouse(button: int, action: int)
      requires Valid()
      modifies trackballLeft, trackballRight
      ensures Valid() && View() == InputEvents.Mouse(old(View()), button, action)
    {
      if button == MOUSE_BUTTON_1 {
        if action != RELEASE {
          trackballLeft.Start(mouseX, mouseY);
        } else {
          trackballLeft.Stop(mouseX, mouseY);
        }
      } else if button == MOUSE_BUTTON_2 {
        if action != RELEASE {
          trackballRight.Start(mouseX, mouseY);
        } else {
          trackballRight.Stop(mouseX, mouseY);
        }
      }
    }

    /** The scroll callback. */
    method Wheel(y: real)
      requires Valid()
      modifies this
      ensures Valid() && View() == InputEvents.Wheel(old(View()), y)
    {
      if shiftKey {
        shiftWheelRotation := shiftWheelRotation + y;
      } else if controlKey {
        controlWheelRotation := controlWheelRotation + y;
      } else {
        wheelRotation := wheelRotation + y;
        if wheelRotation < WHEEL_MIN {
          wheelRotation := WHEEL_MIN;
        } else if wheelRotation > WHEEL_MAX {
          wheelRotation := WHEEL_MAX;
        }
      }
    }

    /** Runs the callback registered for one polled event. */
    method Dispatch(e: Event)
      requires Valid() && EventOk(e)
      modifies this, arrow, shiftArrow, controlArrow, trackballLeft, trackballRight
      ensures Valid() && View() == InputEvents.Dispatch(old(View()), e)
    {
      match e
      case KeyEvent(key, action) => Keyboard(key, action);
      case ButtonEvent(button, action) => Mouse(button, action);
      case ScrollEvent(dy) => Wheel(dy);
      case SizeEvent(w, h) =>
        ResizeKeepsInv(View(), w, h);
        Resize(w, h);
    }

    /** The end-of-frame input work: both modifier flags drop, the events
        the platform delivers while polling run their callbacks in order,
        then the cursor position and the two button states are sampled
        (all three are parameters here) and a held button feeds its
        trackball a motion. */
    method SwapBuffers(events: seq<Event>, cursorX: real, cursorY: real, button1Held: bool, button2Held: bool)
      requires Valid()
      requires forall i :: 0 <= i < |events| ==> EventOk(events[i])
      modifies this, arrow, shiftArrow, controlArrow, trackballLeft, trackballRight
      ensures Valid()
      ensures View() == InputEvents.SwapBuffers(old(View()), events, cursorX, cursorY, button1Held, button2Held)
    {
      shiftKey, controlKey := false, false;
      var i := 0;
      while i < |events|
        invariant 0 <= i <= |events|
        invariant Valid()
        invariant View() == DispatchAll(ClearModifiers(old(View())), events[..i])
      {
        Dispatch(events[i]);
        assert events[..i + 1][..i] == events[..i];
        i := i + 1;
      }
      assert events[..i] == events;
      SampleCursor(cursorX, cursorY, button1Held, button2Held);
    }

    /** The last step of the frame's end: the cursor is recorded and each
        held button feeds its trackball a motion to it. */
    method SampleCursor(cursorX: real, cursorY: real, button1Held: bool, button2Held: bool)
      requires Valid()
      modifies this, trackballLeft, trackballRight
      ensures Valid() && View() == InputEvents.SampleCursor(old(View()), cursorX, cursorY, button1Held, button2Held)
    {
      mouseX, mouseY := cursorX, cursorY;
      if button1Held {
        trackballLeft.Motion(mouseX, mouseY);
      }
      if button2Held {
        trackballRight.Motion(mouseX, mouseY);
      }
    }

    // The getters. The window's own arrays and trackballs are read
    // through View(), so each getter reads the whole footprint.

    function GetWidth(): (r: int)
      reads this, arrow, shiftArrow, controlArrow, trackballLeft, trackballRight
      requires Valid()
      ensures r == View().width
    {
      width
    }

    function GetHeight(): (r: int)
      reads this, arrow, shiftArrow, controlArrow, trackballLeft, trackballRight
      requires Valid()
      ensures r == View().height && 0 < r
    {
      height
    }

    /** `getSize`: width and height together. */
    function GetSize(): (r: (int, int))
      reads this, arrow, shiftArrow, controlArrow, trackballLeft, trackballRight
      requires Valid()
      ensures r == (GetWidth(), GetHeight())
    {
      (width, height)
    }

    /** The aspect ratio: the stored width over the stored height. */
    function GetAspect(): (r: real)
      reads this, arrow, shiftArrow, controlArrow, trackballLeft, trackballRight
      requires Valid()
      ensures 0.0 <= r && r * GetHeight() as real == GetWidth() as real
    {
      aspect
    }

    function GetArrowX(): (r: int)
      reads this, arrow, shiftArrow, controlArrow, trackballLeft, trackballRight
      requires Valid()
      ensures r == View().arrow.x
    {
      arrow[0]
    }

    function GetArrowY(): (r: int)
      reads this, arrow, shiftArrow, controlArrow, trackballLeft, trackballRight
      requires Valid()
      ensures r == View().arrow.y
    {
      arrow[1]
    }

    /** `getArrow`: both components of the plain pan pair. */
    function GetArrow(): (r: Pan)
      reads this, arrow, shiftArrow, controlArrow, trackballLeft, trackballRight
      requires Valid()
      ensures r == Pan(GetArrowX(), GetArrowY()) == View().arrow
    {
      Pan(arrow[0], arrow[1])
    }

    function GetShiftArrowX(): (r: int)
      reads this, arrow, shiftArrow, controlArrow, trackballLeft, trackballRight
      requires Valid()
      ensures r == View().shiftArrow.x
    {
      shiftArrow[0]
    }

    function GetShiftArrowY(): (r: int)
      reads this, arrow, shiftArrow, controlArrow, trackballLeft, trackballRight
      requires Valid()
      ensures r == View().shiftArrow.y
    {
      shiftArrow[1]
    }

    function GetShiftArrow(): (r: Pan)
      reads this, arrow, shiftArrow, controlArrow, trackballLeft, trackballRight
      requires Valid()
      ensures r == Pan(GetShiftArrowX(), GetShiftArrowY()) == View().shiftArrow
    {
      Pan(shiftArrow[0], shiftArrow[1])
    }

    function GetControlArrowX(): (r: int)
      reads this, arrow, shiftArrow, controlArrow, trackballLeft, trackballRight
      requires Valid()
      ensures r == View().controlArrow.x
    {
      controlArrow[0]
    }

    function GetControlArrowY(): (r: int)
      reads this, arrow, shiftArrow, controlArrow, trackballLeft, trackballRight
      requires Valid()
      ensures r == View().controlArrow.y
    {
      controlArrow[1]
    }

    function GetControlArrow(): (r: Pan)
      reads this, arrow, shiftArrow, controlArrow, trackballLeft, trackballRight
      requires Valid()
      ensures r == Pan(GetControlArrowX(), GetControlArrowY()) == View().controlArrow
    {
      Pan(controlArrow[0], controlArrow[1])
    }

    function GetMouseX(): (r: real)
      reads this, arrow, shiftArrow, controlArrow, trackballLeft, trackballRight
      requires Valid()
      ensures r == View().mouseX
    {
      mouseX
    }

    function GetMouseY(): (r: real)
      reads this, arrow, shiftArrow, controlArrow, trackballLeft, trackballRight
      requires Valid()
      ensures r == View().mouseY
    {
      mouseY
    }

    function GetMouse(): (r: (real, real))
      reads this, arrow, shiftArrow, controlArrow, trackballLeft, trackballRight
      requires Valid()
      ensures r == (GetMouseX(), GetMouseY())
    {
      (mouseX, mouseY)
    }

    /** The plain wheel, always within [WHEEL_MIN, WHEEL_MAX]. */
    function GetWheel(): (r: real)
      reads this, arrow, shiftArrow, controlArrow, trackballLeft, trackballRight
      requires Valid()
      ensures r == View().wheel && WHEEL_MIN <= r <= WHEEL_MAX
    {
      wheelRotation
    }

    function GetShiftWheel(): (r: real)
      reads this, arrow, shiftArrow, controlArrow, trackballLeft, trackballRight
      requires Valid()
      ensures r == View().shiftWheel
    {
      shiftWheelRotation
    }

    function GetControlWheel(): (r: real)
      reads this, arrow, shiftArrow, controlArrow, trackballLeft, trackballRight
      requires Valid()
      ensures r == View().controlWheel
    {
      controlWheelRotation
    }
  }

  // ---------------------------------------------------------------------
  // Swap-texture sets of the older head-mounted display SDK

  /** C++'s `/` on `int`: the quotient truncated toward zero, so it has
      the sign of the dividend (`CRem` states how close it comes). */
  function CQuot(a: int, b: int): (q: int)
    requires 0 < b
    ensures 0 <= a ==> 0 <= q
    ensures a < 0 ==> q <= 0
  {
    if 0 <= a then a / b else -((-a) / b)
  }

  /** C++'s `%` on `int`: the remainder truncated toward zero, so it takes
      the sign of the dividend and completes the quotient:
      `(a / b) * b + a % b == a`. */
  function CRem(a: int, b: int): (r: int)
    requires 0 < b
    ensures CQuot(a, b) * b + r == a
    ensures 0 <= a ==> 0 <= r < b
    ensures a < 0 ==> -b < r <= 0
    ensures 0 <= a < b ==> r == a
  {
    if 0 <= a then RemOfSmall(a, b); a % b else -((-a) % b)
  }

  lemma RemOfSmall(a: int, b: int)
    requires 0 <= a && 0 < b
    ensures a < b ==> a % b == a
  {
  }

  /** The index after `(i + 1) % count`. From an index in range it moves to
      the next one, wrapping from the last back to the first. */
  function NextIndex(i: int, count: int): (r: int)
    requires 0 < count
    ensures 0 <= i < count ==> 0 <= r < count
    ensures 0 <= i < count - 1 ==> r == i + 1
    ensures i == count - 1 ==> r == 0
  {
    CRem(i + 1, count)
  }

  /** `k` advances in a row. */
  function AdvanceBy(i: int, count: int, k: nat): (r: int)
    requires 0 < count
    ensures 0 <= i < count ==> 0 <= r < count
  {
    if k == 0 then i else NextIndex(AdvanceBy(i, count, k - 1), count)
  }

  /** Advances compose: `a` then `b` is `a + b`. */
  lemma {:induction false} AdvanceByAdds(i: int, count: int, a: nat, b: nat)
    requires 0 < count
    ensures AdvanceBy(AdvanceBy(i, count, a), count, b) == AdvanceBy(i, count, a + b)
  {
    if b > 0 {
      AdvanceByAdds(i, count, a, b - 1);
    }
  }

  /** Without reaching the end of the ring, `k` advances add `k`. */
  lemma {:induction false} AdvanceByCounts(i: int, count: int, k: nat)
    requires 0 <= i && i + k < count
    ensures AdvanceBy(i, count, k) == i + k
  {
    if k > 0 {
      AdvanceByCounts(i, count, k - 1);
    }
  }

  /** After `count` advances the index is back where it started: the ring
      runs to its last texture, wraps to the first, and climbs back. */
  lemma AdvanceCycle(i: int, count: int)
    requires 0 <= i < count
    ensures AdvanceBy(i, count, count) == i
  {
    AdvanceByCounts(i, count, count - 1 - i);
    assert AdvanceBy(count - 1, count, 1) == NextIndex(count - 1, count) == 0;
    AdvanceByAdds(i, count, count - 1 - i, 1);
    AdvanceByCounts(0, count, i);
    AdvanceByAdds(i, count, count - i, i);
  }

  /** One ring of textures and the index of the one currently in use. */
  class SwapTextureSet {
    const textureCount: int
    var currentIndex: int

    ghost predicate Valid()
      reads this
    {
      0 < textureCount && 0 <= currentIndex < textureCount
    }

    constructor (count: int)
      requires 0 < count
      ensures Valid() && textureCount == count && currentIndex == 0
    {
      textureCount := count;
      currentIndex := 0;
    }

    /** `CurrentIndex = (CurrentIndex + 1) % TextureCount`. */
    method Advance()
      requires Valid()
      modifies this
      ensures Valid() && currentIndex == NextIndex(old(currentIndex), textureCount)
    {
      currentIndex := (currentIndex + 1) % textureCount;
    }
  }

  /** Before one eye is drawn, its colour set and its depth set each move to
      their next texture. */
  method AdvanceEyeTargets(color: SwapTextureSet, depth: SwapTextureSet)
    requires color.Valid() && depth.Valid() && color != depth
    modifies color, depth
    ensures color.Valid() && color.currentIndex == NextIndex(old(color.currentIndex), color.textureCount)
    ensures depth.Valid() && depth.currentIndex == NextIndex(old(depth.currentIndex), depth.textureCount)
  {
    color.Advance();
    depth.Advance();
  }
}
