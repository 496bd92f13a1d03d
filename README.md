# Fisheye dewarping viewer: input state and per-frame projection parameters

This project models the bookkeeping around the fisheye/panorama dewarping
viewer and proves properties of it:

- **The window's input state** (`fisheye/Window.h`). Platform callbacks update it in place:
  - three arrow-key pan pairs: plain, shift and control;
  - three wheel accumulators, of which only the plain one is saturated to [-100, 49];
  - shift and control flags that stay up until the end of the frame;
  - the reset key `R`, which falls through into the trackball-reset key `O`;
  - the framebuffer size and aspect ratio;
  - mouse-button routing to the two trackballs;
  - the end-of-frame work of `swapBuffers`.

  Module `InputEvents` gives each callback as a pure transition on an `InputView` value and proves the callbacks' properties.
  Module `GlfwWindow` has the class `Window`. Its fields are those of the source, with the pan pairs as two-element arrays. Each method's postcondition ties the new `View()` to the matching transition.
  The trackballs are `Trackball` objects that only record the calls they receive.
  The same module holds the swap-texture index advance of the older head-mounted display SDK, `(i + 1) % count`, and proves that `count` advances return to the start.
- **The per-frame projection parameters** (`fisheye/main.cpp`), in module `Frame`:
  - the mesh grid size: `slices` is the truncated square root of `aspect * 1271`, and `stacks` is `1271 / slices - 1`;
  - the grid gap;
  - the screen extents;
  - the focal distance `-50 / (wheel - 50)`;
  - the image circle;
  - the instanced draw call;
  - one pass of the render loop, as a method over a `Window`.
- **The lens-profile catalog** (`fisheye/ExpansionShader.h`), in module `ShaderCatalog`. It is the constant table of nine presets.

Floating-point values are modelled as mathematical reals, and the platform's `int` counters as unbounded integers.

Two facts about the code that its comments or a first reading get wrong:
- `fisheye/main.cpp:119` truncates the column count with `static_cast` of `sqrt(aspect * 1271)`; it does not round. `Frame.SlicesIsLargest` proves that `Slices` is the largest count whose square fits.
- The comment at `fisheye/main.cpp:136-137` says the focal distance stays in [1/3, 1]. Under the formula at line 139 that holds only for wheel values at most 0. Over the clamped range [-100, 49] the focal distance runs from 1/3 to 50. `Frame.FocalRange` proves the true range and the "at most 1 exactly when wheel ≤ 0" boundary.

## Model

| member | source | states |
|---|---|---|
| `ShaderCatalog.CatalogSize` | fisheye/ExpansionShader.h:24-51 | the catalog has exactly nine presets |
| `ShaderCatalog.Shader` | fisheye/ExpansionShader.h:24-51 | every preset has positive width and height and equal, positive x and y radii; presets 0-2 have radius 1 and presets 3-6 radius above 1; presets 0-6 are centred at (0, 0) and the two THETA presets 7-8 at (0, -0.002) |
| `InputEvents.Initial` | fisheye/Window.h:269-273 | a new window starts with every arrow component and wheel at zero and both flags down, and with the size, aspect and trackball regions of the initial resize |
| `InputEvents.Keyboard` | fisheye/Window.h:890-976 | a non-press leaves the state unchanged; a shift or control press raises its flag and changes nothing else, and no key lowers a flag; a press of any key other than R, O, the four modifiers and the four arrows (space, backspace and delete included) leaves the state unchanged; no key changes size, aspect or cursor |
| `InputEvents.Nudge` | fisheye/Window.h:935-969 | an arrow step goes to the shift pair if shift is held, else to the control pair if control is held, else to the plain pair, and changes nothing else |
| `InputEvents.Mouse` | fisheye/Window.h:981-1027 | button 1 starts (non-zero action) or stops (release) the left trackball, and button 2 the right one, at the last recorded cursor position; any other button changes nothing |
| `InputEvents.ClampWheel` | fisheye/Window.h:1045-1049 | the result lies in [-100, 49]; in-range values are kept and out-of-range values saturate to the nearer bound |
| `InputEvents.Wheel` | fisheye/Window.h:1032-1052 | with shift, only the shift wheel changes, by `y`, unclamped; with control alone, only the control wheel; otherwise only the plain wheel, which ends in [-100, 49]: equal to the sum when that is in range, else the bound it passed |
| `InputEvents.Resize` | fisheye/Window.h:862-885 | stores width and height, an aspect with `aspect * height == width`, and tells both trackballs the new region; nothing else changes |
| `InputEvents.ClearModifiers` | fisheye/Window.h:841-842 | the first step of a frame's end lowers both modifier flags and changes nothing else |
| `InputEvents.SampleCursor` | fisheye/Window.h:847-856 | the last step records the sampled cursor position, and each trackball whose button is held receives a motion to it; nothing else changes |
| `InputEvents.DispatchAll` | fisheye/Window.h:845 | the callbacks of the polled events run in delivery order; none of them moves the recorded cursor, and the trackballs' call lists only grow |
| `InputEvents.SwapBuffers` | fisheye/Window.h:841-856 | the end of a frame lowers the flags, runs the polled callbacks, then records the sampled cursor; the trackballs' call lists only grow, and a held button's trackball ends with a motion to the sampled cursor |
| `InputEvents.ZeroAccumulators` | fisheye/Window.h:903-910 | the `R` branch: all three wheels and all six arrow components become zero and nothing else changes |
| `InputEvents.ResetTrackballs` | fisheye/Window.h:912-915 | the `O` branch: both trackballs receive a reset and nothing else changes |
| `InputEvents.Dispatch` | fisheye/Window.h:316-326 | a key event runs the keyboard callback, a button event the mouse callback, a scroll event the wheel callback and a size event the resize callback |
| `InputEvents.QuietFrame` | fisheye/Window.h:841-856 | a frame's end with no event polled lowers both flags, records the cursor and feeds motions to the held buttons' trackballs, and changes nothing else |
| `InputEvents.PolledPressUsesPreviousCursor` | fisheye/Window.h:841-856 | a button press polled during a frame's end starts its drag at the previous frame's cursor, before the new position is sampled and fed as a motion |
| `InputEvents.KeyboardKeepsInv` | fisheye/Window.h:901-905 | key events keep the plain wheel in [-100, 49] and the aspect equal to width over height |
| `InputEvents.WheelKeepsInv` | fisheye/Window.h:1045-1049 | wheel events keep the state invariant, in particular the plain-wheel range |
| `InputEvents.MouseKeepsInv` | fisheye/Window.h:992-1025 | mouse-button events keep the state invariant |
| `InputEvents.ResizeKeepsInv` | fisheye/Window.h:870-879 | a resize to a positive height keeps the state invariant |
| `InputEvents.DispatchAllKeepsInv` | fisheye/Window.h:845 | any run of polled callbacks keeps the state invariant |
| `InputEvents.SwapBuffersKeepsInv` | fisheye/Window.h:842-856 | the end of a frame, with whatever events it polls, keeps the state invariant |
| `InputEvents.ArrowKeyStepsOnePair` | fisheye/Window.h:935-969 | an arrow press changes exactly one component of exactly one pan pair by ±1 (up and right +1, down and left -1), with shift over control over plain, and nothing else |
| `InputEvents.OppositeArrowsCancel` | fisheye/Window.h:935-969 | up then down, and right then left, give back the state they started from |
| `InputEvents.ResetKey` | fisheye/Window.h:901-916 | `R` sets all three wheels and all six arrow components to 0 and then does exactly what `O` does |
| `InputEvents.RecenterKey` | fisheye/Window.h:912-916 | `O` appends a reset to both trackballs and leaves every other field, wheels and arrows included, unchanged |
| `InputEvents.DispatchAllModifiers` | fisheye/Window.h:918-933 | after a run of callbacks a modifier flag is up exactly when it was up before or a press of that modifier was among the events |
| `InputEvents.ModifiersStickyForOneFrame` | fisheye/Window.h:841-845 | a release of any key leaves the state unchanged, so it never lowers a flag; after a frame's end each flag is up exactly when a press of its key was polled during it |
| `InputEvents.WheelChangesOneAccumulator` | fisheye/Window.h:1039-1050 | a wheel event changes only wheels, and the one that changes is selected by the modifiers: shift, else control, else plain |
| `InputEvents.WheelUndo` | fisheye/Window.h:1045-1049 | inside the range, a scroll followed by the opposite scroll restores the plain wheel |
| `InputEvents.WheelSaturates` | fisheye/Window.h:1045-1049 | once a scroll reaches the upper bound, further upward scrolls leave the plain wheel at 49; it does not wrap |
| `GlfwWindow.Window.constructor` | fisheye/Window.h:200-518 | a new window is valid and its state is `Initial(width, height)`, with fresh pan arrays and trackballs |
| `GlfwWindow.Window.Resize` | fisheye/Window.h:862-885 | the window's new state is the resize transition of the old one |
| `GlfwWindow.Window.Keyboard` | fisheye/Window.h:890-976 | the window stays valid and its new state is the keyboard transition of the old one, with `R` falling through into `O` |
| `GlfwWindow.Window.ZeroAccumulators` | fisheye/Window.h:901-910 | all wheels and all arrow components become zero; flags, size and trackballs are untouched |
| `GlfwWindow.Window.ResetTrackballs` | fisheye/Window.h:912-916 | both trackballs receive a reset, left first, and nothing else changes |
| `GlfwWindow.Window.StepArrow` | fisheye/Window.h:935-969 | the arrow array the modifiers select gains ±1 in the key's component |
| `GlfwWindow.Window.Mouse` | fisheye/Window.h:981-1027 | the window stays valid and its new state is the mouse transition of the old one |
| `GlfwWindow.Window.Wheel` | fisheye/Window.h:1032-1052 | the window stays valid and its new state is the wheel transition of the old one |
| `GlfwWindow.Window.SampleCursor` | fisheye/Window.h:847-856 | the window stays valid and its new state is the cursor-sampling step of the old one |
| `GlfwWindow.Window.Dispatch` | fisheye/Window.h:316-326 | the window stays valid and its new state is the callback transition for the event |
| `GlfwWindow.Window.SwapBuffers` | fisheye/Window.h:790-857 | the window stays valid and its new state is the end-of-frame transition of the old one, with the polled events dispatched in order between the flag reset and the cursor sampling |
| `GlfwWindow.Window.GetWidth` | fisheye/Window.h:1057-1060 | returns the stored width |
| `GlfwWindow.Window.GetHeight` | fisheye/Window.h:1065-1068 | returns the stored height, which is positive |
| `GlfwWindow.Window.GetSize` | fisheye/Window.h:1073-1077 | returns width and height together |
| `GlfwWindow.Window.GetAspect` | fisheye/Window.h:1082-1085 | returns a non-negative aspect that times the height gives the width |
| `GlfwWindow.Window.GetArrowX` | fisheye/Window.h:1090-1093 | returns the plain pair's horizontal component |
| `GlfwWindow.Window.GetArrowY` | fisheye/Window.h:1098-1101 | returns the plain pair's vertical component |
| `GlfwWindow.Window.GetArrow` | fisheye/Window.h:1106-1110 | returns both components of the plain pair |
| `GlfwWindow.Window.GetShiftArrowX` | fisheye/Window.h:1115-1118 | returns the shift pair's horizontal component |
| `GlfwWindow.Window.GetShiftArrowY` | fisheye/Window.h:1123-1126 | returns the shift pair's vertical component |
| `GlfwWindow.Window.GetShiftArrow` | fisheye/Window.h:1131-1135 | returns both components of the shift pair |
| `GlfwWindow.Window.GetControlArrowX` | fisheye/Window.h:1140-1143 | returns the control pair's horizontal component |
| `GlfwWindow.Window.GetControlArrowY` | fisheye/Window.h:1148-1151 | returns the control pair's vertical component |
| `GlfwWindow.Window.GetControlArrow` | fisheye/Window.h:1156-1160 | returns both components of the control pair |
| `GlfwWindow.Window.GetMouseX` | fisheye/Window.h:1165-1168 | returns the recorded cursor x |
| `GlfwWindow.Window.GetMouseY` | fisheye/Window.h:1173-1176 | returns the recorded cursor y |
| `GlfwWindow.Window.GetMouse` | fisheye/Window.h:1181-1185 | returns the recorded cursor position |
| `GlfwWindow.Window.GetWheel` | fisheye/Window.h:1190-1193 | returns the plain wheel, which always lies in [-100, 49] |
| `GlfwWindow.Window.GetShiftWheel` | fisheye/Window.h:1198-1201 | returns the shift wheel |
| `GlfwWindow.Window.GetControlWheel` | fisheye/Window.h:1206-1209 | returns the control wheel |
| `GlfwWindow.CQuot` | fisheye/Window.h:690 | C++'s `/` with a positive divisor truncates toward zero: the quotient has the sign of the dividend |
| `GlfwWindow.CRem` | fisheye/Window.h:690 | C++'s `%` with a positive divisor completes C++'s `/`: `CQuot(a, b) * b + r == a`, with `r` in [0, b) for a non-negative dividend and in (-b, 0] for a negative one, so it is the dividend itself when that is already below the divisor |
| `GlfwWindow.AdvanceBy` | fisheye/Window.h:690 | any number of advances from an index in [0, count) stays in [0, count) |
| `GlfwWindow.NextIndex` | fisheye/Window.h:690-692 | from an index in [0, count) the advance stays in [0, count): it goes to the next index, and from the last back to 0 |
| `GlfwWindow.AdvanceByAdds` | fisheye/Window.h:690-692 | `a` advances followed by `b` advances are `a + b` advances |
| `GlfwWindow.AdvanceByCounts` | fisheye/Window.h:690-692 | short of the end of the ring, `k` advances add `k` to the index |
| `GlfwWindow.AdvanceCycle` | fisheye/Window.h:690-692 | after `count` advances the index is back at its start value |
| `GlfwWindow.SwapTextureSet.Advance` | fisheye/Window.h:690 | the set stays valid and its current index becomes `NextIndex` of the old one |
| `GlfwWindow.AdvanceEyeTargets` | fisheye/Window.h:688-692 | before an eye is drawn, its colour set and its depth set each advance once |
| `Frame.SelectionIsValid` | fisheye/main.cpp:22-38 | selection 2 is a valid catalog index, and width, height and circle all come from that one entry (1280 x 720, circle (1, 1, 0, 0)) |
| `Frame.FloorSqrt` | fisheye/main.cpp:119 | the result `r` is the truncated square root: `r * r <= n < (r + 1) * (r + 1)` |
| `Frame.Slices` | fisheye/main.cpp:119 | `slices * slices <= aspect * 1271 < (slices + 1) * (slices + 1)` |
| `Frame.SlicesIsLargest` | fisheye/main.cpp:119 | an integer's square is at most `aspect * 1271` exactly when the integer is at most `slices`: truncation, not rounding |
| `Frame.Stacks` | fisheye/main.cpp:120 | `slices * (stacks + 1) <= 1271 < slices * (stacks + 2)`, the integer division `1271 / slices` less one |
| `Frame.StacksPositiveIff` | fisheye/main.cpp:120 | there is at least one strip instance exactly when `slices <= 635` |
| `Frame.Gap` | fisheye/main.cpp:125 | for `slices > 1` and `stacks > 0`, the gaps times `slices - 1` and times `stacks` are both 2, the size of clip space |
| `Frame.GridDefinedIff` | fisheye/main.cpp:119-125 | the gap's divisors are non-zero exactly when `4 <= aspect * 1271 < 404496` |
| `Frame.ScreenOf` | fisheye/main.cpp:127-132 | the screen spans [-aspect, aspect] horizontally and [-1, 1] vertically around the origin |
| `Frame.Focal` | fisheye/main.cpp:139 | the focal distance is positive for wheel values below 50, and the wheel is recovered from it as `50 - 50 / focal` |
| `Frame.FocalAtPoints` | fisheye/main.cpp:135-139 | focal(-100) = 1/3, focal(0) = 1, focal(49) = 50 |
| `Frame.FocalIncreasing` | fisheye/main.cpp:136-139 | below a wheel of 50 the focal distance is strictly increasing |
| `Frame.FocalRange` | fisheye/main.cpp:136-139 | on [-100, 49] the focal distance lies in [1/3, 50], and it is at most 1 exactly when the wheel is at most 0 |
| `Frame.CircleOf` | fisheye/main.cpp:149-155 | both radii move from the catalog's by the shift wheel times 0.001, the centre's x by (shift x - control x) times 0.001, its y by (shift y + control y) times 0.001 |
| `Frame.CircleAtRest` | fisheye/main.cpp:149-155 | with every accumulator at zero the circle is the catalog entry's |
| `Frame.ArrowKeyMovesCircle` | fisheye/main.cpp:153-154 | an arrow press with shift moves the centre 0.001 in the arrow's direction; with control only, against it horizontally and with it vertically; with neither, the circle is unchanged; the radii never change |
| `Frame.ShiftWheelScalesCircle` | fisheye/main.cpp:151-152 | a shift-held scroll by `y` grows both radii by `y * 0.001` and changes neither the centre nor the focal distance |
| `Frame.Draw` | fisheye/main.cpp:168 | the draw call starts at vertex 0 with `2 * slices` vertices per instance and `stacks` instances |
| `Frame.DrawFitsBudget` | fisheye/main.cpp:119-168 | the `stacks + 1` rows the strips cover, times the `slices` columns, fit within 1271 samples, and one more row would not |
| `Frame.FrameUniforms` | fisheye/main.cpp:119-164 | on a defined grid there are at least two columns and one strip instance, and the gap is that of the grid the aspect selects; the screen is `ScreenOf(aspect)`, so `(aspect, 1)` centred on the origin; the focal distance is `Focal(wheel)` and lies in [1/3, 50]; the circle is the window's circle over the profile's, the image unit is 0, and the rotation comes from the left trackball |
| `Frame.FrameGapSpansClipSpace` | fisheye/main.cpp:119-125 | in a frame with a defined grid, `slices > 1`, and the frame's gaps spread the columns and rows over all of clip space |
| `Frame.ResetRestoresDefaultView` | fisheye/main.cpp:139-155 | after `R`, the next frame uses the catalog's own circle and a focal distance of exactly 1 |
| `Frame.RenderFrame` | fisheye/main.cpp:110-172 | one loop pass computes the uniforms and draw call from the window's state before the frame ends, then performs the end-of-frame transition |

## Left out

- Platform plumbing is not modelled: window creation, monitor selection, callback registration, `shouldClose` with the Escape key, `get` and `restoreViewport`. The events `glfwPollEvents` delivers, the cursor position and the button states that `swapBuffers` samples are parameters of `SwapBuffers`.
- OpenGL calls are not modelled: shader loading, textures, vertex arrays, uniform uploads, the draw and the blit. Only the values passed to them are.
- The head-mounted display SDK is not modelled: session creation and teardown, adapter comparison, swap-chain and mirror creation, pose queries, frame submission and its disconnect handling, and the destructor's release order. All of them call into an SDK that is not part of this model. Only the index advance of `select` is modelled.
- The trackballs' rotation arithmetic, `getLeftTrackball` and `getRightTrackball` are not part of this model. A trackball is the list of calls it has received, and the `rotation` uniform stands for that list.
- The capture device is not modelled: opening, `transmit`, and the exit on failure.
- Floating point is not modelled. Floats and doubles are reals, `sqrt` is stated by inequality, and the catalog's float literals are exact decimals.
- InputEvents.Keyboard: the pan counters are unbounded integers, so the 32-bit overflow after about 2^31 presses in one direction is not modelled.
- InputEvents.Resize: requires a non-negative width and a positive height; `EventOk` excludes the other size events. A minimised window can report a height of 0, for which the source stores an infinite or NaN aspect, which has no real-number counterpart.
- GlfwWindow.Window.Resize: the same size requirement as `InputEvents.Resize`. The builds for head-mounted displays leave the aspect unchanged on resize; only the desktop build, the one the render loop runs, is modelled.
- GlfwWindow.Window.constructor: every window starts with zeroed counters, lowered flags and the cursor at (0, 0). In the source, only the first window of a process zeroes the counters, and nothing initialises the flags or the cursor (`fisheye/Window.h:122`): a button event polled in the first frame reads a cursor that the first `swapBuffers` has not sampled yet (`fisheye/Window.h:848`, `fisheye/Window.h:989-990`). Window title, fullscreen monitor choice and context sharing are not modelled.
- InputEvents.Keyboard: the callback's `scancode` and `mods` arguments are not parameters, because the source never reads them. The wheel callback's horizontal offset is dropped for the same reason.
- Frame.FrameUniforms: requires an aspect for which the grid is defined (`4 <= aspect * 1271 < 404496`). Outside that range the source misbehaves in one of four ways. Below 1, `slices` is 0 and `1271 / slices` divides an integer by zero. From 1 to 4, `slices` is 1 and the gap's x divides a float by zero. From 404496 (636²) up to 1617984 (1272²), `stacks` is 0, so the gap's y divides a float by zero and the draw has no instance. From 1617984 on, `slices` exceeds 1271 and `stacks` is -1, so the gap's y is -2 and the draw asks for -1 instances.
- Frame.RenderFrame: the same grid requirement as `Frame.FrameUniforms`.
- GlfwWindow.AdvanceEyeTargets: the texture sets belong to the SDK, and the model keeps only their count and current index.
