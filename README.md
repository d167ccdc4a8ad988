# Melting pictures: layout and step controller

A Dafny model of the core of `script.js`, a page that shows a sequence of
pictures as a vertical filmstrip and moves one picture per wheel "step",
with a displacement ("melt") filter whose strength follows how far the
stack moved in each animation frame.

The model has five modules:

- `Layout` (`layout.dfy`): the "contain" fit of one picture into the
  viewport, its centring, the per-container layout pass and the gapless
  vertical stack.
- `Displacement` (`displacement.dfy`): the arithmetic of one tween frame.
  It covers the interpolated scroll position, the progress factor, the
  container position derived from the factor, and the two filter scales
  (gains 120 and 20, aspect divisor 3, as named constants).
- `Stepping` (`stepping.dfy`): the wheel/tween controller as a pure state
  machine over `(currentIndex, isTweening)`, with lemmas over arbitrary
  sequences of events.
- `Melting` (`melting_pics.dfy`): class `MeltingPics`. It holds the viewport
  (`WIDTH`, `HEIGHT`), an array of picture containers, the stack position
  `container.position.y` and the filter's `scale.x`/`scale.y`. Its methods
  are the source's loops and assignments.
- `Scroller` (`wheel_scroller.dfy`): class `WheelScroller`. It holds the
  load handler's `currentIndex` and `isTweening`, the running tween's
  target and the window scroll position. `Wheel` is the wheel listener.
  `Frame(t, currentY)` and `Complete()` are the tween's `onUpdate` and
  `onComplete`. `ThreePictureScenario` walks the 3-picture, 1000x800 example
  through the contracts alone, and `RepeatedResizeScenario` resizes twice to
  the same viewport and gets the same layout.

All numbers are exact `real`s. The viewport and the natural picture sizes
are positive. `window.innerWidth/innerHeight` are the arguments of
`ResizeCanvas`. The tween's progress (its playhead position, a fraction in [0, 1]) is the
`t` argument of `Frame`.
`window.scrollY` read in a frame is its `currentY` argument.
`window.scrollTo` becomes the assignment of the `scrollY` field.

The model follows the code as written:

- `currentIndex` changes when the wheel event is accepted, before the tween
  starts. It does not change on completion.
- Each frame interpolates from the scroll position read at that frame. It
  does not use a start position fixed when the tween began.
- A resize does not touch the stack position `container.position.y`,
  `currentIndex` or `isTweening`. Nothing re-derives the offset from the index.
- Nothing special-cases a stack of one picture. Such a stack never starts
  a tween, so the frame's division by `HEIGHT * (N - 1)` is never reached.
  `Stepping.SinglePictureNeverTweens` and the invariant `WheelScroller.Valid`
  show this.

## Model

| member | source | states |
|---|---|---|
| Layout.ContainFit | script.js:113-127 | the fitted box has positive sides no larger than the viewport, touches the viewport's width or height, keeps the natural aspect (`width * iniH == height * iniW`), lies inside the viewport, and has equal margins on both sides of each axis |
| Layout.ContainFitLargest | script.js:117-123 | every uniform scaling of the natural size that fits the viewport is no larger than the fitted box in either dimension, so the fit is the largest one |
| Layout.ContainFitSameAspect | script.js:117-123 | when picture and viewport have the same aspect, the else branch is taken and the picture fills the viewport exactly |
| Layout.AspectCross | script.js:113-117 | comparing `iniW / iniH > W / H` is the same as comparing the cross products `iniW * H > W * iniH` |
| Layout.Fitted | script.js:117-127 | the loop body of the fitting pass: the container keeps its natural size and offset, and its sprite lies inside the viewport |
| Layout.Stacked | script.js:136 | the loop body of the stacking pass: the container keeps its natural size and sprite box |
| Layout.Arrange | script.js:126-136 | after a layout pass a container keeps its natural size, its sprite lies inside the viewport, and it sits at `H * i` |
| Layout.ArrangeIdempotent | script.js:166-178 | a second layout pass for the same viewport leaves every container as the first left it |
| Layout.GaplessIffMultiples | script.js:134-138 | offsets `H * i` are exactly the stack that starts at 0 and steps by `H`: 0, H, ..., (N-1)H (both directions) |
| Displacement.Interpolate | script.js:290-292 | the frame's scroll position lies between `currentY` and the target, equals `currentY` at t = 0 and the target at t = 1 |
| Displacement.Factor | script.js:298 | for a scroll position inside the scrollable length `H * N - H`, the progress factor lies in [0, 1] |
| Displacement.FinY | script.js:147 | for a factor in [0, 1], the stack position lies between `-(H * (N - 1))` and 0 |
| Displacement.FinYOfFactor | script.js:292-301 | the container position derived from the factor is exactly minus the scroll position, so the two never drift apart |
| Displacement.ScaleY | script.js:159 | the vertical melt is non-negative for a non-negative distance and zero for a zero distance |
| Displacement.ScaleX | script.js:160 | the horizontal melt is non-positive for a non-negative distance and zero for a zero distance |
| Displacement.ScaleYStrictlyIncreasing | script.js:159 | a frame that moves further gives a strictly larger vertical melt |
| Displacement.ScaleXStrictlyDecreasing | script.js:160 | a frame that moves further gives a strictly more negative horizontal melt |
| Stepping.WheelStep | script.js:313-328 | a running tween leaves the phase unchanged; a change only happens when no tween runs, starts one and moves the index by one; a step down needs `deltaY > 0` and stays at most `N - 1`, a step up needs `deltaY < 0` and stays at least 0 |
| Stepping.CompleteStep | script.js:305 | clears the running flag and keeps the index |
| Stepping.WheelStepCases | script.js:313-328 | a wheel event changes the phase if and only if it is accepted (no tween running, and not past the last picture going down or the first going up); an accepted event moves the index by exactly one in the wheel's direction and marks a tween as running |
| Stepping.WheelIgnoredWhileTweening | script.js:313 | while a tween runs, a wheel event changes nothing |
| Stepping.StepInRange | script.js:276-328 | each wheel or completion event keeps the index in range and a running tween only with at least two pictures |
| Stepping.RunInRange | script.js:276-328 | any sequence of events keeps that invariant |
| Stepping.SinglePictureNeverTweens | script.js:313-328 | with at most one picture, no sequence of events starts a tween or moves the index |
| Stepping.WheelsDroppedWhileTweening | script.js:313 | while a tween runs, any number of wheel events in either direction changes nothing (no queueing, no interruption) |
| Stepping.IndexMovesOncePerTween | script.js:280-328 | over any sequence of events, the index moves no further than the number of tween completions, plus one for a tween still running at the end, minus one for a tween already running at the start |
| Melting.MeltingPics.constructor | script.js:8-51 | creates one container per loaded picture with its natural size, fitted and stacked for the viewport (gapless), the stack at 0 and the filter at scale 0 |
| Melting.MeltingPics.ResizeImages | script.js:103-129 | every container's sprite box becomes the contain fit for the current viewport; natural sizes and offsets are unchanged |
| Melting.MeltingPics.RepositeContainers | script.js:134-138 | container `i` is placed at `HEIGHT * i` and the offsets form a gapless stack; nothing else changes |
| Melting.MeltingPics.UpdateDisplacementImmediate | script.js:145-161 | the stack moves to `-coef * HEIGHT * (N - 1)`; the scales follow the distance moved (`scale.y >= 0`, `scale.x <= 0`); a repeated call with the same factor moves nothing and sets both scales to 0 |
| Melting.MeltingPics.ResizeCanvas | script.js:166-178 | takes the new viewport; every container becomes a function of its natural size and the viewport only; stack position and filter scales are unchanged |
| Scroller.WheelScroller.constructor | script.js:276-277 | the controller starts at index 0 with no tween running, over the given picture stack |
| Scroller.WheelScroller.Wheel | script.js:311-329 | the new phase is `WheelStep` of the old one; an accepted event moves the index by ±1, sets `isTweening` and fixes the target at `index * innerHeight`, a scroll position within `[0, innerHeight * (N - 1)]`; a refused one changes nothing |
| Scroller.WheelScroller.ScrollToIndex | script.js:280-282 | marks a tween as running and fixes its target at `index * innerHeight` |
| Scroller.WheelScroller.Frame | script.js:288-302 | the window scrolls to the interpolated point between the current scroll position and the target (the target at t = 1); the stack ends at exactly minus that point; the filter scales follow the distance moved; a frame that starts inside the scrollable length toward a target inside it stays inside it, so its factor lies in [0, 1]; index, flag and target are unchanged |
| Scroller.WheelScroller.Complete | script.js:304-306 | clears `isTweening` and changes nothing else |

## Left out

- Asset loading through a load queue, and its per-file and completion
  handlers, is network I/O. The constructor takes the natural sizes of the
  loaded pictures as a sequence.
- Creating the rendering application, turning pictures into textures,
  building the displacement filter, rendering, and `destroy` are calls into
  a graphics library. Only what they store is modelled: natural sizes,
  sprite boxes, offsets, stack position and filter scales.
- The tween engine, its `Power2.easeOut` easing, its frame timer and the
  canvas fade-in are not modelled. `Frame` takes the tween's progress `t` and
  the scroll position read at that frame as arguments. The model does not
  enforce that successive `t` values increase or that the tween ends with t = 1.
- DOM effects are not modelled: `preventDefault`, disabling native
  scrolling, sizing the fake scroll element and showing the scroll hint,
  and console output. `window.scrollTo` is the assignment of a field.
- The renderer resize in `resizeCanvas` is a library call. `ASPECT` is
  recomputed from `WIDTH / HEIGHT` inside the fit, so it is not a field.
- The constructor's initial `resizeCanvas` returns early before any
  container exists, so the constructor sets the viewport directly.
- JavaScript numbers are IEEE-754 doubles. The model uses exact reals, so
  rounding is not modelled, for example in the tie case of the aspect
  comparison.
- `innerHeight` is read again in every frame for the factor. In the model
  it is the stack object's current `HEIGHT`, which a resize keeps equal to it.
- A resize during a tween does not recompute the tween's target. The model
  keeps this behaviour and proves nothing about the frames after such a resize.
- `Frame` requires that a tween is running (`isTweening`), because the
  tween engine calls it only between the start of a tween and its
  completion.
- The link between a tween's target and the index it steps to
  (`targetScrollY == currentIndex * HEIGHT`) is stated by `Wheel` when the
  tween starts, but it is not kept as an invariant, because a resize during
  the tween breaks it. That the stack ends at `-currentIndex * HEIGHT` after
  the last frame is therefore shown only for the three-picture example
  (`ThreePictureScenario`), not for every run.
