# Spirograph animation, modelled in Dafny

The repository is a family of near-duplicate scripts that animate a spirograph.
A chain of rotating arms is anchored at the centre of the frame. Each arm pivots
at the end of the previous one, and every frame each arm's angle advances by its
own speed. The terminal point of the chain is the pen. Each script writes one
video frame per loop iteration and stops at a frame cap, on the quit key, or
(in most variants) when the pen comes back near where it started.

This project models the five core scripts and what they share:

- `pynum.dfy` (module `PyNum`): Python's `int()` on a float, which truncates
  toward zero (`Trunc`), and float `%` with a positive modulus (`FloorMod`).
- `color.dfy` (module `Color`):
  - `hsl_to_rgb` in its chroma/offset form over exact reals;
  - its agreement with the HSL algorithm of section 4.2.4 of CSS Color Module Level 3;
  - the per-frame hue step `hue = (hue + 0.5) % 360`.
- `arms.dfy` (module `Arms`):
  - the kinematics: joints, terminal point and per-arm truncated offsets;
  - `StepArms`, the per-arm loop in place on an angle array;
  - the two closure tests: the Euclidean one and the per-axis one.
- `raster.dfy` (module `Raster`):
  - image buffers as a `Canvas` class, with white initialisation, `[:] = 255` and one drawing call;
  - the multiplicative two-layer blend.
- `quitkey.dfy` (module `QuitKey`): the quit key, given as the set of iterations
  after which it is read.
- `spiro25.dfy`, `spiro9.dfy`, `spiro1.dfy`, `spiro3.dfy`, `spiro5.dfy`: one
  module per script.
  - Each frame loop is a method over the real state: arrays, canvases, the
    previous point, the anchor, the flags, the hue and the frame count.
  - Each loop is proved against a specification function `PenAt`: the state after
    `k` iterations.
  - A `Film` function gives the frames written.
  - A `Recorded` predicate says which prefix of the film a run writes and why it
    stopped.
  - Lemmas state what the loop state means in terms of the kinematics: which
    segments are on the canvas, where the anchor is, when the loop stops, and what
    a reset restores.

Things the model takes as parameters:

- `math.cos` and `math.sin` are a `Trig` value: a pair of arbitrary functions.
  Some lemmas assume they are bounded in [-1, 1], or that `cos 0 = 1` and `sin 0 = 0`.
- OpenCV rasterisation is a `Painter`: an arbitrary function from an image and one
  `cv2.line` or `cv2.circle` call to an image of the same size.
  - A canvas always equals its strokes painted in order over white.
- The random draws (radii, speeds, starting hue, line width, `random_color`) are
  fields of a `Run` value.
- The quit key is the set `presses` of iterations after which `cv2.waitKey`
  reports `q`.

Notes on the code:

- Arm offsets are truncated with `int()`, per arm, not rounded
  (`spiro25.py:118-119`).
- The closure tests at `spiro9.py:133-138` and `spiro25.py:175-178` have no
  minimum-frame guard.
- In `spiro25.py` a closure does not end the loop: it resets the drawing
  conditions (`spiro25.py:176-184`).

The Euclidean closure test `sqrt(dx**2 + dy**2) <= 2` on integer points is stated
without products as `Arms.Close`. `Arms.CloseIsSquareTest` and
`Arms.SqrtTestIsSquareTest` prove it equal to the squared-distance and
square-root forms.

## Model

| member | source | states |
|---|---|---|
| PyNum.Abs | spiro25.py:13-14 | the result is non-negative and is `x` or `-x` |
| PyNum.Trunc | spiro25.py:31-33 | `int()` on a float: the floor for non-negative values and the ceiling for negative ones, so the result lies within 1 of the input, on the side of zero |
| PyNum.TruncShrinks | spiro25.py:118-119 | truncation never increases the magnitude, and loses less than 1 |
| PyNum.FloorMod | spiro25.py:172 | Python's `%` on floats with a positive modulus lands in [0, m) |
| PyNum.FloorDivBand | spiro25.py:172 | the Python floor quotient `a // m` is the whole number of moduli below `a` |
| PyNum.FloorModOfSmall | spiro25.py:172 | `%` leaves a value already in [0, m) unchanged |
| PyNum.FloorModShift | spiro25.py:172 | adding a whole number of moduli does not change `%` |
| PyNum.FloorModInBand | spiro25.py:14 | on a value in band `[q*m, (q+1)*m)`, `%` subtracts exactly `q*m` |
| PyNum.FloorModOfSum | spiro25.py:172 | `((a % m) + b) % m == (a + b) % m`, so reducing the running hue each frame is the same as reducing once |
| Color.ChromaFits | spiro25.py:13-15 | for saturation and lightness fractions in [0, 1]: `c >= 0`, `m >= 0` and `c + m <= 1` |
| Color.SecondFits | spiro25.py:14 | the second component `x` lies between 0 and the chroma `c` |
| Color.HslChannelsInRange | spiro25.py:9-34 | every channel of `hsl_to_rgb(h, s, l)` is in [0, 255] when s and l are in [0, 100], for every hue |
| Color.FullySaturatedHasExtremes | spiro25.py:13-33 | at s = 100 and l = 50, for h in [0, 360), one channel is 255 and another is 0 |
| Color.OutOfRangeHueIsGrey | spiro25.py:16-33 | a hue outside [0, 360) matches no sector, so r = g = b = `int(m * 255)` |
| Color.CssBounds | spiro25.py:13-15 | the CSS bounds m2 and m1 equal the script's `c + m` and `m` |
| Color.CssSector0 | spiro25.py:18-19 | for h in [0, 60) the script's channels equal the CSS algorithm's |
| Color.CssSector1 | spiro25.py:20-21 | for h in [60, 120) the script's channels equal the CSS algorithm's |
| Color.CssSector2 | spiro25.py:22-23 | for h in [120, 180) the script's channels equal the CSS algorithm's |
| Color.CssSector3 | spiro25.py:24-25 | for h in [180, 240) the script's channels equal the CSS algorithm's |
| Color.CssSector4 | spiro25.py:26-27 | for h in [240, 300) the script's channels equal the CSS algorithm's |
| Color.CssSector5 | spiro25.py:28-29 | for h in [300, 360) the script's channels equal the CSS algorithm's |
| Color.ShadeMatchesCss | spiro25.py:9-30 | for h in [0, 360) the pre-scaling channel values of `hsl_to_rgb` are exactly those of the CSS Color Module Level 3 HSL algorithm |
| Color.HslToRgbIsCss | spiro9.py:8-33 | for h in [0, 360), `hsl_to_rgb` is the CSS conversion followed by `int(v * 255)` on each channel |
| Color.HslToRgb | spiro25.py:9-34 | `hsl_to_rgb`: the CSS HSL conversion followed by `int(v * 255)` on each channel (`HslToRgbIsCss`), every channel in [0, 255] for percentages (`HslChannelsInRange`) |
| Color.NextHue | spiro25.py:172 | `(hue + 0.5) % 360` is in [0, 360) for every hue |
| Color.HueAfter | spiro9.py:77-130 | a hue that starts in [0, 360) stays there after any number of frames |
| Color.HueAfterIsOffset | spiro9.py:130 | after n frames the hue is `(h0 + n/2) % 360` |
| Color.HueReturnsAfter720 | spiro25.py:172 | after 720 frames the hue is back to its start |
| Arms.Offset | spiro25.py:118-119 | one truncated offset `int(f(a) * r)` with `f(a)` in [-1, 1] is at most `abs(r)` in magnitude |
| Arms.Elbow | spiro25.py:118-119 | the end of one arm: the pivot moved by `int(cos a * r)` and `int(sin a * r)`, each at most `abs(r)` in magnitude when cos and sin are in [-1, 1] |
| Arms.Tip | spiro25.py:113-129 | the pen point is the last joint of the chain, after the per-arm loop |
| Arms.Joints | spiro25.py:113-129 | the chain has one joint per arm plus the origin, and starts at the origin |
| Arms.TwoArmTipIsChain | spiro1.py:53-58 | the explicit two-arm form `x1 = cx + int(cos a1 * r1)`, `x2 = x1 + int(cos a2 * r2)` is the general chain with two arms |
| Arms.JointsSnoc | spiro9.py:94-100 | one more pass of the per-arm loop appends that arm's end to the joints |
| Arms.StepArms | spiro9.py:93-103 | one kinematics step returns the joints computed from the old angles, the last being the terminal point, and leaves each angle advanced by exactly its speed; radii and speeds are untouched |
| Arms.TipIsOriginPlusReach | spiro9.py:90-100 | the terminal point is the origin plus the sum of the per-arm truncated offsets; truncation is per arm, not on the total |
| Arms.ReachWithinSpan | spiro9.py:94-100 | with cos and sin in [-1, 1], the sum of the offsets lies within plus or minus the sum of the radii |
| Arms.OffsetWithin | spiro9.py:99-100 | a truncated offset `int(c * r)` with c in [-1, 1] is at most `abs(r)` in magnitude |
| Arms.ScaledWithin | spiro9.py:99-100 | `abs(c * r) <= abs(r)` for c in [-1, 1] |
| Arms.TipWithinSpan | spiro9.py:90-100 | the pen stays within the sum of the radii of the centre, on each axis |
| Arms.TurnedIsLinear | spiro1.py:88-89 | repeated `angle += speed` equals `angle + k * speed` |
| Arms.AnglesAfterPerArm | spiro9.py:103 | after k frames, each arm's angle has been advanced k times by its own speed |
| Arms.StillChainStaysPut | spiro9.py:55-103 | with all speeds zero, the angles and the terminal point never change |
| Arms.ZeroAngleTwoArmTip | spiro1.py:53-58 | at zero angles, with cos 0 = 1 and sin 0 = 0, the two-arm terminal point is the centre shifted right by the truncated radii |
| Arms.CloseIsSquareTest | spiro9.py:135-136 | the product-free closure test holds exactly when `dx**2 + dy**2 <= 4` |
| Arms.SqrtTestIsSquareTest | spiro25.py:177-178 | for a whole squared distance, `sqrt(d) <= 2` holds exactly when `d <= 4` |
| Arms.Close | spiro9.py:135-136 | the closure test `sqrt(dx**2 + dy**2) <= 2` on integer points, written as the offsets it admits (`CloseIsSquareTest`) |
| Arms.NearStart | spiro1.py:92 | `abs(x - initial_x) < tx and abs(y - initial_y) < ty` on the integer point and the real start |
| Raster.White | spiro25.py:52-53 | `np.ones(...) * 255` has the right size and every byte is 255 |
| Raster.PaintedSnoc | spiro25.py:122-126 | drawing one more stroke paints it over what the earlier strokes left |
| Raster.Canvas.constructor | spiro25.py:52 | a new buffer has `height * width * 3` bytes, no strokes, and equals white |
| Raster.Canvas.Clear | spiro25.py:67-68 | `canvas[:] = 255` makes every byte 255 and forgets every stroke |
| Raster.Canvas.Draw | spiro25.py:122 | a drawing call appends its stroke, and the buffer stays equal to its strokes painted over white |
| Raster.BlendChannel | spiro25.py:157-164 | a blended byte is at most either layer's byte; it is 0 exactly when `t * a < 255` (so 0 whenever either layer is 0); white in one layer shows the other unchanged |
| Raster.BlendIsQuotient | spiro25.py:157-164 | normalise, multiply, rescale and truncate equals the integer quotient `t * a / 255` |
| Raster.BlendFits | spiro25.py:161-164 | `t * a / 255` lies in [0, min(t, a)], and equals the other byte when one is 255 |
| Raster.BlendKeepsInk | spiro25.py:157-164 | a byte that is 0 in either layer is 0 in the frame; white in one layer shows the other; the frame is never lighter than either layer |
| Raster.BlendWithWhite | spiro25.py:157-164 | blending with a white arms layer gives back the trace layer |
| Raster.Blended | spiro25.py:157-164 | the frame has the layers' size and each byte is the blend of the two layers' bytes (`BlendKeepsInk`, `BlendChannel`) |
| Raster.WhiteTraceShowsArms | spiro25.py:157-164 | blending over a white trace layer gives back the arms layer |
| QuitKey.SettleNext | spiro5.py:100-102 | the quit-key bookkeeping after one more iteration |
| QuitKey.QuietMeansNoPress | spiro5.py:100-102 | "quiet for n iterations" holds exactly when the key was read after none of them |
| Spiro1.MixChannel | spiro1.py:76 | a 60/40 mixed byte lies between the two bytes; equal bytes stay; a white frame byte over a black dot gives 153 |
| Spiro1.MixIsQuotient | spiro1.py:76 | the rounded mix is `(3f + 2t + 2) / 5`, between the two bytes |
| Spiro1.MixedBetween | spiro1.py:75-78 | every mixed byte lies between the layers' bytes; white on both stays white; a black dot on white arms gives 153 |
| Spiro1.Mixed | spiro1.py:76 | the 60/40 weighted frame has the layers' size, each byte the mix of the two layers' bytes (`MixedBetween`) |
| Spiro1.ArmStrokes | spiro1.py:61-69 | the arms frame has five drawing calls: the first arm ends at the elbow, the second starts there, and the terminal joint is a disc of radius 5 at the terminal point |
| Spiro1.Start | spiro1.py:18-30 | the trace canvas starts with no dots |
| Spiro1.Step | spiro1.py:47-89 | each iteration leaves exactly one more dot on the trace canvas |
| Spiro1.SettleNext | spiro1.py:92-112 | the halt bookkeeping after one more iteration |
| Spiro1.Finished | spiro1.py:42-95 | when the loop ends, the frames are a recorded run, and `frame_count` is one less than the frames written exactly when a closure broke the loop |
| Spiro1.ArmsFrame | spiro1.py:44-69 | the fresh arms frame is white with the five arm strokes painted in order |
| Spiro1.Iterate | spiro1.py:47-89 | one iteration on the real state: the angles and the trace dots move to `PenAt(k + 1)`, the arms frame is that state's, and the returned point is the terminal point of iteration k |
| Spiro1.Emit | spiro1.py:74-81 | the frame appended is frame k of the film: the mix when `frame_count % 10 == 0`, the arms frame otherwise |
| Spiro1.Decide | spiro1.py:92-112 | the closure test (with its frame-1000 gate), the increment it skips, and the quit key update the halt state and `frame_count` |
| Spiro1.Record | spiro1.py:17-112 | the run writes frames up to the cap or the first halt (`Recorded`); `frame_count` at exit is `frames - 1` after a closure break and `frames` otherwise |
| Spiro1.Roll | spiro1.py:42-112 | the frame loop from zero angles and a white trace canvas produces a recorded run with that `frame_count` |
| Spiro1.PenAtIsTrace | spiro1.py:47-89 | after k iterations: each angle is advanced k times; the arms frame shows the chain of iteration k - 1; the trace holds one black dot of radius 2 per iteration, at that iteration's terminal point |
| Spiro1.FilmFrame | spiro1.py:81 | frame k of any longer film is what iteration k shows |
| Spiro1.FilmShowsTrace | spiro1.py:72-81 | frame k is the arms of iteration k on white; when k is a multiple of 10 it is mixed with the dots of iterations 0..k, and otherwise no trace appears in it |
| Spiro1.ArmsMeetTrace | spiro1.py:68-72 | the second arm of iteration k runs from its elbow to the point that iteration's dot marks |
| Spiro1.GoingMeansNoHalt | spiro1.py:92-112 | "going for n iterations" holds exactly when none of them halted the loop |
| Spiro1.Closes | spiro1.py:92 | the terminal point is within 2 pixels of `(initial_x, initial_y)` on both axes, after frame 1000 |
| Spiro1.HomeOf | spiro1.py:26-27 | `initial_x`, `initial_y`: the centre plus both arms' `cos`/`sin` offsets at the starting angles, as reals |
| Spiro1.StopsAtFirstHalt | spiro1.py:42-112 | a recorded run has no halt before its last frame, and a run shorter than the cap ends on a halt |
| Spiro1.GateHoldsOffClosure | spiro1.py:92-93 | without a quit key up to frame 1000, a run writes at least 1002 frames |
| Spiro1.FirstTipIsNearStart | spiro1.py:18-92 | with zero angles the closure reference is `(640 + r1 + r2, 360)`, untruncated; the first terminal point is within the tolerance of it, and only the gate stops the first iteration from closing |
| Spiro3.Start | spiro3.py:35-36 | the trace canvas starts with no segments |
| Spiro3.Step | spiro3.py:57-79 | each iteration draws exactly one segment |
| Spiro3.SettleNext | spiro3.py:82-102 | the halt bookkeeping after one more iteration |
| Spiro3.Finished | spiro3.py:49-85 | when the loop ends, the frames are a recorded run, and `frame_count` is one less than the frames written exactly when a closure broke the loop |
| Spiro3.Iterate | spiro3.py:57-79 | one iteration on the real state: the segment, the frame written (the trace canvas), the angles and the previous point move to `PenAt(k + 1)` and film frame k |
| Spiro3.Decide | spiro3.py:82-102 | the asymmetric closure test (with its frame-1000 gate), the skipped increment and the quit key update the halt state and `frame_count` |
| Spiro3.Record | spiro3.py:18-102 | one run writes frames up to the cap of 108000 or the first halt; `frame_count` at exit is as in the source |
| Spiro3.Roll | spiro3.py:49-102 | the frame loop from zero angles, the truncated start point and a white canvas produces a recorded run |
| Spiro3.Batch | spiro3.py:6-102 | five runs, each recorded with its own draws from zero angles and a white canvas |
| Spiro3.PenAtIsTrace | spiro3.py:57-79 | after k iterations: each angle is advanced k times; the previous point is the last terminal point, or the truncated start point before the first iteration; the canvas holds one segment per iteration |
| Spiro3.FilmShowsTrace | spiro3.py:65-68 | frame k is the trace canvas with the segments of iterations 0..k, the one just drawn included |
| Spiro3.FilmFrame | spiro3.py:68 | frame k of any longer film is the canvas after iteration k |
| Spiro3.TraceJoinsConsecutivePoints | spiro3.py:35-79 | the first segment starts at `(int(initial_x), int(initial_y))`; every later one starts at the terminal point before it; each ends at its own terminal point |
| Spiro3.FirstFrameHasOneSegment | spiro3.py:35-68 | the first frame already holds the segment from the truncated start point to the first terminal point |
| Spiro3.ClosesMeans | spiro3.py:82-83 | closure after iteration k holds exactly when k > 1000 and that iteration's point is within 2 across and 5 down of the untruncated start |
| Spiro3.Closes | spiro3.py:82 | the terminal point is within 2 pixels of `initial_x` and 5 of `initial_y`, after frame 1000 |
| Spiro3.HomeOf | spiro3.py:28-29 | `initial_x`, `initial_y`: the centre plus both arms' `cos`/`sin` offsets at the starting angles, as reals |
| Spiro3.StartPoint | spiro3.py:35-36 | the first previous point is `(int(initial_x), int(initial_y))` |
| Spiro3.GoingMeansNoHalt | spiro3.py:82-102 | "going for n iterations" holds exactly when none of them halted the loop |
| Spiro3.StopsAtFirstHalt | spiro3.py:49-102 | a recorded run has no halt before its last frame, and a run shorter than the cap ends on a halt |
| Spiro3.GateHoldsOffClosure | spiro3.py:82-83 | without a quit key up to frame 1000, a run writes at least 1002 frames |
| Spiro3.FirstTipIsNearStart | spiro3.py:27-82 | with zero angles the first terminal point is within the closure tolerances of the start, and only the gate stops the first iteration from closing |
| Spiro5.Start | spiro5.py:22-36 | zero angles, no previous point, drawing not started, nothing drawn |
| Spiro5.Step | spiro5.py:50-81 | after an iteration drawing has started; a segment is added exactly when drawing had already started |
| Spiro5.Finished | spiro5.py:49-102 | when the loop ends, the frames are a recorded run |
| Spiro5.Iterate | spiro5.py:50-102 | one iteration on the real state: the step on the angle array, the segment once drawing has started, and the canvas written as the next frame; the state moves to `PenAt(k + 1)` and the quit key is recorded |
| Spiro5.Record | spiro5.py:21-102 | one run writes frames up to the cap of 108000 or the first quit key |
| Spiro5.Roll | spiro5.py:49-102 | the frame loop from zero angles and a white canvas produces a recorded run |
| Spiro5.Batch | spiro5.py:9-102 | five runs, each recorded with its own draws |
| Spiro5.PenAtIsTrace | spiro5.py:54-81 | after k iterations: every angle is advanced k times; drawing has started exactly when k > 0; the previous point is the last terminal point; the canvas holds the polyline so far |
| Spiro5.FilmShowsTrace | spiro5.py:67-74 | frame k shows the polyline through the terminal points of iterations 0..k, so the first frame shows no segment |
| Spiro5.FilmFrame | spiro5.py:74 | frame k of any longer film is the canvas after iteration k |
| Spiro5.TraceJoinsConsecutiveTips | spiro5.py:65-81 | segment i joins the terminal points of iterations i and i + 1, in black, width 1, anti-aliased |
| Spiro5.RunStartsWhite | spiro5.py:31-74 | the first frame of every run is all white |
| Spiro5.StopsAtFirstPress | spiro5.py:49-102 | there is no closure test: a run ends at the first quit key or at the cap, and without a quit key it writes exactly 108000 frames |
| Spiro9.Start | spiro9.py:55-80 | zero angles, no previous point, no anchor, drawing not started, nothing drawn, the drawn starting hue |
| Spiro9.Step | spiro9.py:90-131 | drawing has started; a segment is added exactly when drawing had already started; an anchor once set is kept |
| Spiro9.SettleNext | spiro9.py:133-155 | the halt bookkeeping after one more iteration |
| Spiro9.Finished | spiro9.py:89-155 | when the loop ends, the frames are a recorded run |
| Spiro9.Iterate | spiro9.py:90-155 | one iteration on the real state: the step on the angle array, the anchor capture, the coloured segment, the frame written, the hue update, then the closure test and the quit key; the state moves to `PenAt(k + 1)` |
| Spiro9.Record | spiro9.py:54-155 | one run writes frames up to the cap of 216000, the first closure, or the first quit key; the frame count returned equals the number of frames |
| Spiro9.Roll | spiro9.py:89-155 | the frame loop from zero angles and a white canvas produces a recorded run, and returns its frame count |
| Spiro9.Batch | spiro9.py:42-155 | 25 runs, each recorded with its own draws |
| Spiro9.PenAtIsTrace | spiro9.py:89-131 | after k iterations: angles advanced k times; drawing started exactly when k > 0; the previous point is the last terminal point; the anchor is the first terminal point from iteration 2 on; the hue has moved k times; the canvas holds the polyline coloured by hue |
| Spiro9.AnchorCapturedOnce | spiro9.py:105-107 | there is no anchor for the first two states; from then on it is the first frame's terminal point and never changes |
| Spiro9.HueInRange | spiro9.py:77-130 | the hue stays in [0, 360) on every frame |
| Spiro9.FilmShowsTrace | spiro9.py:110-118 | frame k shows the coloured polyline through the terminal points of iterations 0..k |
| Spiro9.FilmFrame | spiro9.py:118 | frame k of any longer film is the canvas after iteration k |
| Spiro9.RunStartsWhite | spiro9.py:64-118 | the first frame of every run is all white |
| Spiro9.GoingMeansNoHalt | spiro9.py:133-155 | "going for n iterations" holds exactly when none of them halted the run |
| Spiro9.ClosedMeans | spiro9.py:133-138 | closure after iteration k holds exactly when k >= 1 and that iteration's terminal point is within distance 2 of the first one |
| Spiro9.Closed | spiro9.py:133-138 | an anchor point is set and the new terminal point passes the closure test against it |
| Spiro9.StopsAtFirstHalt | spiro9.py:89-155 | a recorded run has no halt before its last frame, and a run shorter than the cap ends on a halt |
| Spiro9.EarlyClosureStops | spiro9.py:133-138 | with no minimum-frame guard: if the second terminal point is within distance 2 of the first, the run writes at most two frames, and exactly two without an early quit key |
| Spiro9.GoingBefore | spiro9.py:133-138 | while the run is going, no earlier iteration halted it |
| Spiro25.Start | spiro25.py:76-96 | drawing not started, no anchor, both layers empty of strokes, two zero angles |
| Spiro25.ArmStrokes | spiro25.py:113-129 | the arms layer holds three strokes per arm: the arm and a disc at each end |
| Spiro25.Finished | spiro25.py:105-201 | when the loop ends, the frames are a recorded run |
| Spiro25.Reset | spiro25.py:59-73 | `reset_drawing_conditions`: the next draw, a fresh array of N = 2 zero angles, both layers all 255 with no strokes |
| Spiro25.ArmStrokesSnoc | spiro25.py:113-129 | one more arm appends its line and its two discs |
| Spiro25.DrawArm | spiro25.py:122-126 | one arm's line and two discs are appended to the arms layer, in source order |
| Spiro25.SweepArm | spiro25.py:113-132 | one pass of the per-arm loop draws arm j from the last joint and advances its angle; earlier arms stay advanced, later ones untouched |
| Spiro25.Sweep | spiro25.py:113-132 | the per-arm loop returns the joints of the old angles, advances each angle by its speed, and appends each arm's strokes to the arms layer |
| Spiro25.Iterate | spiro25.py:106-154 | the drawing part of iteration k on the real state (arms cleared and redrawn, anchor captured, segment once started) gives `DrawnAt(k)` |
| Spiro25.Emit | spiro25.py:156-167 | the frame appended is frame k of the film: the trace layer times the arms layer |
| Spiro25.Decide | spiro25.py:169-201 | the hue update, the closure test with its reset, and the quit key give `PenAt(k + 1)` and the halt state |
| Spiro25.Record | spiro25.py:51-201 | the program writes frames up to the cap of 3600 or the first quit key |
| Spiro25.Roll | spiro25.py:76-201 | one reset, then the frame loop, produces a recorded run |
| Spiro25.HueFollowsFrames | spiro25.py:93-173 | the hue moves 0.5 degree on every frame, resets included, and `trace_color` is always `hsl_to_rgb(hue, 100, 50)` |
| Spiro25.HueInRange | spiro25.py:93-173 | the hue stays in [0, 360) and the trace colour channels in [0, 255] on every frame |
| Spiro25.DrawnSince | spiro25.py:113-154 | the drawing part of an iteration moves the state from age a to age a + 1 with the same draw |
| Spiro25.AfterSince | spiro25.py:171-184 | after the frame, a closure restarts at age 0 with the next draw; otherwise the age stays |
| Spiro25.PenAtSince | spiro25.py:105-184 | the state after k iterations is the state Age(k) iterations after the last (re)start: angles turned from zero; drawing started from the second iteration; previous point the last terminal point; anchor the first terminal point once captured; one segment of that draw's width between consecutive terminal points but the first pair |
| Spiro25.DrawnAtSince | spiro25.py:105-154 | when frame k is written, the state is one iteration older with the same draw |
| Spiro25.Drawn | spiro25.py:105-154 | the drawing part of one iteration keeps the state well formed and marks drawing started (`DrawnSince`, `NewSegment`) |
| Spiro25.After | spiro25.py:169-184 | the rest of the iteration keeps the state well formed: the hue and colour move on, and a closure resets the drawing conditions (`AfterSince`, `ResetMeans`) |
| Spiro25.ClosedMeans | spiro25.py:175-178 | closure in iteration k holds exactly when an anchor is set (age at least 1) and the terminal point is within distance 2 of the first terminal point of that draw |
| Spiro25.Closed | spiro25.py:175-178 | an anchor point is set and the new point passes the closure test against it |
| Spiro25.ResetMeans | spiro25.py:171-184 | the hue always moves on; on closure the next draw is in use, the age is 0, the angles are zero, there is no previous point or anchor, drawing has not started and both layers are empty; otherwise the draw stays and the age grows by one |
| Spiro25.FirstFrameHasNoSegment | spiro25.py:134-150 | the first iteration after the start or a reset draws no segment and cannot close |
| Spiro25.TraceLines | spiro25.py:134-146 | every segment is a line of the draw's width, in [5, 125]; it is black when `random_color` is true and otherwise `hsl_to_rgb` of the hue of the iteration that drew it |
| Spiro25.PenAtInked | spiro25.py:134-173 | every segment on the trace layer keeps the colour of the iteration that drew it, counted from the last (re)start |
| Spiro25.DrawnInked | spiro25.py:134-146 | the drawing part of an iteration adds its segment in the current trace colour and keeps the earlier segments |
| Spiro25.NewSegment | spiro25.py:134-146 | once drawing has started, iteration k appends exactly one segment, from the previous point to the new one, black or `hsl_to_rgb` of the hue after k frames |
| Spiro25.FilmFrame | spiro25.py:156-167 | frame k of any longer film is the blend of iteration k's layers |
| Spiro25.FirstFrameShowsArms | spiro25.py:134-164 | the frame of the first iteration after the start or a reset shows the arms alone on white |
| Spiro25.StopsAtFirstPress | spiro25.py:105-201 | closing the figure never ends the run: it ends at the first quit key or at 3600 frames, and at 3600 without a quit key |

## Left out

- Pixel rasterisation: what `cv2.line` and `cv2.circle` (anti-aliased or not) do to pixels is a `Painter` parameter. Only the order and arguments of the drawing calls are modelled.
- Floating point: angles, radii, hue, the blend and the `%` on floats are exact reals. float32 and IEEE rounding in the blend at spiro25.py:157-164 are not modelled.
- Spiro1.MixChannel: models `cv2.addWeighted(frame, 0.6, trace_canvas, 0.4, 0)` as exact rounding to nearest. OpenCV's internal fixed-point arithmetic is not modelled.
- `math.cos` and `math.sin` are arbitrary functions. No trajectory or periodicity fact about them is proved.
- Continuity of `hsl_to_rgb` across sector boundaries is not proved. Its agreement with the CSS algorithm on [0, 360) is.
- Randomness is modelled as parameters in each `Run`: `np.random.uniform`, `random.randint` and `random.choice`.
  - spiro25.py:63-65: radii and speeds are arbitrary reals.
  - The draws' stated ranges are constraints only where a property needs them: the line width is in [5, 125], and the starting hue in spiro9.py is in [0, 360).
- spiro25.py:56: the random line width drawn before the first `reset_drawing_conditions` call is overwritten at once (spiro25.py:71, via line 76), so it is not modelled.
- spiro25.py:61: `random.randint(2, 2)` always gives 2, so N is the constant 2.
- I/O is not modelled:
  - `cv2.VideoWriter` output is the returned sequence of frames;
  - `imshow`, `namedWindow`, `resizeWindow`, `destroyAllWindows`, `os.makedirs`, file names, `time.time` and the progress printing are left out.
- `cv2.waitKey` is the `presses` set. Key codes, timing and the window are left out.
- spiro1.py:39-40 and the `frame_count % 5` display selection (spiro1.py:84-85) only affect the window, so they are left out.
- Integer pixel coordinates are unbounded integers. Points outside the frame are whatever the `Painter` makes of them.

