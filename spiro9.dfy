/** `spiro9.py`: 25 runs of a two-arm chain tracing anti-aliased segments of
    width 5 whose colour cycles through the hues. The terminal point of the first
    frame becomes the anchor on the second frame, and a run stops as soon as the
    pen comes back within distance 2 of the anchor, at the frame cap, or on the
    quit key. Every frame written is the trace canvas itself. */
module Spiro9 {
  import opened PyNum
  import opened Arms
  import opened Color
  import opened Raster

  const N := 2
  const Runs := 25
  const Width := 1920
  const Height := 1080
  const Fps := 60
  const Minutes := 60
  const MaxFrames := Minutes * 60 * Fps
  /** Bytes in one frame. */
  const Size := Height * Width * 3
  const Origin := Point(Width / 2, Height / 2)
  const Saturation := 100.0
  const Lightness := 50.0
  const LineWidth := 5

  /** What one run takes from outside: the radii, speeds and starting hue drawn at
      its start, and the iterations (counted from 0) after which `cv2.waitKey`
      reports the quit key. */
  datatype Run = Run(radii: seq<real>, speeds: seq<real>, hue: real, presses: set<nat>)

  /** `np.random.uniform(0, 360)` lies in [0, 360). */
  predicate WellFormed(run: Run)
  {
    |run.radii| == N && |run.speeds| == N && 0.0 <= run.hue < 360.0
  }

  /** The loop variables carried from one iteration to the next: the angle array,
      the previous terminal point, the anchor `first_x, first_y`, `drawing_started`,
      the hue, and the strokes on the trace canvas. `trace_color` is always
      `hsl_to_rgb(hue, 100, 50)`, so it is not kept apart. */
  datatype Pen = Pen(angles: seq<real>, previous: Option<Point>, first: Option<Point>,
                     started: bool, hue: real, trace: seq<Stroke>)

  predicate Ready(p: Pen)
  {
    |p.angles| == N && (p.started ==> p.previous.Some?)
  }

  /** The state before the first iteration of a run. */
  function Start(run: Run): (p: Pen)
    ensures Ready(p) && !p.started && p.previous == None && p.first == None
    ensures p.trace == [] && p.hue == run.hue
  {
    Pen(Zeros(N), None, None, false, run.hue, [])
  }

  /** The colour of the segments drawn while the hue is `hue`. */
  function TraceColor(hue: real): Rgb
  {
    HslToRgb(hue, Saturation, Lightness)
  }

  /** One iteration of the frame loop: the terminal point from the current angles,
      each angle advanced by its speed, the anchor taken from the previous point
      the first time drawing has started and no anchor is set, a segment from the
      previous point once drawing has started, and the hue moved on by half a degree. */
  function Step(t: Trig, run: Run, p: Pen): (q: Pen)
    requires WellFormed(run) && Ready(p)
    ensures Ready(q) && q.started
    ensures |q.trace| == |p.trace| + (if p.started then 1 else 0)
    ensures p.first.Some? ==> q.first == p.first
  {
    var current := Tip(t, Origin, p.angles, run.radii);
    var first := if p.started && p.first.None? then p.previous else p.first;
    var trace := if p.started then p.trace + [Line(p.previous.value, current, TraceColor(p.hue), LineWidth, true)] else p.trace;
    Pen(Advanced(p.angles, run.speeds), Some(current), first, true, NextHue(p.hue), trace)
  }

  /** The state after `k` iterations. */
  function PenAt(t: Trig, run: Run, k: nat): (p: Pen)
    requires WellFormed(run)
    ensures Ready(p)
  {
    if k == 0 then Start(run) else Step(t, run, PenAt(t, run, k - 1))
  }

  /** The closure test after an iteration: an anchor is set and the current point
      is within distance 2 of it. */
  predicate Closed(p: Pen)
  {
    p.first.Some? && p.previous.Some? && Close(p.previous.value, p.first.value)
  }

  /** The loop breaks after iteration `k`: closure, or the quit key. */
  predicate Halts(t: Trig, run: Run, k: nat)
    requires WellFormed(run)
  {
    Closed(PenAt(t, run, k + 1)) || k in run.presses
  }

  /** None of the first `n` iterations broke the loop. */
  predicate Going(t: Trig, run: Run, n: nat)
    requires WellFormed(run)
  {
    n == 0 || (Going(t, run, n - 1) && !Halts(t, run, n - 1))
  }

  /** The first `n` frames of a run: frame `k` is the trace canvas after iteration `k`. */
  ghost function Film(t: Trig, paint: Painter, run: Run, n: nat): (frames: seq<Image>)
    requires WellFormed(run)
    ensures |frames| == n
  {
    if n == 0 then [] else Film(t, paint, run, n - 1) + [Painted(paint, Size, PenAt(t, run, n).trace)]
  }

  /** The frames one run writes: one per iteration, until the frame cap or the first
      iteration after which the loop breaks. */
  ghost predicate Recorded(t: Trig, paint: Painter, run: Run, frames: seq<Image>)
    requires WellFormed(run)
  {
    && 1 <= |frames| <= MaxFrames
    && frames == Film(t, paint, run, |frames|)
    && Going(t, run, |frames| - 1)
    && (|frames| == MaxFrames || Halts(t, run, |frames| - 1))
  }

  /** After `n` iterations: either the loop broke after the last of them, which
      was the first to halt it, or none of them halted it. */
  predicate Settled(t: Trig, run: Run, n: nat, halted: bool)
    requires WellFormed(run)
  {
    if halted then 1 <= n && Going(t, run, n - 1) && Halts(t, run, n - 1) else Going(t, run, n)
  }

  lemma SettleNext(t: Trig, run: Run, k: nat, halt: bool)
    requires WellFormed(run) && Going(t, run, k) && halt == Halts(t, run, k)
    ensures Settled(t, run, k + 1, halt)
  {
  }

  lemma Finished(t: Trig, paint: Painter, run: Run, frames: seq<Image>, halted: bool)
    requires WellFormed(run) && frames == Film(t, paint, run, |frames|) && |frames| <= MaxFrames
    requires Settled(t, run, |frames|, halted) && (|frames| == MaxFrames || halted)
    ensures Recorded(t, paint, run, frames)
  {
  }

  /** One iteration of the frame loop on the real state: the kinematics step on the
      angle array, the anchor capture, the segment on the trace canvas once drawing
      has started, the frame written, the hue update, then the closure test and the
      quit key. */
  method Iterate(t: Trig, paint: Painter, run: Run, angles: array<real>, trace: Canvas,
                 previous: Option<Point>, first: Option<Point>, started: bool, hue: real,
                 frames: seq<Image>, k: nat)
    returns (current: Point, first': Option<Point>, started': bool, hue': real, frames': seq<Image>, halt: bool)
    requires WellFormed(run) && angles.Length == N
    requires trace.Valid() && trace.size == Size && trace.paint == paint
    requires Pen(angles[..], previous, first, started, hue, trace.strokes) == PenAt(t, run, k)
    requires frames == Film(t, paint, run, k) && Going(t, run, k)
    modifies angles, trace, trace.pixels
    ensures trace.Valid()
    ensures Pen(angles[..], Some(current), first', started', hue', trace.strokes) == PenAt(t, run, k + 1)
    ensures frames' == Film(t, paint, run, k + 1)
    ensures Settled(t, run, k + 1, halt)
  {
    var joints := StepArms(t, Origin, angles, run.radii, run.speeds);
    current := joints[N];
    first' := first;
    if started && first.None? {
      first' := previous;
    }
    if started {
      trace.Draw(Line(previous.value, current, TraceColor(hue), LineWidth, true));
    }
    started' := true;
    frames' := frames + [trace.pixels[..]];
    hue' := NextHue(hue);
    halt := (first'.Some? && Close(current, first'.value)) || k in run.presses;
    SettleNext(t, run, k, halt);
  }

  /** One run: a fresh zero angle array and a white trace canvas, then the frame loop. */
  method Record(t: Trig, paint: Painter, run: Run) returns (frames: seq<Image>, frameCount: nat)
    requires WellFormed(run)
    ensures Recorded(t, paint, run, frames)
    ensures frameCount == |frames| <= MaxFrames
  {
    var angles := new real[N](_ => 0.0);
    var trace := new Canvas(Height, Width, paint);
    assert angles[..] == Zeros(N);
    frames, frameCount := Roll(t, paint, run, angles, trace);
  }

  /** The frame loop itself, from zero angles and a white canvas. */
  method Roll(t: Trig, paint: Painter, run: Run, angles: array<real>, trace: Canvas) returns (frames: seq<Image>, frameCount: nat)
    requires WellFormed(run) && angles.Length == N && angles[..] == Zeros(N)
    requires trace.Valid() && trace.size == Size && trace.paint == paint && trace.strokes == []
    modifies angles, trace, trace.pixels
    ensures Recorded(t, paint, run, frames)
    ensures frameCount == |frames| <= MaxFrames
  {
    var previous: Option<Point> := None;
    var first: Option<Point> := None;
    var started := false;
    var hue := run.hue;
    frameCount := 0;
    var halted := false;
    frames := [];
    while frameCount < MaxFrames && !halted
      invariant 0 <= frameCount <= MaxFrames && |frames| == frameCount
      invariant trace.Valid()
      invariant Pen(angles[..], previous, first, started, hue, trace.strokes) == PenAt(t, run, frameCount)
      invariant frames == Film(t, paint, run, frameCount)
      invariant Settled(t, run, frameCount, halted)
    {
      var current;
      current, first, started, hue, frames, halted := Iterate(t, paint, run, angles, trace, previous, first, started, hue, frames, frameCount);
      previous := Some(current);
      frameCount := frameCount + 1;
    }
    Finished(t, paint, run, frames, halted);
  }

  /** The 25 runs, each with its own draws. */
  method Batch(t: Trig, paint: Painter, runs: seq<Run>) returns (videos: seq<seq<Image>>)
    requires |runs| == Runs && forall i :: 0 <= i < |runs| ==> WellFormed(runs[i])
    ensures |videos| == Runs
    ensures forall i :: 0 <= i < Runs ==> Recorded(t, paint, runs[i], videos[i])
  {
    videos := [];
    for i := 0 to Runs
      invariant |videos| == i
      invariant forall j :: 0 <= j < i ==> Recorded(t, paint, runs[j], videos[j])
    {
      var frames, _ := Record(t, paint, runs[i]);
      videos := videos + [frames];
    }
  }

  // ---------------------------------------------------------------------------
  // What the loop state means

  /** The terminal point computed in iteration `k`, from the angles after `k` steps. */
  function TipAt(t: Trig, run: Run, k: nat): Point
    requires WellFormed(run)
  {
    Tip(t, Origin, AnglesAfter(Zeros(N), run.speeds, k), run.radii)
  }

  /** The polyline through the terminal points of iterations `0..k`; the segment
      ending at the point of iteration `i` has the colour of the hue after `i` steps. */
  function TraceAt(t: Trig, run: Run, k: nat): (strokes: seq<Stroke>)
    requires WellFormed(run)
    ensures |strokes| == k
  {
    if k == 0 then []
    else TraceAt(t, run, k - 1) + [Line(TipAt(t, run, k - 1), TipAt(t, run, k), TraceColor(HueAfter(run.hue, k)), LineWidth, true)]
  }

  /** After `k` iterations every angle has been advanced `k` times, drawing has
      started exactly when `k > 0`, the previous point is the last terminal point,
      the anchor is the terminal point of iteration 0 from the second iteration on,
      the hue has moved `k` times, and the canvas holds the coloured polyline
      through all terminal points so far. */
  lemma {:induction false} PenAtIsTrace(t: Trig, run: Run, k: nat)
    requires WellFormed(run)
    ensures var p := PenAt(t, run, k);
      && p.angles == AnglesAfter(Zeros(N), run.speeds, k)
      && p.started == (k > 0)
      && p.previous == (if k == 0 then None else Some(TipAt(t, run, k - 1)))
      && p.first == (if k < 2 then None else Some(TipAt(t, run, 0)))
      && p.hue == HueAfter(run.hue, k)
      && p.trace == (if k == 0 then [] else TraceAt(t, run, k - 1))
  {
    if k > 0 {
      PenAtIsTrace(t, run, k - 1);
    }
  }

  /** No anchor during the first two iterations; from the second on it is the
      first frame's terminal point and never changes again. */
  lemma AnchorCapturedOnce(t: Trig, run: Run, k: nat)
    requires WellFormed(run)
    ensures k < 2 ==> PenAt(t, run, k).first == None
    ensures 2 <= k ==> PenAt(t, run, k).first == Some(TipAt(t, run, 0))
    ensures 2 <= k ==> PenAt(t, run, k + 1).first == PenAt(t, run, k).first
  {
    PenAtIsTrace(t, run, k);
    PenAtIsTrace(t, run, k + 1);
  }

  /** The hue stays in [0, 360) on every frame. */
  lemma HueInRange(t: Trig, run: Run, k: nat)
    requires WellFormed(run)
    ensures 0.0 <= PenAt(t, run, k).hue < 360.0
  {
    PenAtIsTrace(t, run, k);
  }

  /** Frame `k` shows the polyline through the terminal points of iterations `0..k`. */
  lemma FilmShowsTrace(t: Trig, paint: Painter, run: Run, n: nat, k: nat)
    requires WellFormed(run) && k < n
    ensures Film(t, paint, run, n)[k] == Painted(paint, Size, TraceAt(t, run, k))
  {
    FilmFrame(t, paint, run, n, k);
    PenAtIsTrace(t, run, k + 1);
  }

  /** Frame `k` of any longer film is the canvas after iteration `k`. */
  lemma {:induction false} FilmFrame(t: Trig, paint: Painter, run: Run, n: nat, k: nat)
    requires WellFormed(run) && k < n
    ensures Film(t, paint, run, n)[k] == Painted(paint, Size, PenAt(t, run, k + 1).trace)
  {
    if k < n - 1 {
      FilmFrame(t, paint, run, n - 1, k);
    }
  }

  /** Every run starts from an all-white canvas: the first frame shows no ink. */
  lemma RunStartsWhite(t: Trig, paint: Painter, run: Run, frames: seq<Image>)
    requires WellFormed(run) && Recorded(t, paint, run, frames)
    ensures frames[0] == White(Size)
  {
    FilmShowsTrace(t, paint, run, |frames|, 0);
  }

  /** `Going` means what it says: no iteration below `n` breaks the loop. */
  lemma {:induction false} GoingMeansNoHalt(t: Trig, run: Run, n: nat)
    requires WellFormed(run)
    ensures Going(t, run, n) <==> forall k :: 0 <= k < n ==> !Halts(t, run, k)
  {
    if n > 0 {
      GoingMeansNoHalt(t, run, n - 1);
    }
  }

  /** The closure test reads the anchor and the terminal point of the iteration just
      done: after iteration `k >= 1` it asks whether that point is within distance
      2 of the first terminal point. After iteration 0 there is no anchor yet. */
  lemma ClosedMeans(t: Trig, run: Run, k: nat)
    requires WellFormed(run)
    ensures Closed(PenAt(t, run, k + 1)) <==> 1 <= k && Close(TipAt(t, run, k), TipAt(t, run, 0))
  {
    PenAtIsTrace(t, run, k + 1);
  }

  /** A run stops at the first closure or quit key, and only the frame cap ends it
      otherwise. */
  lemma StopsAtFirstHalt(t: Trig, paint: Painter, run: Run, frames: seq<Image>)
    requires WellFormed(run) && Recorded(t, paint, run, frames)
    ensures forall k :: 0 <= k < |frames| - 1 ==> !Halts(t, run, k)
    ensures |frames| < MaxFrames ==> Halts(t, run, |frames| - 1)
  {
    GoingMeansNoHalt(t, run, |frames| - 1);
  }

  /** There is no minimum-frame guard: if the second terminal point is already within
      distance 2 of the first, the run ends after at most two frames, and after exactly
      two when the quit key was not read after the first. */
  lemma EarlyClosureStops(t: Trig, paint: Painter, run: Run, frames: seq<Image>)
    requires WellFormed(run) && Recorded(t, paint, run, frames)
    requires Close(TipAt(t, run, 1), TipAt(t, run, 0))
    ensures |frames| <= 2
    ensures 0 !in run.presses ==> |frames| == 2
  {
    ClosedMeans(t, run, 1);
    GoingBefore(t, run, |frames| - 1, 1);
    if 0 !in run.presses {
      ClosedMeans(t, run, 0);
    }
  }

  /** While the loop is going, no earlier iteration halted it. */
  lemma {:induction false} GoingBefore(t: Trig, run: Run, n: nat, k: nat)
    requires WellFormed(run) && Going(t, run, n)
    ensures k < n ==> !Halts(t, run, k)
  {
    if k + 1 < n {
      GoingBefore(t, run, n - 1, k);
    }
  }
}
