/** `spiro5.py`: five runs of a three-arm chain tracing black anti-aliased
    segments of width 1 on a white canvas. No segment is drawn on the first frame,
    there is no closure test, and a run ends only at the frame cap or on the quit
    key. Every frame written is the trace canvas itself. */
module Spiro5 {
  import opened PyNum
  import opened Arms
  import opened Color
  import opened Raster
  import opened QuitKey

  const N := 3
  const Runs := 5
  const Width := 1920
  const Height := 1080
  const Fps := 30
  const Minutes := 60
  const MaxFrames := Minutes * 60 * Fps
  /** Bytes in one frame. */
  const Size := Height * Width * 3
  const Origin := Point(Width / 2, Height / 2)

  /** What one run takes from outside: the radii and speeds drawn at its start, and
      the iterations (counted from 0) after which `cv2.waitKey` reports the quit key. */
  datatype Run = Run(radii: seq<real>, speeds: seq<real>, presses: set<nat>)

  predicate WellFormed(run: Run)
  {
    |run.radii| == N && |run.speeds| == N
  }

  /** The loop variables carried from one iteration to the next: the angle array,
      the previous terminal point, `drawing_started`, and the strokes on the trace
      canvas. */
  datatype Pen = Pen(angles: seq<real>, previous: Option<Point>, started: bool, trace: seq<Stroke>)

  predicate Ready(p: Pen)
  {
    |p.angles| == N && (p.started ==> p.previous.Some?)
  }

  /** The state before the first iteration: zero angles, no previous point, a white canvas. */
  function Start(): (p: Pen)
    ensures Ready(p) && !p.started && p.previous == None && p.trace == []
  {
    Pen(Zeros(N), None, false, [])
  }

  /** One iteration of the frame loop: the terminal point from the current angles,
      each angle advanced by its speed, a segment from the previous point only if
      drawing has started, and the current point kept as the previous one. */
  function Step(t: Trig, run: Run, p: Pen): (q: Pen)
    requires WellFormed(run) && Ready(p)
    ensures Ready(q) && q.started
    ensures |q.trace| == |p.trace| + (if p.started then 1 else 0)
  {
    var current := Tip(t, Origin, p.angles, run.radii);
    var trace := if p.started then p.trace + [Line(p.previous.value, current, Black, 1, true)] else p.trace;
    Pen(Advanced(p.angles, run.speeds), Some(current), true, trace)
  }

  /** The state after `k` iterations. */
  function PenAt(t: Trig, run: Run, k: nat): (p: Pen)
    requires WellFormed(run)
    ensures Ready(p)
  {
    if k == 0 then Start() else Step(t, run, PenAt(t, run, k - 1))
  }

  /** The first `n` frames of a run: frame `k` is the trace canvas after iteration `k`. */
  ghost function Film(t: Trig, paint: Painter, run: Run, n: nat): (frames: seq<Image>)
    requires WellFormed(run)
    ensures |frames| == n
  {
    if n == 0 then [] else Film(t, paint, run, n - 1) + [Painted(paint, Size, PenAt(t, run, n).trace)]
  }

  /** The frames one run writes: one per iteration, until the frame cap or the first
      iteration after which the quit key is read. */
  ghost predicate Recorded(t: Trig, paint: Painter, run: Run, frames: seq<Image>)
    requires WellFormed(run)
  {
    && 1 <= |frames| <= MaxFrames
    && frames == Film(t, paint, run, |frames|)
    && Quiet(run.presses, |frames| - 1)
    && (|frames| == MaxFrames || |frames| - 1 in run.presses)
  }

  lemma Finished(t: Trig, paint: Painter, run: Run, frames: seq<Image>, halted: bool)
    requires WellFormed(run) && frames == Film(t, paint, run, |frames|) && |frames| <= MaxFrames
    requires Settled(run.presses, |frames|, halted) && (|frames| == MaxFrames || halted)
    ensures Recorded(t, paint, run, frames)
  {
  }

  /** One iteration of the frame loop on the real state: the kinematics step on the
      angle array, the segment from the previous point on the trace canvas once drawing
      has started, the trace canvas written as the next frame, then the quit key. */
  method Iterate(t: Trig, paint: Painter, run: Run, angles: array<real>, trace: Canvas,
                 previous: Option<Point>, started: bool, frames: seq<Image>, k: nat)
    returns (previous': Option<Point>, started': bool, frames': seq<Image>, halt: bool)
    requires WellFormed(run) && angles.Length == N
    requires trace.Valid() && trace.size == Size && trace.paint == paint
    requires Pen(angles[..], previous, started, trace.strokes) == PenAt(t, run, k)
    requires frames == Film(t, paint, run, k) && Quiet(run.presses, k)
    modifies angles, trace, trace.pixels
    ensures trace.Valid()
    ensures Pen(angles[..], previous', started', trace.strokes) == PenAt(t, run, k + 1)
    ensures frames' == Film(t, paint, run, k + 1)
    ensures Settled(run.presses, k + 1, halt)
  {
    var joints := StepArms(t, Origin, angles, run.radii, run.speeds);
    var current := joints[N];
    if started {
      trace.Draw(Line(previous.value, current, Black, 1, true));
    }
    started' := true;
    frames' := frames + [trace.pixels[..]];
    previous' := Some(current);
    halt := k in run.presses;
    SettleNext(run.presses, k, halt);
  }

  /** One run: a fresh zero angle array and a white trace canvas, then the frame loop. */
  method Record(t: Trig, paint: Painter, run: Run) returns (frames: seq<Image>)
    requires WellFormed(run)
    ensures Recorded(t, paint, run, frames)
  {
    var angles := new real[N](_ => 0.0);
    var trace := new Canvas(Height, Width, paint);
    assert angles[..] == Zeros(N);
    frames := Roll(t, paint, run, angles, trace);
  }

  /** The frame loop itself, from zero angles and a white canvas. */
  method Roll(t: Trig, paint: Painter, run: Run, angles: array<real>, trace: Canvas) returns (frames: seq<Image>)
    requires WellFormed(run) && angles.Length == N && angles[..] == Zeros(N)
    requires trace.Valid() && trace.size == Size && trace.paint == paint && trace.strokes == []
    modifies angles, trace, trace.pixels
    ensures Recorded(t, paint, run, frames)
  {
    var previous: Option<Point> := None;
    var started := false;
    var frameCount := 0;
    var halted := false;
    frames := [];
    while frameCount < MaxFrames && !halted
      invariant 0 <= frameCount <= MaxFrames && |frames| == frameCount
      invariant trace.Valid()
      invariant Pen(angles[..], previous, started, trace.strokes) == PenAt(t, run, frameCount)
      invariant frames == Film(t, paint, run, frameCount)
      invariant Settled(run.presses, frameCount, halted)
    {
      previous, started, frames, halted := Iterate(t, paint, run, angles, trace, previous, started, frames, frameCount);
      frameCount := frameCount + 1;
    }
    Finished(t, paint, run, frames, halted);
  }

  /** The five runs, each with its own draws. */
  method Batch(t: Trig, paint: Painter, runs: seq<Run>) returns (videos: seq<seq<Image>>)
    requires |runs| == Runs && forall i :: 0 <= i < |runs| ==> WellFormed(runs[i])
    ensures |videos| == Runs
    ensures forall i :: 0 <= i < Runs ==> Recorded(t, paint, runs[i], videos[i])
  {
    videos := [];
    for i := 0 to Runs
      invariant |videos| == i
      invariant forall j :: 0 <= j < i ==> Recorded(t, paint, runs[j], videos[j])
    {
      var frames := Record(t, paint, runs[i]);
      videos := videos + [frames];
    }
  }

  // ---------------------------------------------------------------------------
  // What the loop state means

  /** The terminal point computed in iteration `k`, from the angles after `k` steps. */
  function TipAt(t: Trig, run: Run, k: nat): Point
    requires WellFormed(run)
  {
    Tip(t, Origin, AnglesAfter(Zeros(N), run.speeds, k), run.radii)
  }

  /** The polyline through the terminal points of iterations `0..k`. */
  function TraceAt(t: Trig, run: Run, k: nat): (strokes: seq<Stroke>)
    requires WellFormed(run)
    ensures |strokes| == k
  {
    if k == 0 then []
    else TraceAt(t, run, k - 1) + [Line(TipAt(t, run, k - 1), TipAt(t, run, k), Black, 1, true)]
  }

  /** After `k` iterations every angle has been advanced `k` times, drawing has
      started exactly when `k > 0`, the previous point is the last terminal point,
      and the canvas holds the polyline through all terminal points so far. */
  lemma {:induction false} PenAtIsTrace(t: Trig, run: Run, k: nat)
    requires WellFormed(run)
    ensures var p := PenAt(t, run, k);
      && p.angles == AnglesAfter(Zeros(N), run.speeds, k)
      && p.started == (k > 0)
      && p.previous == (if k == 0 then None else Some(TipAt(t, run, k - 1)))
      && p.trace == (if k == 0 then [] else TraceAt(t, run, k - 1))
  {
    if k > 0 {
      PenAtIsTrace(t, run, k - 1);
    }
  }

  /** Frame `k` shows the polyline through the terminal points of iterations `0..k`. */
  lemma FilmShowsTrace(t: Trig, paint: Painter, run: Run, n: nat, k: nat)
    requires WellFormed(run) && k < n
    ensures Film(t, paint, run, n)[k] == Painted(paint, Size, TraceAt(t, run, k))
  {
    FilmFrame(t, paint, run, n, k);
    PenAtIsTrace(t, run, k + 1);
  }

  /** Frame `k` of any longer film is the canvas after iteration `k`. */
  lemma {:induction false} FilmFrame(t: Trig, paint: Painter, run: Run, n: nat, k: nat)
    requires WellFormed(run) && k < n
    ensures Film(t, paint, run, n)[k] == Painted(paint, Size, PenAt(t, run, k + 1).trace)
  {
    if k < n - 1 {
      FilmFrame(t, paint, run, n - 1, k);
    }
  }

  /** The trace is the polyline through consecutive terminal points: segment `i`
      joins the points of iterations `i` and `i + 1`. */
  lemma {:induction false} TraceJoinsConsecutiveTips(t: Trig, run: Run, k: nat)
    requires WellFormed(run)
    ensures forall i :: 0 <= i < k ==> TraceAt(t, run, k)[i] == Line(TipAt(t, run, i), TipAt(t, run, i + 1), Black, 1, true)
  {
    if k > 0 {
      TraceJoinsConsecutiveTips(t, run, k - 1);
    }
  }

  /** Every run starts from an all-white canvas: the first frame shows no ink. */
  lemma RunStartsWhite(t: Trig, paint: Painter, run: Run, frames: seq<Image>)
    requires WellFormed(run) && Recorded(t, paint, run, frames)
    ensures frames[0] == White(Size)
  {
    FilmShowsTrace(t, paint, run, |frames|, 0);
  }

  /** A run stops at the first iteration after which the quit key is read, and only
      the frame cap ends it otherwise: there is no geometric test. */
  lemma StopsAtFirstPress(t: Trig, paint: Painter, run: Run, frames: seq<Image>)
    requires WellFormed(run) && Recorded(t, paint, run, frames)
    ensures forall k :: 0 <= k < |frames| - 1 ==> k !in run.presses
    ensures |frames| < MaxFrames ==> |frames| - 1 in run.presses
    ensures run.presses == {} ==> |frames| == MaxFrames
  {
    QuietMeansNoPress(run.presses, |frames| - 1);
  }
}
