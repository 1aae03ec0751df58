/** `spiro3.py`: five runs of the explicit two-arm chain tracing black segments of
    width 2. The previous point starts at the truncated start position, so a segment
    is drawn on every frame, the first included. A run stops when the pen is back
    within 2 pixels across and 5 pixels down of the untruncated start position, but
    only after frame 1000, at the frame cap, or on the quit key. Every frame written
    is the trace canvas itself. */
module Spiro3 {
  import opened PyNum
  import opened Arms
  import opened Color
  import opened Raster

  const Runs := 5
  const Width := 1920
  const Height := 1080
  const Fps := 30
  const Minutes := 60
  const MaxFrames := Minutes * 60 * Fps
  /** Bytes in one frame. */
  const Size := Height * Width * 3
  const Origin := Point(Width / 2, Height / 2)
  const LineWidth := 2
  /** The closure test: `abs(x2 - initial_x) < 2 and abs(y2 - initial_y) < 5 and frame_count > 1000`. */
  const ToleranceX := 2.0
  const ToleranceY := 5.0
  const Gate := 1000

  /** What one run takes from outside: the radii and speeds of the two arms drawn at
      its start, and the iterations (counted from 0) after which `cv2.waitKey`
      reports the quit key. */
  datatype Run = Run(r1: real, r2: real, s1: real, s2: real, presses: set<nat>)

  /** `(initial_x, initial_y)`: the start position over the reals, never truncated. */
  datatype Home = Home(x: real, y: real)

  /** The start position of a run: both arms at angle 0, `width // 2 + cos(0) * r1 +
      cos(0) * r2` and likewise for y. */
  function HomeOf(t: Trig, run: Run): Home
  {
    Home((Width / 2) as real + t.cos(0.0) * run.r1 + t.cos(0.0) * run.r2,
         (Height / 2) as real + t.sin(0.0) * run.r1 + t.sin(0.0) * run.r2)
  }

  /** `(int(initial_x), int(initial_y))`: where the first segment starts. */
  function StartPoint(home: Home): Point
  {
    Point(Trunc(home.x), Trunc(home.y))
  }

  /** The loop variables carried from one iteration to the next: both angles, the
      previous point and the strokes on the trace canvas. */
  datatype Pen = Pen(a1: real, a2: real, previous: Point, trace: seq<Stroke>)

  /** The state before the first iteration: zero angles, the truncated start point,
      a white canvas. */
  function Start(t: Trig, run: Run, home: Home): (p: Pen)
    ensures p.trace == []
  {
    Pen(0.0, 0.0, StartPoint(home), [])
  }

  /** One iteration of the frame loop: the terminal point from the current angles, a
      segment from the previous point to it, both angles advanced by their speeds,
      and the terminal point kept as the previous one. */
  function Step(t: Trig, run: Run, p: Pen): (q: Pen)
    ensures |q.trace| == |p.trace| + 1
  {
    var current := TwoArmTip(t, Origin, p.a1, run.r1, p.a2, run.r2);
    Pen(p.a1 + run.s1, p.a2 + run.s2, current, p.trace + [Line(p.previous, current, Black, LineWidth, false)])
  }

  /** The state after `k` iterations. */
  function PenAt(t: Trig, run: Run, home: Home, k: nat): (p: Pen)
    ensures |p.trace| == k
  {
    if k == 0 then Start(t, run, home) else Step(t, run, PenAt(t, run, home, k - 1))
  }

  /** The closure test after iteration `k`, on the point that iteration computed. */
  predicate Closes(t: Trig, run: Run, home: Home, k: nat)
  {
    NearStart(PenAt(t, run, home, k + 1).previous, home.x, home.y, ToleranceX, ToleranceY) && k > Gate
  }

  /** The loop breaks after iteration `k`: closure, or the quit key. */
  predicate Halts(t: Trig, run: Run, home: Home, k: nat)
  {
    Closes(t, run, home, k) || k in run.presses
  }

  /** None of the first `n` iterations broke the loop. */
  predicate Going(t: Trig, run: Run, home: Home, n: nat)
  {
    n == 0 || (Going(t, run, home, n - 1) && !Halts(t, run, home, n - 1))
  }

  /** After `n` iterations: either the loop broke after the last of them, which
      was the first to halt it, or none of them halted it. */
  predicate Settled(t: Trig, run: Run, home: Home, n: nat, halted: bool)
  {
    if halted then 1 <= n && Going(t, run, home, n - 1) && Halts(t, run, home, n - 1) else Going(t, run, home, n)
  }

  /** `frame_count` after `n` iterations: a closure break skips the increment. */
  function Counter(t: Trig, run: Run, home: Home, n: nat, halted: bool): nat
  {
    if halted && 1 <= n && Closes(t, run, home, n - 1) then n - 1 else n
  }

  lemma SettleNext(t: Trig, run: Run, home: Home, k: nat, halt: bool)
    requires Going(t, run, home, k) && halt == Halts(t, run, home, k)
    ensures Settled(t, run, home, k + 1, halt)
  {
  }

  /** The first `n` frames of a run: frame `k` is the trace canvas after iteration `k`. */
  ghost function Film(t: Trig, paint: Painter, run: Run, home: Home, n: nat): (frames: seq<Image>)
    ensures |frames| == n
  {
    if n == 0 then [] else Film(t, paint, run, home, n - 1) + [Painted(paint, Size, PenAt(t, run, home, n).trace)]
  }

  /** The frames one run writes: one per iteration, until the frame cap or the first
      iteration after which the loop breaks. */
  ghost predicate Recorded(t: Trig, paint: Painter, run: Run, home: Home, frames: seq<Image>)
  {
    && 1 <= |frames| <= MaxFrames
    && frames == Film(t, paint, run, home, |frames|)
    && Going(t, run, home, |frames| - 1)
    && (|frames| == MaxFrames || Halts(t, run, home, |frames| - 1))
  }

  lemma Finished(t: Trig, paint: Painter, run: Run, home: Home, frames: seq<Image>, halted: bool, frameCount: nat)
    requires frames == Film(t, paint, run, home, |frames|) && |frames| <= MaxFrames
    requires Settled(t, run, home, |frames|, halted) && frameCount == Counter(t, run, home, |frames|, halted)
    requires frameCount >= MaxFrames || halted
    ensures Recorded(t, paint, run, home, frames)
    ensures frameCount == if Closes(t, run, home, |frames| - 1) then |frames| - 1 else |frames|
  {
  }

  /** The first part of one iteration of the frame loop, on the real state: the
      terminal point, the segment on the trace canvas, the frame written, both angles
      advanced and the previous point moved on. */
  method Iterate(t: Trig, paint: Painter, run: Run, home: Home, a1: real, a2: real, previous: Point,
                 trace: Canvas, frames: seq<Image>)
    returns (a1': real, a2': real, previous': Point, frames': seq<Image>)
    requires trace.Valid() && trace.size == Size && trace.paint == paint
    requires Pen(a1, a2, previous, trace.strokes) == PenAt(t, run, home, |frames|)
    requires frames == Film(t, paint, run, home, |frames|)
    modifies trace, trace.pixels
    ensures trace.Valid() && |frames'| == |frames| + 1
    ensures Pen(a1', a2', previous', trace.strokes) == PenAt(t, run, home, |frames'|)
    ensures frames' == Film(t, paint, run, home, |frames'|)
  {
    var current := TwoArmTip(t, Origin, a1, run.r1, a2, run.r2);
    trace.Draw(Line(previous, current, Black, LineWidth, false));
    frames' := frames + [trace.pixels[..]];
    a1', a2' := a1 + run.s1, a2 + run.s2;
    previous' := current;
  }

  /** The rest of the iteration: the closure test on the point just computed, the
      increment that a closure break skips, and the quit key. */
  method Decide(t: Trig, run: Run, home: Home, current: Point, frameCount: nat)
    returns (frameCount': nat, halt: bool)
    requires current == PenAt(t, run, home, frameCount + 1).previous && Going(t, run, home, frameCount)
    ensures Settled(t, run, home, frameCount + 1, halt) && frameCount' == Counter(t, run, home, frameCount + 1, halt)
  {
    if NearStart(current, home.x, home.y, ToleranceX, ToleranceY) && frameCount > Gate {
      frameCount', halt := frameCount, true;
    } else {
      frameCount' := frameCount + 1;
      halt := frameCount in run.presses;
    }
    SettleNext(t, run, home, frameCount, halt);
  }

  /** One run: the start position, a white trace canvas, then the frame loop. Also
      returns `frame_count` as the loop leaves it. */
  method Record(t: Trig, paint: Painter, run: Run) returns (frames: seq<Image>, frameCount: nat)
    ensures Recorded(t, paint, run, HomeOf(t, run), frames)
    ensures frameCount == if Closes(t, run, HomeOf(t, run), |frames| - 1) then |frames| - 1 else |frames|
  {
    var home := HomeOf(t, run);
    var trace := new Canvas(Height, Width, paint);
    frames, frameCount := Roll(t, paint, run, home, trace);
  }

  /** The frame loop itself, from zero angles, the truncated start point and a white canvas. */
  method Roll(t: Trig, paint: Painter, run: Run, home: Home, trace: Canvas) returns (frames: seq<Image>, frameCount: nat)
    requires trace.Valid() && trace.size == Size && trace.paint == paint && trace.strokes == []
    modifies trace, trace.pixels
    ensures Recorded(t, paint, run, home, frames)
    ensures frameCount == if Closes(t, run, home, |frames| - 1) then |frames| - 1 else |frames|
  {
    var a1, a2 := 0.0, 0.0;
    var previous := Point(Trunc(home.x), Trunc(home.y));
    frameCount := 0;
    var halted := false;
    frames := [];
    while frameCount < MaxFrames && !halted
      invariant |frames| <= MaxFrames && (halted || frameCount == |frames|)
      invariant trace.Valid()
      invariant Pen(a1, a2, previous, trace.strokes) == PenAt(t, run, home, |frames|)
      invariant frames == Film(t, paint, run, home, |frames|)
      invariant Settled(t, run, home, |frames|, halted) && frameCount == Counter(t, run, home, |frames|, halted)
      decreases MaxFrames - |frames|
    {
      a1, a2, previous, frames := Iterate(t, paint, run, home, a1, a2, previous, trace, frames);
      frameCount, halted := Decide(t, run, home, previous, frameCount);
    }
    Finished(t, paint, run, home, frames, halted, frameCount);
  }

  /** The five runs, each with its own draws. */
  method Batch(t: Trig, paint: Painter, runs: seq<Run>) returns (videos: seq<seq<Image>>)
    requires |runs| == Runs
    ensures |videos| == Runs
    ensures forall i :: 0 <= i < Runs ==> Recorded(t, paint, runs[i], HomeOf(t, runs[i]), videos[i])
  {
    videos := [];
    for i := 0 to Runs
      invariant |videos| == i
      invariant forall j :: 0 <= j < i ==> Recorded(t, paint, runs[j], HomeOf(t, runs[j]), videos[j])
    {
      var frames, _ := Record(t, paint, runs[i]);
      videos := videos + [frames];
    }
  }

  // ---------------------------------------------------------------------------
  // What the loop state means

  /** The terminal point computed in iteration `k`: the two-arm chain at the angles
      after `k` steps. */
  function TipAt(t: Trig, run: Run, k: nat): Point
  {
    Tip(t, Origin, [Turned(0.0, run.s1, k), Turned(0.0, run.s2, k)], [run.r1, run.r2])
  }

  /** Where the segment of iteration `i` starts: the truncated start point, then the
      terminal point of the iteration before. */
  function PointBefore(t: Trig, run: Run, home: Home, i: nat): Point
  {
    if i == 0 then StartPoint(home) else TipAt(t, run, i - 1)
  }

  /** The segments of the first `k` iterations. */
  function TraceAt(t: Trig, run: Run, home: Home, k: nat): (strokes: seq<Stroke>)
    ensures |strokes| == k
  {
    if k == 0 then []
    else TraceAt(t, run, home, k - 1) + [Line(PointBefore(t, run, home, k - 1), TipAt(t, run, k - 1), Black, LineWidth, false)]
  }

  /** After `k` iterations each angle has been advanced `k` times by its own speed,
      the previous point is the last terminal point (the truncated start point before
      the first iteration), and the canvas holds one segment per iteration. */
  lemma {:induction false} PenAtIsTrace(t: Trig, run: Run, home: Home, k: nat)
    ensures var p := PenAt(t, run, home, k);
      && p.a1 == Turned(0.0, run.s1, k) && p.a2 == Turned(0.0, run.s2, k)
      && p.previous == PointBefore(t, run, home, k)
      && p.trace == TraceAt(t, run, home, k)
  {
    if k > 0 {
      PenAtIsTrace(t, run, home, k - 1);
      TwoArmTipIsChain(t, Origin, Turned(0.0, run.s1, k - 1), run.r1, Turned(0.0, run.s2, k - 1), run.r2);
    }
  }

  /** Frame `k` shows the segments of iterations `0..k`, the one just drawn included. */
  lemma FilmShowsTrace(t: Trig, paint: Painter, run: Run, home: Home, n: nat, k: nat)
    requires k < n
    ensures Film(t, paint, run, home, n)[k] == Painted(paint, Size, TraceAt(t, run, home, k + 1))
  {
    FilmFrame(t, paint, run, home, n, k);
    PenAtIsTrace(t, run, home, k + 1);
  }

  /** Frame `k` of any longer film is the canvas after iteration `k`. */
  lemma {:induction false} FilmFrame(t: Trig, paint: Painter, run: Run, home: Home, n: nat, k: nat)
    requires k < n
    ensures Film(t, paint, run, home, n)[k] == Painted(paint, Size, PenAt(t, run, home, k + 1).trace)
  {
    if k < n - 1 {
      FilmFrame(t, paint, run, home, n - 1, k);
    }
  }

  /** Each iteration's segment ends at its terminal point: the first starts at the
      truncated start point, every later one at the terminal point before it. */
  lemma {:induction false} TraceJoinsConsecutivePoints(t: Trig, run: Run, home: Home, k: nat)
    ensures k > 0 ==> TraceAt(t, run, home, k)[0] == Line(StartPoint(home), TipAt(t, run, 0), Black, LineWidth, false)
    ensures forall i :: 1 <= i < k ==> TraceAt(t, run, home, k)[i] == Line(TipAt(t, run, i - 1), TipAt(t, run, i), Black, LineWidth, false)
  {
    if k > 0 {
      TraceJoinsConsecutivePoints(t, run, home, k - 1);
    }
  }

  /** The first frame already holds a segment: the one from the truncated start point
      to the first terminal point, painted over a white canvas. */
  lemma FirstFrameHasOneSegment(t: Trig, paint: Painter, run: Run, home: Home, frames: seq<Image>)
    requires Recorded(t, paint, run, home, frames)
    ensures frames[0] == paint(White(Size), Line(StartPoint(home), TipAt(t, run, 0), Black, LineWidth, false))
  {
    FilmShowsTrace(t, paint, run, home, |frames|, 0);
    assert TraceAt(t, run, home, 1) == [] + [Line(StartPoint(home), TipAt(t, run, 0), Black, LineWidth, false)];
  }

  /** The closure test after iteration `k` is on that iteration's terminal point, and
      needs `k > 1000`. */
  lemma ClosesMeans(t: Trig, run: Run, home: Home, k: nat)
    ensures Closes(t, run, home, k) <==> k > Gate && NearStart(TipAt(t, run, k), home.x, home.y, ToleranceX, ToleranceY)
  {
    PenAtIsTrace(t, run, home, k + 1);
  }

  /** `Going` means what it says: no iteration below `n` breaks the loop. */
  lemma {:induction false} GoingMeansNoHalt(t: Trig, run: Run, home: Home, n: nat)
    ensures Going(t, run, home, n) <==> forall k :: 0 <= k < n ==> !Halts(t, run, home, k)
  {
    if n > 0 {
      GoingMeansNoHalt(t, run, home, n - 1);
    }
  }

  /** A run stops at the first closure or quit key, and only the frame cap ends it
      otherwise. */
  lemma StopsAtFirstHalt(t: Trig, paint: Painter, run: Run, home: Home, frames: seq<Image>)
    requires Recorded(t, paint, run, home, frames)
    ensures forall k :: 0 <= k < |frames| - 1 ==> !Halts(t, run, home, k)
    ensures |frames| < MaxFrames ==> Halts(t, run, home, |frames| - 1)
  {
    GoingMeansNoHalt(t, run, home, |frames| - 1);
  }

  /** Without a quit key before frame 1001 a run writes at least 1002 frames: the
      closure test cannot fire earlier. */
  lemma GateHoldsOffClosure(t: Trig, paint: Painter, run: Run, home: Home, frames: seq<Image>)
    requires Recorded(t, paint, run, home, frames)
    requires forall k :: k in run.presses ==> k > Gate
    ensures |frames| >= Gate + 2
  {
    if |frames| < MaxFrames {
      assert Halts(t, run, home, |frames| - 1);
    }
  }

  /** With `cos 0 = 1`, `sin 0 = 0` and non-negative radii, the first terminal point
      already lies within the closure tolerances of the start position: only the
      frame-1000 gate keeps the first iteration from breaking the loop. */
  lemma FirstTipIsNearStart(t: Trig, run: Run)
    requires t.cos(0.0) == 1.0 && t.sin(0.0) == 0.0
    requires 0.0 <= run.r1 && 0.0 <= run.r2
    ensures NearStart(TipAt(t, run, 0), HomeOf(t, run).x, HomeOf(t, run).y, ToleranceX, ToleranceY)
    ensures !Closes(t, run, HomeOf(t, run), 0)
  {
    var home := HomeOf(t, run);
    assert home == Home((Width / 2) as real + run.r1 + run.r2, (Height / 2) as real);
    TwoArmTipIsChain(t, Origin, 0.0, run.r1, 0.0, run.r2);
    ZeroAngleTwoArmTip(t, Origin, run.r1, run.r2);
    var tip := TipAt(t, run, 0);
    assert tip == Point(Origin.x + run.r1.Floor + run.r2.Floor, Origin.y);
    assert tip.x as real - home.x == (run.r1.Floor as real - run.r1) + (run.r2.Floor as real - run.r2);
  }
}
