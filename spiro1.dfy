/** `spiro1.py`: one run of the explicit two-arm chain at 1280x720. Each iteration
    paints the arms on a fresh white frame, leaves a black dot of radius 2 at the
    terminal point on the trace canvas, and writes either the arms frame or, on every
    tenth iteration, the arms frame and the trace canvas mixed 60/40. A run stops
    when the terminal point is back within 2 pixels of the untruncated start position,
    but only after frame 1000, at 30000 frames, or on the quit key. */
module Spiro1 {
  import opened PyNum
  import opened Arms
  import opened Color
  import opened Raster

  const Width := 1280
  const Height := 720
  const Fps := 30
  const MaxFrames := 30000
  /** Bytes in one frame. */
  const Size := Height * Width * 3
  const Origin := Point(Width / 2, Height / 2)
  /** `cv2.line(..., 3)` for an arm and `cv2.circle(..., 5, ...)` for a joint. */
  const ArmWidth := 3
  const JointRadius := 5
  /** `cv2.circle(trace_canvas, ..., 2, ...)`: the dot left at each terminal point. */
  const DotRadius := 2
  /** Every `Every`-th iteration writes the mixed frame. */
  const Every := 10
  /** The closure test: `abs(x2 - initial_x) < 2 and abs(y2 - initial_y) < 2 and frame_count > 1000`. */
  const Tolerance := 2.0
  const Gate := 1000

  /** What one run takes from outside: the radii and speeds of the two arms, and the
      iterations (counted from 0) after which `cv2.waitKey` reports the quit key. */
  datatype Run = Run(r1: real, r2: real, s1: real, s2: real, presses: set<nat>)

  /** `(initial_x, initial_y)`: the start position over the reals, never truncated. */
  datatype Home = Home(x: real, y: real)

  /** The start position: both arms at angle 0, `width // 2 + cos(0) * r1 + cos(0) *
      r2` and likewise for y. */
  function HomeOf(t: Trig, run: Run): Home
  {
    Home((Width / 2) as real + t.cos(0.0) * run.r1 + t.cos(0.0) * run.r2,
         (Height / 2) as real + t.sin(0.0) * run.r1 + t.sin(0.0) * run.r2)
  }

  // ---------------------------------------------------------------------------
  // The 60/40 mix of `cv2.addWeighted(frame, 0.6, trace_canvas, 0.4, 0)`

  /** One byte of the mix over exact reals, rounded to the nearest integer. The exact
      value is a multiple of 1/5, so it is never halfway between two integers. */
  function MixChannel(f: byte, tr: byte): (v: byte)
    ensures (f <= tr ==> f <= v <= tr) && (tr <= f ==> tr <= v <= f)
    ensures f == tr ==> v == f
    ensures f == 255 && tr == 0 ==> v == 153
  {
    MixIsQuotient(f as int, tr as int);
    Trunc(0.6 * f as real + 0.4 * tr as real + 0.5) as byte
  }

  /** The rounded mix is `(3f + 2t + 2) / 5` over the integers, which lies between
      the two bytes. */
  lemma MixIsQuotient(f: int, tr: int)
    requires 0 <= f < 256 && 0 <= tr < 256
    ensures Trunc(0.6 * f as real + 0.4 * tr as real + 0.5) == (3 * f + 2 * tr + 2) / 5
    ensures f <= tr ==> f <= (3 * f + 2 * tr + 2) / 5 <= tr
    ensures tr <= f ==> tr <= (3 * f + 2 * tr + 2) / 5 <= f
  {
    var p := 3 * f + 2 * tr + 2;
    var q := p / 5;
    assert p == 5 * q + p % 5;
    assert 0.6 * f as real + 0.4 * tr as real + 0.5 == q as real + (p % 5) as real / 5.0 + 0.1;
  }

  /** The frame written on every tenth iteration: the arms frame and the trace canvas
      mixed byte by byte. */
  function Mixed(frame: Image, trace: Image): (img: Image)
    requires |frame| == |trace|
    ensures |img| == |frame|
  {
    seq(|frame|, i requires 0 <= i < |frame| => MixChannel(frame[i], trace[i]))
  }

  /** A mixed byte lies between the two layers' bytes; white on both stays white, and
      a black trace dot on a white arms byte comes out grey 153. */
  lemma MixedBetween(frame: Image, trace: Image, i: int)
    requires |frame| == |trace| && 0 <= i < |frame|
    ensures frame[i] <= trace[i] ==> frame[i] <= Mixed(frame, trace)[i] <= trace[i]
    ensures trace[i] <= frame[i] ==> trace[i] <= Mixed(frame, trace)[i] <= frame[i]
    ensures frame[i] == 255 && trace[i] == 255 ==> Mixed(frame, trace)[i] == 255
    ensures frame[i] == 255 && trace[i] == 0 ==> Mixed(frame, trace)[i] == 153
  {
  }

  // ---------------------------------------------------------------------------
  // The loop

  /** The loop variables carried from one iteration to the next: both angles, the
      strokes on `frame`, the arms image of the last iteration (none before the
      first), and the dots on the trace canvas. */
  datatype Pen = Pen(a1: real, a2: real, arms: seq<Stroke>, trace: seq<Stroke>)

  /** What an arms frame shows: the centre joint, the first arm to the elbow, the
      elbow joint, the second arm to the terminal point and the terminal joint. */
  function ArmStrokes(elbow: Point, tip: Point): (strokes: seq<Stroke>)
    ensures |strokes| == 5 && strokes[1].Line? && strokes[3].Line? && strokes[1].to == elbow && strokes[3].from == elbow && strokes[4] == Disc(tip, JointRadius, Black)
  {
    [Disc(Origin, JointRadius, Black), Line(Origin, elbow, Black, ArmWidth, false), Disc(elbow, JointRadius, Black),
     Line(elbow, tip, Black, ArmWidth, false), Disc(tip, JointRadius, Black)]
  }

  /** The state before the first iteration: zero angles, a white trace canvas. */
  function Start(): (p: Pen)
    ensures p.trace == []
  {
    Pen(0.0, 0.0, [], [])
  }

  /** One iteration of the frame loop: the elbow and the terminal point from the
      current angles, a fresh arms frame, a dot at the terminal point, then both
      angles advanced by their speeds. */
  function Step(t: Trig, run: Run, p: Pen): (q: Pen)
    ensures |q.trace| == |p.trace| + 1
  {
    var elbow := Elbow(t, Origin, p.a1, run.r1);
    var tip := Elbow(t, elbow, p.a2, run.r2);
    Pen(p.a1 + run.s1, p.a2 + run.s2, ArmStrokes(elbow, tip), p.trace + [Disc(tip, DotRadius, Black)])
  }

  /** The state after `k` iterations. */
  function PenAt(t: Trig, run: Run, k: nat): (p: Pen)
    ensures |p.trace| == k
  {
    if k == 0 then Start() else Step(t, run, PenAt(t, run, k - 1))
  }

  /** The frame that iteration `k` writes, given the state after it: the mix of its
      arms frame with the trace canvas (its own dot included) when `k` is a multiple
      of ten, its arms frame alone otherwise. `frame_count` is `k` in that iteration:
      every earlier iteration incremented it. */
  function Shown(paint: Painter, k: nat, p: Pen): (img: Image)
    ensures |img| == Size
  {
    var arms := Painted(paint, Size, p.arms);
    if k % Every == 0 then Mixed(arms, Painted(paint, Size, p.trace)) else arms
  }

  /** The terminal point computed in iteration `k`: the two-arm chain at the angles
      after `k` steps. */
  function TipAt(t: Trig, run: Run, k: nat): Point
  {
    Tip(t, Origin, [Turned(0.0, run.s1, k), Turned(0.0, run.s2, k)], [run.r1, run.r2])
  }

  /** The closure test after iteration `k`, on the terminal point that iteration
      computed. */
  predicate Closes(t: Trig, run: Run, home: Home, k: nat)
  {
    NearStart(TipAt(t, run, k), home.x, home.y, Tolerance, Tolerance) && k > Gate
  }

  /** The loop breaks after iteration `k`: closure, or the quit key. */
  predicate Halts(t: Trig, run: Run, home: Home, k: nat)
  {
    Closes(t, run, home, k) || k in run.presses
  }

  /** None of the first `n` iterations broke the loop. */
  predicate Going(t: Trig, run: Run, home: Home, n: nat)
  {
    n == 0 || (Going(t, run, home, n - 1) && !Halts(t, run, home, n - 1))
  }

  /** After `n` iterations: either the loop broke after the last of them, which
      was the first to halt it, or none of them halted it. */
  predicate Settled(t: Trig, run: Run, home: Home, n: nat, halted: bool)
  {
    if halted then 1 <= n && Going(t, run, home, n - 1) && Halts(t, run, home, n - 1) else Going(t, run, home, n)
  }

  /** `frame_count` after `n` iterations: a closure break skips the increment. */
  function Counter(t: Trig, run: Run, home: Home, n: nat, halted: bool): nat
  {
    if halted && 1 <= n && Closes(t, run, home, n - 1) then n - 1 else n
  }

  lemma SettleNext(t: Trig, run: Run, home: Home, k: nat, halt: bool)
    requires Going(t, run, home, k) && halt == Halts(t, run, home, k)
    ensures Settled(t, run, home, k + 1, halt)
  {
  }

  /** The first `n` frames of the run. */
  ghost function Film(paint: Painter, t: Trig, run: Run, n: nat): (frames: seq<Image>)
    ensures |frames| == n
  {
    if n == 0 then [] else Film(paint, t, run, n - 1) + [Shown(paint, n - 1, PenAt(t, run, n))]
  }

  /** The frames the run writes: one per iteration, until the frame cap or the first
      iteration after which the loop breaks. */
  ghost predicate Recorded(paint: Painter, t: Trig, run: Run, home: Home, frames: seq<Image>)
  {
    && 1 <= |frames| <= MaxFrames
    && frames == Film(paint, t, run, |frames|)
    && Going(t, run, home, |frames| - 1)
    && (|frames| == MaxFrames || Halts(t, run, home, |frames| - 1))
  }

  lemma Finished(paint: Painter, t: Trig, run: Run, home: Home, frames: seq<Image>, halted: bool, frameCount: nat)
    requires frames == Film(paint, t, run, |frames|) && |frames| <= MaxFrames
    requires Settled(t, run, home, |frames|, halted) && frameCount == Counter(t, run, home, |frames|, halted)
    requires frameCount >= MaxFrames || halted
    ensures Recorded(paint, t, run, home, frames)
    ensures frameCount == if Closes(t, run, home, |frames| - 1) then |frames| - 1 else |frames|
  {
  }

  /** The loop state is the real one: the angles and the trace canvas's strokes. */
  predicate Tracks(p: Pen, a1: real, a2: real, trace: seq<Stroke>)
  {
    p.a1 == a1 && p.a2 == a2 && p.trace == trace
  }

  /** The arms frame of one iteration: `np.ones(...) * 255`, then the centre joint,
      the first arm, the elbow joint, the second arm and the terminal joint. */
  method ArmsFrame(paint: Painter, x1: Point, x2: Point) returns (img: Image)
    ensures img == Painted(paint, Size, ArmStrokes(x1, x2))
  {
    var frame := new Canvas(Height, Width, paint);
    frame.Draw(Disc(Origin, JointRadius, Black));
    frame.Draw(Line(Origin, x1, Black, ArmWidth, false));
    frame.Draw(Disc(x1, JointRadius, Black));
    frame.Draw(Line(x1, x2, Black, ArmWidth, false));
    frame.Draw(Disc(x2, JointRadius, Black));
    assert frame.strokes == ArmStrokes(x1, x2);
    img := frame.pixels[..];
  }

  /** The drawing part of one iteration of the frame loop, on the real state: the
      elbow and the terminal point, the arms frame, the dot on the trace canvas, and
      both angles advanced. Returns the arms frame and the terminal point. */
  method Iterate(paint: Painter, t: Trig, run: Run, k: nat, a1: real, a2: real, trace: Canvas)
    returns (a1': real, a2': real, current: Point, arms: Image)
    requires trace.Valid() && trace.size == Size && trace.paint == paint
    requires Tracks(PenAt(t, run, k), a1, a2, trace.strokes)
    modifies trace, trace.pixels
    ensures trace.Valid() && Tracks(PenAt(t, run, k + 1), a1', a2', trace.strokes)
    ensures arms == Painted(paint, Size, PenAt(t, run, k + 1).arms)
    ensures current == TipAt(t, run, k)
  {
    var x1 := Elbow(t, Origin, a1, run.r1);
    var x2 := Elbow(t, x1, a2, run.r2);
    arms := ArmsFrame(paint, x1, x2);
    trace.Draw(Disc(x2, DotRadius, Black));
    a1', a2' := a1 + run.s1, a2 + run.s2;
    current := x2;
    PenAtIsTrace(t, run, k);
    TwoArmTipIsChain(t, Origin, a1, run.r1, a2, run.r2);
  }

  /** The frame iteration `k` writes: the arms frame, mixed with the trace canvas when
      `frame_count % 10 == 0`. */
  method Emit(paint: Painter, t: Trig, run: Run, arms: Image, trace: Image, frames: seq<Image>) returns (frames': seq<Image>)
    requires frames == Film(paint, t, run, |frames|)
    requires arms == Painted(paint, Size, PenAt(t, run, |frames| + 1).arms)
    requires trace == Painted(paint, Size, PenAt(t, run, |frames| + 1).trace)
    ensures frames' == Film(paint, t, run, |frames| + 1)
  {
    var frame := if |frames| % Every == 0 then Mixed(arms, trace) else arms;
    frames' := frames + [frame];
  }

  /** The rest of the iteration: the closure test on the terminal point, the
      increment that a closure break skips, and the quit key. */
  method Decide(t: Trig, run: Run, home: Home, current: Point, frameCount: nat)
    returns (frameCount': nat, halt: bool)
    requires Going(t, run, home, frameCount)
    requires current == TipAt(t, run, frameCount)
    ensures Settled(t, run, home, frameCount + 1, halt) && frameCount' == Counter(t, run, home, frameCount + 1, halt)
  {
    if NearStart(current, home.x, home.y, Tolerance, Tolerance) && frameCount > Gate {
      frameCount', halt := frameCount, true;
    } else {
      frameCount' := frameCount + 1;
      halt := frameCount in run.presses;
    }
    SettleNext(t, run, home, frameCount, halt);
  }

  /** The run: the start position, a white trace canvas, then the frame loop. Also
      returns `frame_count` as the loop leaves it. */
  method Record(paint: Painter, t: Trig, run: Run) returns (frames: seq<Image>, frameCount: nat)
    ensures Recorded(paint, t, run, HomeOf(t, run), frames)
    ensures frameCount == if Closes(t, run, HomeOf(t, run), |frames| - 1) then |frames| - 1 else |frames|
  {
    var home := HomeOf(t, run);
    var trace := new Canvas(Height, Width, paint);
    frames, frameCount := Roll(paint, t, run, home, trace);
  }

  /** The frame loop itself, from zero angles and a white trace canvas. */
  method Roll(paint: Painter, t: Trig, run: Run, home: Home, trace: Canvas) returns (frames: seq<Image>, frameCount: nat)
    requires trace.Valid() && trace.size == Size && trace.paint == paint && trace.strokes == []
    modifies trace, trace.pixels
    ensures Recorded(paint, t, run, home, frames)
    ensures frameCount == if Closes(t, run, home, |frames| - 1) then |frames| - 1 else |frames|
  {
    var a1, a2 := 0.0, 0.0;
    frameCount := 0;
    var halted := false;
    frames := [];
    while frameCount < MaxFrames && !halted
      invariant |frames| <= MaxFrames
      invariant trace.Valid()
      invariant Tracks(PenAt(t, run, |frames|), a1, a2, trace.strokes)
      invariant frames == Film(paint, t, run, |frames|)
      invariant Settled(t, run, home, |frames|, halted) && frameCount == Counter(t, run, home, |frames|, halted)
      decreases MaxFrames - |frames|
    {
      var current, arms;
      a1, a2, current, arms := Iterate(paint, t, run, |frames|, a1, a2, trace);
      frames := Emit(paint, t, run, arms, trace.pixels[..], frames);
      frameCount, halted := Decide(t, run, home, current, frameCount);
    }
    Finished(paint, t, run, home, frames, halted, frameCount);
  }

  // ---------------------------------------------------------------------------
  // What the loop state means

  /** The dots of the first `k` iterations. */
  function TraceAt(t: Trig, run: Run, k: nat): (strokes: seq<Stroke>)
    ensures |strokes| == k
  {
    if k == 0 then [] else TraceAt(t, run, k - 1) + [Disc(TipAt(t, run, k - 1), DotRadius, Black)]
  }

  /** The elbow computed in iteration `k`. */
  function ElbowAt(t: Trig, run: Run, k: nat): Point
  {
    Elbow(t, Origin, Turned(0.0, run.s1, k), run.r1)
  }

  /** After `k` iterations each angle has been advanced `k` times by its own speed,
      the arms frame shows the chain of iteration `k - 1`, and the trace canvas holds
      one dot per iteration, at that iteration's terminal point. */
  lemma {:induction false} PenAtIsTrace(t: Trig, run: Run, k: nat)
    ensures var p := PenAt(t, run, k);
      && p.a1 == Turned(0.0, run.s1, k) && p.a2 == Turned(0.0, run.s2, k)
      && p.arms == (if k == 0 then [] else ArmStrokes(ElbowAt(t, run, k - 1), TipAt(t, run, k - 1)))
      && p.trace == TraceAt(t, run, k)
  {
    if k > 0 {
      PenAtIsTrace(t, run, k - 1);
      TwoArmTipIsChain(t, Origin, Turned(0.0, run.s1, k - 1), run.r1, Turned(0.0, run.s2, k - 1), run.r2);
    }
  }

  /** Frame `k` of any longer film is what iteration `k` shows. */
  lemma {:induction false} FilmFrame(paint: Painter, t: Trig, run: Run, n: nat, k: nat)
    requires k < n
    ensures Film(paint, t, run, n)[k] == Shown(paint, k, PenAt(t, run, k + 1))
  {
    if k < n - 1 {
      FilmFrame(paint, t, run, n - 1, k);
    }
  }

  /** Frame `k` shows the arms of iteration `k` on white; when `k` is a multiple of
      ten it is mixed with the dots of iterations `0..k`, otherwise the trace does not
      appear in it at all. */
  lemma FilmShowsTrace(paint: Painter, t: Trig, run: Run, n: nat, k: nat)
    requires k < n
    ensures var arms := Painted(paint, Size, ArmStrokes(ElbowAt(t, run, k), TipAt(t, run, k)));
      Film(paint, t, run, n)[k] == if k % Every == 0 then Mixed(arms, Painted(paint, Size, TraceAt(t, run, k + 1))) else arms
  {
    FilmFrame(paint, t, run, n, k);
    PenAtIsTrace(t, run, k + 1);
  }

  /** The second arm drawn in iteration `k` runs from that iteration's elbow to the
      point its dot marks on the trace canvas. */
  lemma ArmsMeetTrace(t: Trig, run: Run, k: nat)
    ensures ArmStrokes(ElbowAt(t, run, k), TipAt(t, run, k))[3] == Line(ElbowAt(t, run, k), TipAt(t, run, k), Black, ArmWidth, false)
    ensures TipAt(t, run, k) == Elbow(t, ElbowAt(t, run, k), Turned(0.0, run.s2, k), run.r2)
    ensures TraceAt(t, run, k + 1)[k] == Disc(TipAt(t, run, k), DotRadius, Black)
  {
    TwoArmTipIsChain(t, Origin, Turned(0.0, run.s1, k), run.r1, Turned(0.0, run.s2, k), run.r2);
  }

  /** `Going` means what it says: no iteration below `n` breaks the loop. */
  lemma {:induction false} GoingMeansNoHalt(t: Trig, run: Run, home: Home, n: nat)
    ensures Going(t, run, home, n) <==> forall k :: 0 <= k < n ==> !Halts(t, run, home, k)
  {
    if n > 0 {
      GoingMeansNoHalt(t, run, home, n - 1);
    }
  }

  /** The run stops at the first closure or quit key, and only the frame cap ends it
      otherwise. */
  lemma StopsAtFirstHalt(paint: Painter, t: Trig, run: Run, home: Home, frames: seq<Image>)
    requires Recorded(paint, t, run, home, frames)
    ensures forall k :: 0 <= k < |frames| - 1 ==> !Halts(t, run, home, k)
    ensures |frames| < MaxFrames ==> Halts(t, run, home, |frames| - 1)
  {
    GoingMeansNoHalt(t, run, home, |frames| - 1);
  }

  /** Without a quit key before frame 1001 the run writes at least 1002 frames: the
      closure test cannot fire earlier. */
  lemma GateHoldsOffClosure(paint: Painter, t: Trig, run: Run, home: Home, frames: seq<Image>)
    requires Recorded(paint, t, run, home, frames)
    requires forall k :: k in run.presses ==> k > Gate
    ensures |frames| >= Gate + 2
  {
    if |frames| < MaxFrames {
      assert Halts(t, run, home, |frames| - 1);
    }
  }

  /** With `cos 0 = 1`, `sin 0 = 0` and non-negative radii, the start position is
      `(640 + r1 + r2, 360)` and the first terminal point lies within 2 pixels of it:
      only the frame-1000 gate keeps the first iteration from breaking the loop. */
  lemma FirstTipIsNearStart(t: Trig, run: Run)
    requires t.cos(0.0) == 1.0 && t.sin(0.0) == 0.0
    requires 0.0 <= run.r1 && 0.0 <= run.r2
    ensures HomeOf(t, run) == Home((Width / 2) as real + run.r1 + run.r2, (Height / 2) as real)
    ensures NearStart(TipAt(t, run, 0), HomeOf(t, run).x, HomeOf(t, run).y, Tolerance, Tolerance)
    ensures !Closes(t, run, HomeOf(t, run), 0)
  {
    var home := HomeOf(t, run);
    assert home == Home((Width / 2) as real + run.r1 + run.r2, (Height / 2) as real);
    TwoArmTipIsChain(t, Origin, 0.0, run.r1, 0.0, run.r2);
    ZeroAngleTwoArmTip(t, Origin, run.r1, run.r2);
    var tip := TipAt(t, run, 0);
    assert tip == Point(Origin.x + run.r1.Floor + run.r2.Floor, Origin.y);
    assert tip.x as real - home.x == (run.r1.Floor as real - run.r1) + (run.r2.Floor as real - run.r2);
  }
}
