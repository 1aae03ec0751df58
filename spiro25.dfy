/** `spiro25.py`: one minute of a two-arm chain drawn on two layers. Every frame the
    arms layer is cleared and the arms are drawn on it; from the second frame after a
    (re)start a segment of random width, black or in the cycling hue, joins the
    previous terminal point to the current one on the trace layer; the frame
    written is the two layers multiplied. The terminal point of the first frame
    becomes the anchor on the second, and when the pen comes back within distance 2
    of the anchor the drawing conditions are reset and everything starts over, while
    the frame count and the hue carry on. */
module Spiro25 {
  import opened PyNum
  import opened Arms
  import opened Color
  import opened Raster
  import opened QuitKey

  /** `random.randint(2, 2)`: the number of arms is always 2. */
  const N := 2
  const Width := 1920
  const Height := 1080
  const Fps := 60
  const Minutes := 1
  const MaxFrames := Minutes * 60 * Fps
  /** Bytes in one frame. */
  const Size := Height * Width * 3
  /** `(initial_x, initial_y)`: the anchor of the chain, the centre of the frame. */
  const Origin := Point(Width / 2, Height / 2)
  const Saturation := 100.0
  const Lightness := 50.0
  /** `cv2.line(arms_canvas, ..., 5, cv2.LINE_AA)` and `cv2.circle(arms_canvas, ..., 10, ...)`. */
  const ArmWidth := 5
  const JointRadius := 10
  /** `random.randint(5, 125)` for the trace line width. */
  const MinLineWidth := 5
  const MaxLineWidth := 125

  /** What one call of `reset_drawing_conditions` draws: the radii and speeds of the
      arms and the trace line width. */
  datatype Setup = Setup(radii: seq<real>, speeds: seq<real>, lineWidth: int)

  /** A draw has one radius and one speed per arm and a width in [5, 125]. */
  type Draw = s: Setup | |s.radii| == N && |s.speeds| == N && MinLineWidth <= s.lineWidth <= MaxLineWidth
    witness Setup([0.0, 0.0], [0.0, 0.0], MinLineWidth)

  /** What the program takes from outside: `draws(i)` is what the `i`-th call of
      `reset_drawing_conditions` draws (call 0 is the one before the loop), then the
      starting hue, `random_color`, and the iterations (counted from 0) after which
      `cv2.waitKey` reports the quit key. */
  datatype Run = Run(draws: nat -> Draw, hue: real, black: bool, presses: set<nat>)

  /** The loop variables carried from one iteration to the next: the angle array, the
      previous point, the anchor `first_x, first_y`, `drawing_started`, the hue, how
      many resets happened (which draw is in use), and the strokes on the arms and
      trace layers, with `trace_color`, which is always `hsl_to_rgb(hue, 100, 50)`. Radii,
      speeds and line width are those of the draw in use, so none is kept apart. */
  datatype Pen = Pen(angles: seq<real>, previous: Option<Point>, first: Option<Point>, started: bool,
                     hue: real, color: Rgb, epoch: nat, arms: seq<Stroke>, trace: seq<Stroke>)

  predicate Ready(p: Pen)
  {
    |p.angles| == N && (p.started ==> p.previous.Some?)
  }

  /** The state before the first iteration: the first draw, zero angles, nothing
      drawn, no previous point and no anchor. */
  function Start(run: Run): (p: Pen)
    ensures Ready(p) && !p.started && p.first == None && p.arms == [] && p.trace == []
  {
    Pen(Zeros(N), None, None, false, run.hue, TraceColor(run.hue), 0, [], [])
  }

  /** The colour of the trace while the hue is `hue`. */
  function TraceColor(hue: real): Rgb
  {
    HslToRgb(hue, Saturation, Lightness)
  }

  /** What the per-arm loop draws on the arms layer for the joints `js`: for each arm,
      the arm itself, then a disc at its start and one at its end. */
  function ArmStrokes(js: seq<Point>): (strokes: seq<Stroke>)
    ensures |strokes| == if |js| < 2 then 0 else 3 * (|js| - 1)
    decreases |js|
  {
    if |js| < 2 then []
    else
      var n := |js| - 1;
      ArmStrokes(js[..n]) + [Line(js[n - 1], js[n], Black, ArmWidth, true), Disc(js[n - 1], JointRadius, Black), Disc(js[n], JointRadius, Black)]
  }

  /** The drawing part of one iteration: the per-arm loop (joints from the current
      angles on the cleared arms layer, each angle advanced by its speed), the anchor
      taken from the previous point the first time drawing has started and no anchor
      is set, the trace segment once drawing has started, and the current point kept
      as the previous one. */
  function Drawn(t: Trig, run: Run, p: Pen): (q: Pen)
    requires Ready(p)
    ensures Ready(q) && q.started
  {
    var setup := run.draws(p.epoch);
    var js := Joints(t, Origin, p.angles, setup.radii);
    var current := js[N];
    var first := if p.started && p.first.None? then p.previous else p.first;
    var color := if run.black then Black else p.color;
    var trace := if p.started then p.trace + [Line(p.previous.value, current, color, setup.lineWidth, true)] else p.trace;
    Pen(Advanced(p.angles, setup.speeds), Some(current), first, true, p.hue, p.color, p.epoch, ArmStrokes(js), trace)
  }

  /** The closure test: an anchor is set and the current point is within distance 2
      of it. */
  predicate Closed(q: Pen)
  {
    q.first.Some? && q.previous.Some? && Close(q.previous.value, q.first.value)
  }

  /** The rest of the iteration, after the frame is written: the hue moves on, and on
      closure `reset_drawing_conditions` runs (next draw, zero angles, both layers
      white) and the previous point, the anchor and `drawing_started` are cleared. */
  function After(q: Pen): (r: Pen)
    requires Ready(q)
    ensures Ready(r)
  {
    var hue := NextHue(q.hue);
    if Closed(q) then Pen(Zeros(N), None, None, false, hue, TraceColor(hue), q.epoch + 1, [], [])
    else q.(hue := hue, color := TraceColor(hue))
  }

  /** The state after `k` iterations. */
  function PenAt(t: Trig, run: Run, k: nat): (p: Pen)
    ensures Ready(p)
    decreases k, 0
  {
    if k == 0 then Start(run) else After(DrawnAt(t, run, k - 1))
  }

  /** The state in iteration `k` when its frame is written. */
  function DrawnAt(t: Trig, run: Run, k: nat): (q: Pen)
    ensures Ready(q) && q.started
    decreases k, 1
  {
    Drawn(t, run, PenAt(t, run, k))
  }

  /** The frame written for a state: the trace layer times the arms layer. */
  function Frame(paint: Painter, q: Pen): (img: Image)
    ensures |img| == Size
  {
    Blended(Painted(paint, Size, q.trace), Painted(paint, Size, q.arms))
  }

  /** The first `n` frames written. */
  ghost function Film(t: Trig, paint: Painter, run: Run, n: nat): (frames: seq<Image>)
    ensures |frames| == n
  {
    if n == 0 then [] else Film(t, paint, run, n - 1) + [Frame(paint, DrawnAt(t, run, n - 1))]
  }

  /** The frames written: one per iteration, until the frame cap or the first
      iteration after which the quit key is read. A closure does not end the loop. */
  ghost predicate Recorded(t: Trig, paint: Painter, run: Run, frames: seq<Image>)
  {
    && 1 <= |frames| <= MaxFrames
    && frames == Film(t, paint, run, |frames|)
    && Quiet(run.presses, |frames| - 1)
    && (|frames| == MaxFrames || |frames| - 1 in run.presses)
  }

  lemma Finished(t: Trig, paint: Painter, run: Run, frames: seq<Image>, halted: bool)
    requires frames == Film(t, paint, run, |frames|) && |frames| <= MaxFrames
    requires Settled(run.presses, |frames|, halted) && (|frames| == MaxFrames || halted)
    ensures Recorded(t, paint, run, frames)
  {
  }

  // ---------------------------------------------------------------------------
  // The program on its real state

  /** `reset_drawing_conditions()`: the next draw, a fresh zero angle array, and both
      layers cleared to white in place. */
  method Reset(run: Run, epoch: nat, trace: Canvas, arms: Canvas) returns (angles: array<real>, setup: Draw)
    requires trace.Valid() && arms.Valid() && trace != arms && trace.pixels != arms.pixels
    modifies trace, trace.pixels, arms, arms.pixels
    ensures fresh(angles) && angles[..] == Zeros(N) && setup == run.draws(epoch)
    ensures trace.Valid() && arms.Valid() && trace.strokes == [] && arms.strokes == []
    ensures trace.pixels[..] == White(trace.size) && arms.pixels[..] == White(arms.size)
  {
    setup := run.draws(epoch);
    angles := new real[N](_ => 0.0);
    trace.Clear();
    arms.Clear();
    assert angles[..] == Zeros(N);
  }

  /** Drawing one more arm appends that arm and its two discs. */
  lemma {:induction false} ArmStrokesSnoc(js: seq<Point>, next: Point)
    requires |js| >= 1
    ensures ArmStrokes(js + [next]) == ArmStrokes(js) +
      [Line(js[|js| - 1], next, Black, ArmWidth, true), Disc(js[|js| - 1], JointRadius, Black), Disc(next, JointRadius, Black)]
  {
    var ext := js + [next];
    assert ext[..|js|] == js;
    assert ext[|js| - 1] == js[|js| - 1] && ext[|js|] == next;
  }

  /** One arm on the arms layer: the arm, a disc at its start and a disc at its end. */
  method DrawArm(arms: Canvas, from: Point, to: Point)
    requires arms.Valid()
    modifies arms, arms.pixels
    ensures arms.Valid()
    ensures arms.strokes == old(arms.strokes) + [Line(from, to, Black, ArmWidth, true), Disc(from, JointRadius, Black), Disc(to, JointRadius, Black)]
  {
    arms.Draw(Line(from, to, Black, ArmWidth, true));
    arms.Draw(Disc(from, JointRadius, Black));
    arms.Draw(Disc(to, JointRadius, Black));
  }

  /** The arms before arm `j` drawn and advanced, the rest untouched. */
  ghost predicate SweptTo(t: Trig, before: seq<real>, radii: seq<real>, speeds: seq<real>, j: nat,
                          angles: seq<real>, joints: seq<Point>, drawn: seq<Stroke>, strokes: seq<Stroke>)
    requires j <= |before| == |angles| <= |radii| && |before| <= |speeds|
  {
    && joints == Joints(t, Origin, before[..j], radii)
    && (forall i :: 0 <= i < j ==> angles[i] == before[i] + speeds[i])
    && (forall i :: j <= i < |angles| ==> angles[i] == before[i])
    && strokes == drawn + ArmStrokes(joints)
  }

  /** One pass of the per-arm loop: arm `j` drawn from the last joint, then its angle advanced. */
  method SweepArm(t: Trig, angles: array<real>, radii: seq<real>, speeds: seq<real>, arms: Canvas,
                  j: nat, joints: seq<Point>, ghost before: seq<real>, ghost drawn: seq<Stroke>)
    returns (joints': seq<Point>)
    requires j < angles.Length == |before| <= |radii| && angles.Length <= |speeds| && arms.Valid()
    requires SweptTo(t, before, radii, speeds, j, angles[..], joints, drawn, arms.strokes)
    modifies angles, arms, arms.pixels
    ensures arms.Valid() && SweptTo(t, before, radii, speeds, j + 1, angles[..], joints', drawn, arms.strokes)
  {
    var current := joints[j];
    var next := Elbow(t, current, angles[j], radii[j]);
    DrawArm(arms, current, next);
    JointsSnoc(t, Origin, before, radii, j);
    ArmStrokesSnoc(joints, next);
    joints' := joints + [next];
    assert arms.strokes == drawn + ArmStrokes(joints');
    angles[j] := angles[j] + speeds[j];
  }

  /** The per-arm loop: walks the chain from the centre with the current angles,
      drawing each arm and its two discs on the arms layer, and advances
      `angles[j] += speeds[j]`. Returns every articulation point. */
  method Sweep(t: Trig, angles: array<real>, radii: seq<real>, speeds: seq<real>, arms: Canvas) returns (joints: seq<Point>)
    requires angles.Length <= |radii| && angles.Length <= |speeds| && arms.Valid()
    modifies angles, arms, arms.pixels
    ensures joints == Joints(t, Origin, old(angles[..]), radii)
    ensures angles[..] == Advanced(old(angles[..]), speeds)
    ensures arms.Valid() && arms.strokes == old(arms.strokes) + ArmStrokes(joints)
  {
    ghost var before := angles[..];
    ghost var drawn := arms.strokes;
    joints := [Origin];
    var j := 0;
    while j < angles.Length
      invariant 0 <= j <= angles.Length && arms.Valid()
      invariant SweptTo(t, before, radii, speeds, j, angles[..], joints, drawn, arms.strokes)
    {
      joints := SweepArm(t, angles, radii, speeds, arms, j, joints, before, drawn);
      j := j + 1;
    }
    assert before[..angles.Length] == before;
    assert angles[..] == Advanced(before, speeds);
  }

  /** The drawing part of one iteration on the real state: the arms layer cleared and
      the arms drawn, the anchor capture, and the trace segment once drawing has
      started. Returns the terminal point and the anchor. */
  method Iterate(t: Trig, run: Run, k: nat, angles: array<real>, setup: Draw, previous: Option<Point>,
                 first: Option<Point>, started: bool, hue: real, color: Rgb, epoch: nat, trace: Canvas, arms: Canvas)
    returns (current: Point, first': Option<Point>)
    requires angles.Length == N && setup == run.draws(epoch)
    requires trace.Valid() && arms.Valid() && trace != arms && trace.pixels != arms.pixels
    requires Pen(angles[..], previous, first, started, hue, color, epoch, arms.strokes, trace.strokes) == PenAt(t, run, k)
    modifies angles, trace, trace.pixels, arms, arms.pixels
    ensures trace.Valid() && arms.Valid()
    ensures Pen(angles[..], Some(current), first', true, hue, color, epoch, arms.strokes, trace.strokes) == DrawnAt(t, run, k)
  {
    arms.Clear();
    var joints := Sweep(t, angles, setup.radii, setup.speeds, arms);
    current := joints[N];
    first' := first;
    if started && first.None? {
      first' := previous;
    }
    if started {
      var ink := if run.black then Black else color;
      trace.Draw(Line(previous.value, current, ink, setup.lineWidth, true));
    }
  }

  /** The frame written: the trace layer times the arms layer. */
  method Emit(t: Trig, paint: Painter, run: Run, k: nat, trace: Canvas, arms: Canvas, frames: seq<Image>) returns (frames': seq<Image>)
    requires trace.Valid() && arms.Valid() && trace.size == Size && arms.size == Size && trace.paint == paint && arms.paint == paint
    requires trace.strokes == DrawnAt(t, run, k).trace && arms.strokes == DrawnAt(t, run, k).arms
    requires frames == Film(t, paint, run, k)
    ensures frames' == Film(t, paint, run, k + 1)
  {
    frames' := frames + [Blended(trace.pixels[..], arms.pixels[..])];
  }

  /** The rest of the iteration on the real state: the hue update, the closure test
      with its reset, and the quit key. */
  method Decide(t: Trig, run: Run, k: nat, angles: array<real>, setup: Draw, current: Point,
                first: Option<Point>, hue: real, color: Rgb, epoch: nat, trace: Canvas, arms: Canvas)
    returns (angles': array<real>, setup': Draw, previous': Option<Point>, first': Option<Point>,
             started': bool, hue': real, color': Rgb, epoch': nat, halt: bool)
    requires angles.Length == N && setup == run.draws(epoch)
    requires trace.Valid() && arms.Valid() && trace != arms && trace.pixels != arms.pixels
    requires Pen(angles[..], Some(current), first, true, hue, color, epoch, arms.strokes, trace.strokes) == DrawnAt(t, run, k)
    requires Quiet(run.presses, k)
    modifies trace, trace.pixels, arms, arms.pixels
    ensures angles'.Length == N && setup' == run.draws(epoch') && (angles' == angles || fresh(angles'))
    ensures trace.Valid() && arms.Valid()
    ensures Pen(angles'[..], previous', first', started', hue', color', epoch', arms.strokes, trace.strokes) == PenAt(t, run, k + 1)
    ensures Settled(run.presses, k + 1, halt)
  {
    hue' := NextHue(hue);
    color' := TraceColor(hue');
    angles', setup', previous', first', started', epoch' := angles, setup, Some(current), first, true, epoch;
    if first.Some? && Close(current, first.value) {
      angles', setup' := Reset(run, epoch + 1, trace, arms);
      previous', first', started', epoch' := None, None, false, epoch + 1;
    }
    halt := k in run.presses;
    SettleNext(run.presses, k, halt);
  }

  /** The program: two white layers, the first draw, then the frame loop. */
  method Record(t: Trig, paint: Painter, run: Run) returns (frames: seq<Image>)
    ensures Recorded(t, paint, run, frames)
  {
    var trace := new Canvas(Height, Width, paint);
    var arms := new Canvas(Height, Width, paint);
    frames := Roll(t, paint, run, trace, arms);
  }

  /** `reset_drawing_conditions()` once, then the frame loop. */
  method Roll(t: Trig, paint: Painter, run: Run, trace: Canvas, arms: Canvas) returns (frames: seq<Image>)
    requires trace.Valid() && arms.Valid() && trace != arms && trace.pixels != arms.pixels
    requires trace.size == Size && arms.size == Size && trace.paint == paint && arms.paint == paint
    modifies trace, trace.pixels, arms, arms.pixels
    ensures Recorded(t, paint, run, frames)
  {
    var angles, setup := Reset(run, 0, trace, arms);
    var previous: Option<Point> := None;
    var first: Option<Point> := None;
    var started := false;
    var hue := run.hue;
    var color := TraceColor(hue);
    var epoch := 0;
    var frameCount := 0;
    var halted := false;
    frames := [];
    while frameCount < MaxFrames && !halted
      invariant 0 <= frameCount <= MaxFrames && |frames| == frameCount
      invariant fresh(angles) && angles.Length == N && setup == run.draws(epoch)
      invariant trace.Valid() && arms.Valid()
      invariant Pen(angles[..], previous, first, started, hue, color, epoch, arms.strokes, trace.strokes) == PenAt(t, run, frameCount)
      invariant frames == Film(t, paint, run, frameCount)
      invariant Settled(run.presses, frameCount, halted)
    {
      var current, anchor := Iterate(t, run, frameCount, angles, setup, previous, first, started, hue, color, epoch, trace, arms);
      frames := Emit(t, paint, run, frameCount, trace, arms, frames);
      angles, setup, previous, first, started, hue, color, epoch, halted :=
        Decide(t, run, frameCount, angles, setup, current, anchor, hue, color, epoch, trace, arms);
      frameCount := frameCount + 1;
    }
    Finished(t, paint, run, frames, halted);
  }

  // ---------------------------------------------------------------------------
  // Properties

  /** The hue moves on by 0.5 degrees every frame whatever happens, resets
      included, and the trace colour is always the colour of the current hue. */
  lemma {:induction false} HueFollowsFrames(t: Trig, run: Run, k: nat)
    ensures PenAt(t, run, k).hue == HueAfter(run.hue, k)
    ensures PenAt(t, run, k).color == TraceColor(PenAt(t, run, k).hue)
  {
    if k > 0 {
      HueFollowsFrames(t, run, k - 1);
    }
  }

  /** With a starting hue in [0, 360), the hue stays there and the trace colour is
      a valid colour on every frame. */
  lemma HueInRange(t: Trig, run: Run, k: nat)
    requires 0.0 <= run.hue < 360.0
    ensures 0.0 <= PenAt(t, run, k).hue < 360.0
    ensures InByteRange(PenAt(t, run, k).color)
  {
    HueFollowsFrames(t, run, k);
    HslChannelsInRange(PenAt(t, run, k).hue, Saturation, Lightness);
  }

  /** The terminal point `a` iterations after a (re)start that drew `d`. */
  function TipOf(t: Trig, d: Draw, a: nat): Point
  {
    Tip(t, Origin, AnglesAfter(Zeros(N), d.speeds, a), d.radii)
  }

  /** Iterations since the last (re)start: 0 before the first iteration and right
      after a reset. */
  ghost function Age(t: Trig, run: Run, k: nat): (a: nat)
    ensures a <= k
  {
    if k == 0 then 0
    else if Closed(DrawnAt(t, run, k - 1)) then 0
    else Age(t, run, k - 1) + 1
  }

  /** What the state is `a` iterations after a (re)start with the draw in use: the
      angles turned `a` times from zero, drawing started from the second iteration
      on, the previous point the last terminal point, the anchor the first terminal
      point once it is captured, and one trace segment in that draw's width between
      each pair of consecutive terminal points but the first pair. */
  ghost predicate Since(t: Trig, run: Run, p: Pen, a: nat)
  {
    var d := run.draws(p.epoch);
    && p.angles == AnglesAfter(Zeros(N), d.speeds, a)
    && p.started == (1 <= a)
    && p.previous == (if a == 0 then None else Some(TipOf(t, d, a - 1)))
    && p.first == (if a < 2 then None else Some(TipOf(t, d, 0)))
    && (a == 0 ==> p.arms == [])
    && |p.trace| == (if a == 0 then 0 else a - 1)
    && forall i :: 0 <= i < |p.trace| ==>
         && p.trace[i].Line? && p.trace[i].from == TipOf(t, d, i) && p.trace[i].to == TipOf(t, d, i + 1)
         && p.trace[i].width == d.lineWidth && (run.black ==> p.trace[i].color == Black)
  }

  /** One iteration between resets: `Since` moves from `a` to `a + 1`. */
  lemma DrawnSince(t: Trig, run: Run, p: Pen, a: nat)
    requires Ready(p) && Since(t, run, p, a)
    ensures Since(t, run, Drawn(t, run, p), a + 1)
    ensures Drawn(t, run, p).previous == Some(TipOf(t, run.draws(p.epoch), a))
  {
    var d := run.draws(p.epoch);
    var q := Drawn(t, run, p);
    assert q.previous == Some(TipOf(t, d, a));
    if 1 <= a {
      assert q.trace[a - 1].from == TipOf(t, d, a - 1);
    }
  }

  /** After the frame is written: a closure starts the next draw from scratch,
      otherwise nothing the predicate speaks of changes. */
  lemma AfterSince(t: Trig, run: Run, q: Pen, a: nat)
    requires Ready(q) && Since(t, run, q, a)
    ensures Since(t, run, After(q), if Closed(q) then 0 else a)
  {
  }

  /** The state after `k` iterations is the state `Age(k)` iterations after the last
      (re)start with the draw in use. */
  lemma {:induction false} PenAtSince(t: Trig, run: Run, k: nat)
    ensures Since(t, run, PenAt(t, run, k), Age(t, run, k))
  {
    if k > 0 {
      PenAtSince(t, run, k - 1);
      DrawnSince(t, run, PenAt(t, run, k - 1), Age(t, run, k - 1));
      AfterSince(t, run, DrawnAt(t, run, k - 1), Age(t, run, k - 1) + 1);
    }
  }

  /** The state when the frame of iteration `k` is written, in the same terms. */
  lemma DrawnAtSince(t: Trig, run: Run, k: nat)
    ensures DrawnAt(t, run, k).epoch == PenAt(t, run, k).epoch
    ensures Since(t, run, DrawnAt(t, run, k), Age(t, run, k) + 1)
  {
    PenAtSince(t, run, k);
    DrawnSince(t, run, PenAt(t, run, k), Age(t, run, k));
  }

  /** The closure test fires exactly when an anchor is set, that is from the
      second iteration after a (re)start on, and the terminal point is within
      distance 2 of the first terminal point of that draw. */
  lemma ClosedMeans(t: Trig, run: Run, k: nat)
    ensures var d, a := run.draws(PenAt(t, run, k).epoch), Age(t, run, k);
      Closed(DrawnAt(t, run, k)) <==> 1 <= a && Close(TipOf(t, d, a), TipOf(t, d, 0))
  {
    DrawnAtSince(t, run, k);
  }

  /** A closure resets the drawing conditions: the next draw is in use, the angles
      are zero, there is no previous point and no anchor, drawing has not started
      and both layers are white; the hue still moves on. Without a closure the
      draw in use stays and the state is one iteration older. */
  lemma ResetMeans(t: Trig, run: Run, k: nat)
    ensures var q, p := DrawnAt(t, run, k), PenAt(t, run, k + 1);
      p.hue == NextHue(q.hue) &&
      if Closed(q) then
        && p.epoch == q.epoch + 1 && Age(t, run, k + 1) == 0
        && p.angles == Zeros(N) && p.previous == None && p.first == None && !p.started
        && p.arms == [] && p.trace == []
      else
        p.epoch == q.epoch && Age(t, run, k + 1) == Age(t, run, k) + 1
  {
  }

  /** The first iteration after the start or a reset draws no trace segment, and
      it cannot close the figure. */
  lemma FirstFrameHasNoSegment(t: Trig, run: Run, k: nat)
    requires Age(t, run, k) == 0
    ensures DrawnAt(t, run, k).trace == []
    ensures !Closed(DrawnAt(t, run, k))
  {
    PenAtSince(t, run, k);
    ClosedMeans(t, run, k);
  }

  /** Every trace segment is a line of the width drawn for the draw in use, in
      [5, 125], and black when `random_color` chose black. */
  lemma TraceLines(t: Trig, run: Run, k: nat, i: nat)
    requires i < |PenAt(t, run, k).trace|
    ensures var s := PenAt(t, run, k).trace[i];
      && s.Line? && s.width == run.draws(PenAt(t, run, k).epoch).lineWidth
      && MinLineWidth <= s.width <= MaxLineWidth
      && s.color == if run.black then Black else TraceColor(HueAfter(run.hue, k - Age(t, run, k) + i + 1))
  {
    PenAtSince(t, run, k);
    PenAtInked(t, run, k);
  }

  /** Segment `i` after a (re)start at iteration `s` was drawn in iteration
      `s + i + 1`, black when `random_color` chose black and otherwise in the
      colour of the hue of that iteration. */
  ghost predicate Inked(run: Run, trace: seq<Stroke>, s: nat)
  {
    forall i :: 0 <= i < |trace| ==>
      trace[i].color == if run.black then Black else TraceColor(HueAfter(run.hue, s + i + 1))
  }

  /** Every segment on the trace layer keeps the colour of the frame that drew it:
      the trace colour changes every frame, the segments already drawn do not. */
  lemma {:induction false} PenAtInked(t: Trig, run: Run, k: nat)
    ensures Inked(run, PenAt(t, run, k).trace, k - Age(t, run, k))
  {
    if k > 0 {
      var p, q := PenAt(t, run, k - 1), DrawnAt(t, run, k - 1);
      var a := Age(t, run, k - 1);
      if !Closed(q) {
        PenAtInked(t, run, k - 1);
        PenAtSince(t, run, k - 1);
        HueFollowsFrames(t, run, k - 1);
        DrawnInked(t, run, p, a, k - 1 - a);
        assert PenAt(t, run, k).trace == q.trace;
      }
    }
  }

  /** The drawing part of an iteration `a` iterations after a (re)start at `s` adds
      a segment in the colour of iteration `s + a`, and keeps the earlier ones. */
  lemma DrawnInked(t: Trig, run: Run, p: Pen, a: nat, s: nat)
    requires Ready(p) && p.started == (1 <= a) && |p.trace| == (if a == 0 then 0 else a - 1)
    requires Inked(run, p.trace, s) && p.color == TraceColor(HueAfter(run.hue, s + a))
    ensures Inked(run, Drawn(t, run, p).trace, s)
  {
  }

  /** Once drawing has started, iteration `k` adds exactly one segment: from the
      previous terminal point to the current one, in the draw's width, black or in
      the colour of the hue after `k` frames. */
  lemma NewSegment(t: Trig, run: Run, k: nat)
    requires PenAt(t, run, k).started
    ensures var p, q := PenAt(t, run, k), DrawnAt(t, run, k);
      q.trace == p.trace + [Line(p.previous.value, q.previous.value,
                                 if run.black then Black else TraceColor(HueAfter(run.hue, k)),
                                 run.draws(p.epoch).lineWidth, true)]
  {
    HueFollowsFrames(t, run, k);
  }

  /** Frame `k` of any longer film is the trace layer times the arms layer of
      iteration `k`. */
  lemma {:induction false} FilmFrame(t: Trig, paint: Painter, run: Run, n: nat, k: nat)
    requires k < n
    ensures Film(t, paint, run, n)[k] == Frame(paint, DrawnAt(t, run, k))
  {
    var earlier := Film(t, paint, run, n - 1);
    assert Film(t, paint, run, n) == earlier + [Frame(paint, DrawnAt(t, run, n - 1))];
    if k < n - 1 {
      FilmFrame(t, paint, run, n - 1, k);
    }
  }

  /** The frame of the first iteration after the start or a reset shows the arms
      alone on white. */
  lemma FirstFrameShowsArms(t: Trig, paint: Painter, run: Run, n: nat, k: nat)
    requires k < n && Age(t, run, k) == 0
    ensures Film(t, paint, run, n)[k] == Painted(paint, Size, DrawnAt(t, run, k).arms)
  {
    FilmFrame(t, paint, run, n, k);
    FirstFrameHasNoSegment(t, run, k);
    WhiteTraceShowsArms(Painted(paint, Size, DrawnAt(t, run, k).arms));
  }

  /** A run stops at the first iteration after which the quit key is read, and only
      the frame cap ends it otherwise: closing the figure never ends it. */
  lemma StopsAtFirstPress(t: Trig, paint: Painter, run: Run, frames: seq<Image>)
    requires Recorded(t, paint, run, frames)
    ensures forall k :: 0 <= k < |frames| - 1 ==> k !in run.presses
    ensures |frames| < MaxFrames ==> |frames| - 1 in run.presses
    ensures run.presses == {} ==> |frames| == MaxFrames
  {
    QuietMeansNoPress(run.presses, |frames| - 1);
  }
}
