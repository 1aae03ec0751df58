/** The rotating-arm linkage shared by every script: each arm pivots at the end
    of the previous one, its end is found with `int(cos(a) * r)` and
    `int(sin(a) * r)` per arm, and every frame each angle advances by its speed. */
module Arms {
  import opened PyNum

  /** An integer pixel position. */
  datatype Point = Point(x: int, y: int)

  /** `math.cos` and `math.sin`, left uninterpreted. */
  datatype Trig = Trig(cos: real -> real, sin: real -> real)

  /** Cosine and sine stay in [-1, 1]. */
  ghost predicate Bounded(t: Trig)
  {
    && (forall a :: -1.0 <= t.cos(a) <= 1.0)
    && (forall a :: -1.0 <= t.sin(a) <= 1.0)
  }

  /** The end of an arm of length `radius` at `angle`, pivoting at `p`; each
      coordinate offset is truncated on its own. */
  function Elbow(t: Trig, p: Point, angle: real, radius: real): (q: Point)
    ensures -1.0 <= t.cos(angle) <= 1.0 ==> -Abs(radius) <= (q.x - p.x) as real <= Abs(radius)
    ensures -1.0 <= t.sin(angle) <= 1.0 ==> -Abs(radius) <= (q.y - p.y) as real <= Abs(radius)
  {
    Point(p.x + Offset(t.cos, angle, radius), p.y + Offset(t.sin, angle, radius))
  }

  /** One truncated coordinate offset, `int(f(angle) * radius)`. */
  function Offset(f: real -> real, angle: real, radius: real): (d: int)
    ensures -1.0 <= f(angle) <= 1.0 ==> -Abs(radius) <= d as real <= Abs(radius)
  {
    var c := f(angle);
    OffsetWithin(c, radius);
    Trunc(c * radius)
  }

  /** The articulation points of a chain anchored at `o`: `o` itself, then the end
      of each arm in order. */
  function Joints(t: Trig, o: Point, angles: seq<real>, radii: seq<real>): (js: seq<Point>)
    requires |angles| <= |radii|
    ensures |js| == |angles| + 1 && js[0] == o
    decreases |angles|
  {
    if angles == [] then [o]
    else
      var n := |angles| - 1;
      var js := Joints(t, o, angles[..n], radii);
      js + [Elbow(t, js[n], angles[n], radii[n])]
  }

  /** The terminal point of the chain: the point the pen traces. */
  function Tip(t: Trig, o: Point, angles: seq<real>, radii: seq<real>): Point
    requires |angles| <= |radii|
  {
    Joints(t, o, angles, radii)[|angles|]
  }

  /** The sum of the truncated per-arm offsets `int(f(a_j) * r_j)`. */
  function Reach(f: real -> real, angles: seq<real>, radii: seq<real>): int
    requires |angles| <= |radii|
    decreases |angles|
  {
    if angles == [] then 0
    else
      var n := |angles| - 1;
      Reach(f, angles[..n], radii) + Offset(f, angles[n], radii[n])
  }

  /** The sum of the absolute radii of the first `n` arms. */
  function Span(radii: seq<real>, n: nat): real
    requires n <= |radii|
  {
    if n == 0 then 0.0 else Span(radii, n - 1) + Abs(radii[n - 1])
  }

  /** Every angle advanced once by its speed. */
  function Advanced(angles: seq<real>, speeds: seq<real>): (r: seq<real>)
    requires |angles| <= |speeds|
    ensures |r| == |angles|
  {
    seq(|angles|, j requires 0 <= j < |angles| => angles[j] + speeds[j])
  }

  /** The angles after `k` frames. */
  function AnglesAfter(angles: seq<real>, speeds: seq<real>, k: nat): (r: seq<real>)
    requires |angles| <= |speeds|
    ensures |r| == |angles|
  {
    if k == 0 then angles else Advanced(AnglesAfter(angles, speeds, k - 1), speeds)
  }

  /** A single angle after `k` frames of `angle += speed`. */
  function Turned(angle: real, speed: real, k: nat): real
  {
    if k == 0 then angle else Turned(angle, speed, k - 1) + speed
  }

  /** `n` angles of zero, as `np.zeros(n)`. */
  function Zeros(n: nat): (r: seq<real>)
    ensures |r| == n
  {
    seq(n, _ => 0.0)
  }

  /** The explicit two-arm form of the two-arm scripts:
      `x1 = cx + int(cos a1 * r1)`, `x2 = x1 + int(cos a2 * r2)`, and likewise for y. */
  function TwoArmTip(t: Trig, o: Point, a1: real, r1: real, a2: real, r2: real): Point
  {
    Elbow(t, Elbow(t, o, a1, r1), a2, r2)
  }

  /** The explicit two-arm form is the general chain with two arms. */
  lemma TwoArmTipIsChain(t: Trig, o: Point, a1: real, r1: real, a2: real, r2: real)
    ensures TwoArmTip(t, o, a1, r1, a2, r2) == Tip(t, o, [a1, a2], [r1, r2])
  {
    JointsSnoc(t, o, [a1, a2], [r1, r2], 0);
    JointsSnoc(t, o, [a1, a2], [r1, r2], 1);
    assert [a1, a2][..2] == [a1, a2];
  }

  /** Extending the chain by one arm appends that arm's end to the joints. */
  lemma JointsSnoc(t: Trig, o: Point, angles: seq<real>, radii: seq<real>, j: nat)
    requires j < |angles| <= |radii|
    ensures var js := Joints(t, o, angles[..j], radii);
      Joints(t, o, angles[..j + 1], radii) == js + [Elbow(t, js[j], angles[j], radii[j])]
  {
    assert angles[..j + 1][..j] == angles[..j];
  }

  // ---------------------------------------------------------------------------
  // One kinematics step, in place on the angle array

  /** One pass of the per-arm loop: walks the chain from `o` with the current
      angles, then advances `angles[j] += speeds[j]`. Returns every articulation
      point, the last being the terminal point. */
  method StepArms(t: Trig, o: Point, angles: array<real>, radii: seq<real>, speeds: seq<real>)
    returns (joints: seq<Point>)
    requires angles.Length <= |radii| && angles.Length <= |speeds|
    modifies angles
    ensures joints == Joints(t, o, old(angles[..]), radii)
    ensures angles[..] == Advanced(old(angles[..]), speeds)
  {
    ghost var before := angles[..];
    joints := [o];
    var j := 0;
    while j < angles.Length
      invariant 0 <= j <= angles.Length
      invariant joints == Joints(t, o, before[..j], radii)
      invariant forall i :: 0 <= i < j ==> angles[i] == before[i] + speeds[i]
      invariant forall i :: j <= i < angles.Length ==> angles[i] == before[i]
    {
      var next := Elbow(t, joints[j], angles[j], radii[j]);
      JointsSnoc(t, o, before, radii, j);
      joints := joints + [next];
      angles[j] := angles[j] + speeds[j];
      j := j + 1;
    }
    assert before[..angles.Length] == before;
    assert angles[..] == Advanced(before, speeds);
  }

  // ---------------------------------------------------------------------------
  // Properties of the kinematics

  /** The terminal point is the origin plus the sum of the truncated per-arm
      offsets: truncation is applied arm by arm, never to the total. */
  lemma {:induction false} TipIsOriginPlusReach(t: Trig, o: Point, angles: seq<real>, radii: seq<real>)
    requires |angles| <= |radii|
    ensures Tip(t, o, angles, radii) == Point(o.x + Reach(t.cos, angles, radii), o.y + Reach(t.sin, angles, radii))
  {
    if angles != [] {
      var n := |angles| - 1;
      var pre := angles[..n];
      TipIsOriginPlusReach(t, o, pre, radii);
      var js := Joints(t, o, pre, radii);
      assert Tip(t, o, angles, radii) == Elbow(t, js[n], angles[n], radii[n]);
      assert js[n] == Tip(t, o, pre, radii);
    }
  }

  /** With cosine and sine in [-1, 1] the pen never leaves the box of half-width
      "sum of the radii" around the origin. */
  lemma {:induction false} ReachWithinSpan(f: real -> real, angles: seq<real>, radii: seq<real>)
    requires |angles| <= |radii|
    requires forall a :: -1.0 <= f(a) <= 1.0
    ensures -Span(radii, |angles|) <= Reach(f, angles, radii) as real <= Span(radii, |angles|)
  {
    if angles != [] {
      var n := |angles| - 1;
      ReachWithinSpan(f, angles[..n], radii);
      var before := Reach(f, angles[..n], radii);
      var span := Span(radii, n);
      var offset := Offset(f, angles[n], radii[n]);
      assert Reach(f, angles, radii) == before + offset;
      assert Span(radii, |angles|) == span + Abs(radii[n]);
      assert -span <= before as real <= span;
    }
  }

  /** A truncated arm offset `int(c * r)` with `|c| <= 1` is no longer than the arm. */
  lemma OffsetWithin(c: real, r: real)
    ensures -1.0 <= c <= 1.0 ==> -Abs(r) <= Trunc(c * r) as real <= Abs(r)
  {
    if -1.0 <= c <= 1.0 {
      ScaledWithin(c, r);
      TruncWithin(c * r, Abs(r));
    }
  }

  /** Truncating a value within [-a, a] stays within [-a, a]. */
  lemma TruncWithin(x: real, a: real)
    requires Abs(x) <= a
    ensures -a <= Trunc(x) as real <= a
  {
    TruncShrinks(x);
  }

  lemma ScaledWithin(c: real, r: real)
    requires -1.0 <= c <= 1.0
    ensures Abs(c * r) <= Abs(r)
  {
    var a := Abs(r);
    NonNegativeProduct(1.0 - c, a);
    NonNegativeProduct(1.0 + c, a);
    assert (1.0 - c) * a == a - c * a;
    assert (1.0 + c) * a == a + c * a;
    if r >= 0.0 {
      assert c * r == c * a;
    } else {
      assert c * r == -(c * a);
    }
    assert -a <= c * r <= a;
  }

  /** The terminal point stays within the sum of the radii of the origin, on each axis. */
  lemma TipWithinSpan(t: Trig, o: Point, angles: seq<real>, radii: seq<real>)
    requires |angles| <= |radii| && Bounded(t)
    ensures var p := Tip(t, o, angles, radii);
      Abs((p.x - o.x) as real) <= Span(radii, |angles|) && Abs((p.y - o.y) as real) <= Span(radii, |angles|)
  {
    TipIsOriginPlusReach(t, o, angles, radii);
    ReachWithinSpan(t.cos, angles, radii);
    ReachWithinSpan(t.sin, angles, radii);
  }

  /** Repeated `angle += speed` is the same as adding `k * speed` once (over exact reals). */
  lemma {:induction false} TurnedIsLinear(angle: real, speed: real, k: nat)
    ensures Turned(angle, speed, k) == angle + k as real * speed
  {
    if k > 0 {
      TurnedIsLinear(angle, speed, k - 1);
    }
  }

  /** After `k` frames each arm's angle has been advanced `k` times by its own speed. */
  lemma {:induction false} AnglesAfterPerArm(angles: seq<real>, speeds: seq<real>, k: nat, j: nat)
    requires |angles| <= |speeds| && j < |angles|
    ensures AnglesAfter(angles, speeds, k)[j] == Turned(angles[j], speeds[j], k)
  {
    if k > 0 {
      AnglesAfterPerArm(angles, speeds, k - 1, j);
    }
  }

  /** A chain whose speeds are all zero does not drift: its angles, and so its
      terminal point, are the same in every frame. */
  lemma StillChainStaysPut(t: Trig, o: Point, angles: seq<real>, radii: seq<real>, speeds: seq<real>, k: nat)
    requires |angles| <= |radii| && |angles| <= |speeds|
    requires forall j :: 0 <= j < |speeds| ==> speeds[j] == 0.0
    ensures AnglesAfter(angles, speeds, k) == angles
    ensures Tip(t, o, AnglesAfter(angles, speeds, k), radii) == Tip(t, o, angles, radii)
  {
    forall j | 0 <= j < |angles|
      ensures AnglesAfter(angles, speeds, k)[j] == angles[j]
    {
      AnglesAfterPerArm(angles, speeds, k, j);
      TurnedIsLinear(angles[j], speeds[j], k);
    }
  }

  /** With every angle at zero, `cos 0 = 1` and `sin 0 = 0`, the first two-arm
      terminal point is the origin shifted right by the truncated radii. */
  lemma ZeroAngleTwoArmTip(t: Trig, o: Point, r1: real, r2: real)
    requires t.cos(0.0) == 1.0 && t.sin(0.0) == 0.0
    requires 0.0 <= r1 && 0.0 <= r2
    ensures TwoArmTip(t, o, 0.0, r1, 0.0, r2) == Point(o.x + r1.Floor + r2.Floor, o.y)
  {
  }

  // ---------------------------------------------------------------------------
  // Closure tests

  /** The squared distance between two pixel positions. */
  function SquaredDistance(p: Point, q: Point): int
  {
    (p.x - q.x) * (p.x - q.x) + (p.y - q.y) * (p.y - q.y)
  }

  /** The closure test of the Euclidean variants, `sqrt(dx**2 + dy**2) <= 2`, on
      integer points, written without products: the offset is at most 1 on both
      axes, or it is 2 along one axis and 0 along the other. */
  predicate Close(p: Point, q: Point)
  {
    var dx, dy := p.x - q.x, p.y - q.y;
    || (-1 <= dx <= 1 && -1 <= dy <= 1)
    || (dx == 0 && (dy == 2 || dy == -2))
    || (dy == 0 && (dx == 2 || dx == -2))
  }

  /** The squares of small whole numbers, and every other square is at least 9. */
  lemma SmallSquares(a: int)
    ensures a * a >= 0
    ensures -1 <= a <= 1 ==> a * a <= 1
    ensures (a == 2 || a == -2) ==> a * a == 4
    ensures (a == 1 || a == -1) ==> a * a == 1
    ensures (a > 2 || a < -2) ==> a * a >= 9
  {
    if a > 2 {
      assert a * a >= 3 * a;
    } else if a < -2 {
      assert a * a >= -3 * a;
    } else if a >= 0 {
      assert a * a <= 2 * a;
    } else {
      assert a * a <= -2 * a;
    }
  }

  /** The closure test is exactly "squared distance at most 4". */
  lemma CloseIsSquareTest(p: Point, q: Point)
    ensures Close(p, q) <==> SquaredDistance(p, q) <= 4
  {
    SmallSquares(p.x - q.x);
    SmallSquares(p.y - q.y);
  }

  /** For a whole squared distance `d` with square root `root`, `root <= 2`
      exactly when `d <= 4`: testing the squared distance loses nothing. */
  lemma SqrtTestIsSquareTest(d: int, root: real)
    requires 0 <= d && 0.0 <= root && root * root == d as real
    ensures root <= 2.0 <==> d <= 4
  {
    if root > 2.0 {
      assert root * root > 2.0 * root;
    } else {
      assert root * root <= 2.0 * root;
    }
  }

  /** The per-axis closure test of the two-arm variants:
      `abs(x - sx) < tx and abs(y - sy) < ty` against a real start point. */
  predicate NearStart(p: Point, sx: real, sy: real, tx: real, ty: real)
  {
    Abs(p.x as real - sx) < tx && Abs(p.y as real - sy) < ty
  }
}
