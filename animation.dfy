/** The per-frame animation: the time since the clock's start picks one of three phases,
    the phase gives a pose (scale and two rotation angles), and the pose is written cell
    by cell into a 4x4 column-major model-view matrix. Sine and cosine are parameters. */
module Animation {
  import opened Matrix
  import opened Clock

  datatype Option<T> = None | Some(value: T)

  /** `Math.PI` as JavaScript spells it. */
  const Pi: real := 3.141592653589793

  /** The fixed distance the word is pushed back along the viewing axis. */
  const TranslateZ: real := -7.0

  /** Spin-up for time < 4, settle and grow for 4 <= time < 6, tumble from then on. */
  datatype Phase = SpinUp | Grow | Tumble

  function PhaseAt(time: real): (ph: Phase)
    ensures ph == SpinUp <==> time < 4.0
    ensures ph == Grow <==> 4.0 <= time < 6.0
    ensures ph == Tumble <==> 6.0 <= time
  {
    if time < 4.0 then SpinUp else if time < 6.0 then Grow else Tumble
  }

  /** The animation time of a frame at `ts`: seconds since the shifted start, times the
      speed factor. Only a playing clock reaches `render`'s time computation; the value
      for a paused clock (the frozen elapsed time, scaled) exists only in the model. */
  function AnimationTime(c: ClockState, ts: real, speed: real): (time: real)
    ensures c.isPlaying ==> time * 1000.0 == (ts - c.timeStart) * speed
    ensures !c.isPlaying ==> time * 1000.0 == c.pauseTime * speed
  {
    (Elapsed(c, ts) / 1000.0) * speed
  }

  lemma MulNonneg(a: real, b: real)
    requires a >= 0.0 && b >= 0.0
    ensures a * b >= 0.0
  {
  }

  /** The cubic ease u^2 (3 - 2u): 0 at u = 0 and 1 at u = 1. */
  function Smoothstep(u: real): (s: real)
    ensures u == 0.0 ==> s == 0.0
    ensures u == 1.0 ==> s == 1.0
  {
    u * u * (3.0 - 2.0 * u)
  }

  /** The ease is point-symmetric about (1/2, 1/2). */
  lemma SmoothstepSymmetric(u: real)
    ensures Smoothstep(1.0 - u) == 1.0 - Smoothstep(u)
  {
  }

  /** On [0, 1] the ease is at least u^2, so it is positive as soon as u is. */
  lemma SmoothstepPositive(u: real)
    requires 0.0 <= u <= 1.0
    ensures Smoothstep(u) >= u * u >= 0.0
    ensures u > 0.0 ==> Smoothstep(u) > 0.0
  {
    MulNonneg(u * u, 2.0 - 2.0 * u);
    if u > 0.0 {
      SquarePositive(u);
    }
  }

  lemma SquarePositive(u: real)
    requires u > 0.0
    ensures u * u > 0.0
  {
  }

  /** On [0, 1] the ease stays within [0, 1], and strictly below 1 before u reaches 1. */
  lemma SmoothstepRange(u: real)
    requires 0.0 <= u <= 1.0
    ensures 0.0 <= Smoothstep(u) <= 1.0
    ensures u < 1.0 ==> Smoothstep(u) < 1.0
  {
    SmoothstepPositive(u);
    SmoothstepPositive(1.0 - u);
    SmoothstepSymmetric(u);
  }

  /** The increase of the ease over [a, a + d], factored by d. */
  lemma SmoothstepIncrease(a: real, d: real)
    ensures Smoothstep(a + d) - Smoothstep(a) == d * (6.0 * a * (1.0 - a - d) + d * (3.0 - 2.0 * d))
  {
  }

  /** The ease never goes backwards on [0, 1]. */
  lemma SmoothstepMonotone(a: real, d: real)
    requires 0.0 <= a && 0.0 <= d && a + d <= 1.0
    ensures Smoothstep(a) <= Smoothstep(a + d)
  {
    SmoothstepIncrease(a, d);
    SlopeNonneg(a, d);
    MulNonneg(d, 6.0 * a * (1.0 - a - d) + d * (3.0 - 2.0 * d));
  }

  /** The second factor of the increase is a sum of two non-negative products. */
  lemma SlopeNonneg(a: real, d: real)
    requires 0.0 <= a && 0.0 <= d && a + d <= 1.0
    ensures 6.0 * a * (1.0 - a - d) + d * (3.0 - 2.0 * d) >= 0.0
  {
    MulNonneg(a, 1.0 - a - d);
    MulNonneg(d, 3.0 - 2.0 * d);
  }

  /** Uniform scale and the rotations about X and Y. */
  datatype Pose = Pose(scale: real, rotX: real, rotY: real)

  /** The pose at `time`. Spinning keeps scale 1 and rotX 0; growing keeps both angles 0
      and eases the scale from 1 towards 1.5; tumbling turns about X at 0.7 pi per unit
      of time, measured from time 5. */
  function PoseAt(time: real, sin: real -> real, cos: real -> real): (p: Pose)
    ensures PhaseAt(time) == SpinUp ==> p.scale == 1.0 && p.rotX == 0.0
    ensures PhaseAt(time) == Grow ==> p.rotX == 0.0 && p.rotY == 0.0 && 1.0 <= p.scale < 1.5
    ensures time == 4.0 ==> p.scale == 1.0
    ensures PhaseAt(time) == Tumble ==> p.rotX == (time - 5.0) * (Pi * 0.7)
  {
    if time < 4.0 then
      Pose(1.0, 0.0, sin(time * (Pi / 2.0)) * Pi)
    else if time < 6.0 then
      var u := (time - 4.0) / 2.0;
      SmoothstepRange(u);
      Pose(1.0 + 0.5 * Smoothstep(u), 0.0, 0.0)
    else
      var v := time - 5.0;
      Pose(1.5 + cos(v * 3.0) * 0.2, v * (Pi * 0.7), sin(v * 1.5) * 0.3)
  }

  /** While growing, the scale never shrinks. */
  lemma GrowIsMonotone(t1: real, t2: real, sin: real -> real, cos: real -> real)
    requires 4.0 <= t1 <= t2 < 6.0
    ensures PoseAt(t1, sin, cos).scale <= PoseAt(t2, sin, cos).scale
  {
    SmoothstepMonotone((t1 - 4.0) / 2.0, (t2 - t1) / 2.0);
  }

  /** With a cosine within [-1, 1], the tumbling scale breathes within [1.3, 1.7]. */
  lemma TumbleScaleBounds(time: real, sin: real -> real, cos: real -> real)
    requires time >= 6.0
    requires -1.0 <= cos((time - 5.0) * 3.0) <= 1.0
    ensures 1.3 <= PoseAt(time, sin, cos).scale <= 1.7
  {
  }

  /** The phase boundaries: growing starts at scale 1, but tumbling starts already turned
      by 0.7 pi about X although rotX is 0 right up to time 6. */
  lemma PhaseBoundaries(t: real, sin: real -> real, cos: real -> real)
    requires t < 6.0
    ensures PoseAt(4.0, sin, cos).scale == 1.0
    ensures PoseAt(t, sin, cos).rotX == 0.0
    ensures PoseAt(6.0, sin, cos).rotX == 0.7 * Pi
  {
  }

  /** The model-view matrix `render` builds for a pose, cell by cell (column-major):
      the Y rotation in cells 0, 2, 8, the X rotation in cells 5, 6, 9, cell 10 holding
      the X cosine (the Y cosine written there first is overwritten), the diagonal cells
      0, 5, 10 scaled, the push back in cell 14, and the identity's 0s and 1 elsewhere. */
  ghost predicate IsModelView(m: seq<real>, p: Pose, sin: real -> real, cos: real -> real) {
    |m| == 16 &&
    m[0] == cos(p.rotY) * p.scale && m[2] == sin(p.rotY) && m[8] == -sin(p.rotY) &&
    m[5] == cos(p.rotX) * p.scale && m[6] == sin(p.rotX) && m[9] == -sin(p.rotX) &&
    m[10] == cos(p.rotX) * p.scale &&
    m[14] == TranslateZ && m[15] == 1.0 &&
    m[1] == 0.0 && m[3] == 0.0 && m[4] == 0.0 && m[7] == 0.0 &&
    m[11] == 0.0 && m[12] == 0.0 && m[13] == 0.0
  }

  /** The matrix assembly of `render`: identity, the rotation cells written in the
      source's order (cell 10 twice), the translation, then `scaleMatrix`. */
  method ModelView(p: Pose, sin: real -> real, cos: real -> real) returns (m: seq<real>)
    ensures IsModelView(m, p, sin, cos)
  {
    var mv := NewIdentity();
    var cy, sy := cos(p.rotY), sin(p.rotY);
    var cx, sx := cos(p.rotX), sin(p.rotX);

    mv[0] := cy;
    mv[2] := sy;
    mv[8] := -sy;
    mv[10] := cy;

    mv[5] := cx;
    mv[6] := sx;
    mv[9] := -sx;
    mv[10] := cx;

    mv[14] := TranslateZ;

    ghost var before := mv[..];
    assert before[0] == cy && before[2] == sy && before[8] == -sy;
    assert before[5] == cx && before[6] == sx && before[9] == -sx && before[10] == cx;
    assert before[14] == TranslateZ && before[15] == 1.0;
    assert before[1] == 0.0 && before[3] == 0.0 && before[4] == 0.0 && before[7] == 0.0;
    assert before[11] == 0.0 && before[12] == 0.0 && before[13] == 0.0;
    ScaleMatrix(mv, p.scale);
    m := mv[..];
    ScaledRotation(before, p, sin, cos);
  }

  /** Scaling the unscaled rotation-and-translation cells gives the model-view matrix. */
  lemma ScaledRotation(before: seq<real>, p: Pose, sin: real -> real, cos: real -> real)
    requires |before| == 16
    requires before[0] == cos(p.rotY) && before[2] == sin(p.rotY) && before[8] == -sin(p.rotY)
    requires before[5] == cos(p.rotX) && before[6] == sin(p.rotX) && before[9] == -sin(p.rotX)
    requires before[10] == cos(p.rotX) && before[14] == TranslateZ && before[15] == 1.0
    requires before[1] == 0.0 && before[3] == 0.0 && before[4] == 0.0 && before[7] == 0.0
    requires before[11] == 0.0 && before[12] == 0.0 && before[13] == 0.0
    ensures IsModelView(Scaled(before, p.scale), p, sin, cos)
  {
  }

  /** The description fixes every one of the 16 cells: a pose has one model-view matrix. */
  lemma ModelViewIsUnique(m1: seq<real>, m2: seq<real>, p: Pose, sin: real -> real, cos: real -> real)
    requires IsModelView(m1, p, sin, cos) && IsModelView(m2, p, sin, cos)
    ensures m1 == m2
  {
    forall i | 0 <= i < 16 ensures m1[i] == m2[i] {
      match i
      case 0 => case 1 => case 2 => case 3 => case 4 => case 5 => case 6 => case 7 =>
      case 8 => case 9 => case 10 => case 11 => case 12 => case 13 => case 14 => case 15 =>
    }
  }

  /** At rest (both angles with sine 0 and cosine 1) the matrix is the identity scaled by
      the pose's scale and pushed back along the viewing axis. */
  lemma ModelViewAtRest(m: seq<real>, p: Pose, sin: real -> real, cos: real -> real)
    requires IsModelView(m, p, sin, cos)
    requires sin(p.rotX) == 0.0 && cos(p.rotX) == 1.0 && sin(p.rotY) == 0.0 && cos(p.rotY) == 1.0
    ensures m == Scaled(Identity(), p.scale)[14 := TranslateZ]
  {
    var r := Scaled(Identity(), p.scale)[14 := TranslateZ];
    forall i | 0 <= i < 16 ensures m[i] == r[i] {
      match i
      case 0 => case 1 => case 2 => case 3 => case 4 => case 5 => case 6 => case 7 =>
      case 8 => case 9 => case 10 => case 11 => case 12 => case 13 => case 14 => case 15 =>
    }
  }

  /** What the overwrite of cell 10 does: at scale 1, with a proper X rotation, the third
      column (cells 8, 9, 10) has squared length 1 + sin(rotY)^2, so the upper 3x3 block is
      a rotation only when sin(rotY) = 0; otherwise it stretches along that column. */
  lemma ThirdColumnLength(m: seq<real>, p: Pose, sin: real -> real, cos: real -> real)
    requires IsModelView(m, p, sin, cos)
    requires p.scale == 1.0 && sin(p.rotX) * sin(p.rotX) + cos(p.rotX) * cos(p.rotX) == 1.0
    ensures m[8] * m[8] + m[9] * m[9] + m[10] * m[10] == 1.0 + sin(p.rotY) * sin(p.rotY)
  {
  }

  /** `render(ts)`: nothing is drawn while paused; otherwise the phase is chosen from the
      animation time and the frame's model-view matrix is that of the pose at that time. */
  method Render(clock: PlaybackClock, ts: real, speed: real, sin: real -> real, cos: real -> real)
    returns (frame: Option<seq<real>>)
    ensures frame.None? <==> !clock.isPlaying
    ensures frame.Some? ==>
      IsModelView(frame.value, PoseAt(AnimationTime(clock.State(), ts, speed), sin, cos), sin, cos)
  {
    if !clock.isPlaying {
      return None;
    }
    var time := ((ts - clock.timeStart) / 1000.0) * speed;

    var scale := 1.0;
    var rotY := 0.0;
    var rotX := 0.0;

    if time < 4.0 {
      rotY := sin(time * (Pi / 2.0)) * Pi;
    } else if time < 6.0 {
      var t := (time - 4.0) / 2.0;
      var smooth := t * t * (3.0 - 2.0 * t);
      scale := 1.0 + (0.5 * smooth);
    } else {
      var t := time - 5.0;
      rotX := t * (Pi * 0.7);
      scale := 1.5 + cos(t * 3.0) * 0.2;
      rotY := sin(t * 1.5) * 0.3;
    }

    assert time == AnimationTime(clock.State(), ts, speed);
    assert Pose(scale, rotX, rotY) == PoseAt(time, sin, cos);
    var mv := ModelView(Pose(scale, rotX, rotY), sin, cos);
    frame := Some(mv);
  }
}
