// The decorative background field (src/background.rs): a fixed-size cloud of
// points whose phase angles advance with the score and which scatter a
// little on every hit.

module Backgrounds {
  import opened Geometry
  import opened Random
  import opened Particles

  const POINTS: nat := 230
  /** Number of points a chaos event teleports. */
  const CHAOS_JUMPS: nat := 4
  /** Draws one teleport takes from the stream: direction, distance, phase jump. */
  const TELEPORT_DRAWS: nat := 3

  datatype BgPoint = BgPoint(pos: Vec, angle: real)

  /** Where point `i` starts: on a spiral around the screen centre. */
  function SpiralPos(i: nat, env: Env): Vec {
    env.size.Times(0.5).Plus(env.fromAngle(i as real * 10.0).Times(i as real * 3.0))
  }

  /** The phase a point gains on an update at the given score: `log2(score + 2)`. */
  function PhaseStep(score: nat, env: Env): real {
    env.log2(score as real + 2.0)
  }

  /** The phase of point `n - 1` in `Background::new`: the running sum of
      the first `n` steps, each a uniform draw in [0, 10) taken from draw
      `d` on. */
  function PhaseSum(unit: nat -> real, d: nat, n: nat): real
    requires Uniforms(unit)
  {
    if n == 0 then 0.0 else PhaseSum(unit, d, n - 1) + Scaled(unit(d + n - 1), 0.0, 10.0)
  }

  /** Each running sum lies 0 to 10 above the one before. */
  lemma PhaseSteps(unit: nat -> real, d: nat, n: nat)
    requires Uniforms(unit)
    ensures forall i :: 0 <= i < n ==>
      PhaseSum(unit, d, i) <= PhaseSum(unit, d, i + 1) < PhaseSum(unit, d, i) + 10.0
  {
    forall i | 0 <= i < n
      ensures PhaseSum(unit, d, i) <= PhaseSum(unit, d, i + 1) < PhaseSum(unit, d, i) + 10.0
    {
      assert PhaseSum(unit, d, i + 1) == PhaseSum(unit, d, i) + Scaled(unit(d + i), 0.0, 10.0);
    }
  }

  /** Where `BgPoint::teleport` takes a point, given the three draws from
      `d` on: a direction in [0, 360), a distance in [10, 20) and a phase
      jump in [10, 20). */
  function Teleport(p: BgPoint, unit: nat -> real, d: nat, env: Env): (r: BgPoint)
    requires Uniforms(unit)
    ensures p.angle + 10.0 <= r.angle < p.angle + 20.0
    ensures UnitCircle(env) ==> 100.0 <= r.pos.Minus(p.pos).Len2() < 400.0
  {
    var dir := env.fromAngle(Scaled(unit(d), 0.0, 360.0));
    var dist := Scaled(unit(d + 1), 10.0, 20.0);
    JumpLength(p.pos, dir.Times(dist), dir, dist);
    BgPoint(p.pos.Plus(dir.Times(dist)), p.angle + Scaled(unit(d + 2), 10.0, 20.0))
  }

  /** The indices the first `n` jumps of `Background::chaos` pick among
      `len` points, from draw `d` on: one draw per jump, each followed by
      the teleport's three. */
  function Picks(unit: nat -> real, d: nat, n: nat, len: nat): (ps: seq<nat>)
    requires Uniforms(unit) && len > 0
    ensures |ps| == n
    ensures forall k :: 0 <= k < n ==> ps[k] == PickIndex(unit(d + k * (1 + TELEPORT_DRAWS)), len) < len
  {
    if n == 0 then []
    else Picks(unit, d, n - 1, len) + [PickIndex(unit(d + (n - 1) * (1 + TELEPORT_DRAWS)), len)]
  }

  /** The points after the first `n` jumps of `Background::chaos`, from
      draw `d` on: each jump teleports the point it picks. */
  function Scatter(pts: seq<BgPoint>, unit: nat -> real, d: nat, n: nat, env: Env): (r: seq<BgPoint>)
    requires Uniforms(unit) && |pts| > 0
    ensures |r| == |pts|
  {
    if n == 0 then pts
    else
      var q := Scatter(pts, unit, d, n - 1, env);
      var e := d + (n - 1) * (1 + TELEPORT_DRAWS);
      var i := PickIndex(unit(e), |q|);
      q[i := Teleport(q[i], unit, e + 1, env)]
  }

  /** One more jump: draw `e` picks the index `i`, the three after it
      teleport that point. */
  lemma JumpStep(pts: seq<BgPoint>, unit: nat -> real, d: nat, n: nat, e: nat, i: nat, env: Env)
    requires Uniforms(unit) && |pts| > 0
    requires e == d + n * (1 + TELEPORT_DRAWS) && i == PickIndex(unit(e), |pts|)
    ensures Picks(unit, d, n + 1, |pts|) == Picks(unit, d, n, |pts|) + [i]
    ensures Scatter(pts, unit, d, n + 1, env)
      == Scatter(pts, unit, d, n, env)[i := Teleport(Scatter(pts, unit, d, n, env)[i], unit, e + 1, env)]
  {
  }

  /** A scatter moves only the points it picks. */
  lemma {:induction false} ScatterKeeps(pts: seq<BgPoint>, unit: nat -> real, d: nat, n: nat, env: Env)
    requires Uniforms(unit) && |pts| > 0
    ensures var r, ps := Scatter(pts, unit, d, n, env), Picks(unit, d, n, |pts|);
      forall j :: 0 <= j < |pts| && j !in ps ==> r[j] == pts[j]
  {
    if n > 0 {
      ScatterKeeps(pts, unit, d, n - 1, env);
      var ps := Picks(unit, d, n, |pts|);
      assert ps == Picks(unit, d, n - 1, |pts|) + [ps[n - 1]];
    }
  }

  /** A scatter never lowers a phase, and raises the phase of every point
      it picks by at least 10 degrees. */
  lemma {:induction false} ScatterRaises(pts: seq<BgPoint>, unit: nat -> real, d: nat, n: nat, env: Env)
    requires Uniforms(unit) && |pts| > 0
    ensures var r, ps := Scatter(pts, unit, d, n, env), Picks(unit, d, n, |pts|);
      && (forall j :: 0 <= j < |pts| ==> pts[j].angle <= r[j].angle)
      && (forall j :: j in ps ==> pts[j].angle + 10.0 <= r[j].angle)
  {
    if n > 0 {
      ScatterRaises(pts, unit, d, n - 1, env);
      var q, qs := Scatter(pts, unit, d, n - 1, env), Picks(unit, d, n - 1, |pts|);
      var r, ps := Scatter(pts, unit, d, n, env), Picks(unit, d, n, |pts|);
      var i := ps[n - 1];
      assert ps == qs + [i];
      assert r == q[i := Teleport(q[i], unit, d + (n - 1) * (1 + TELEPORT_DRAWS) + 1, env)];
      forall j | 0 <= j < |pts|
        ensures q[j].angle <= r[j].angle
      {
      }
      forall j | j in ps
        ensures pts[j].angle + 10.0 <= r[j].angle
      {
        if j != i {
          assert j in qs;
        }
      }
    }
  }

  /** Points whose phases are the running sums of the draws start in
      [0, 10), step up by less than 10 from one point to the next, and are
      ascending. */
  lemma PhasesOrdered(pts: seq<BgPoint>, unit: nat -> real, d: nat)
    requires Uniforms(unit) && |pts| > 0
    requires forall i :: 0 <= i < |pts| ==> pts[i].angle == PhaseSum(unit, d, i + 1)
    ensures 0.0 <= pts[0].angle < 10.0
    ensures forall i :: 0 < i < |pts| ==> pts[i - 1].angle <= pts[i].angle < pts[i - 1].angle + 10.0
    ensures Ascending(pts)
  {
    PhaseSteps(unit, d, |pts|);
    assert PhaseSum(unit, d, 0) == 0.0;
    StepsAscend(pts);
  }

  /** Phase angles that never decrease along the point list. */
  ghost predicate Ascending(pts: seq<BgPoint>) {
    forall i, j :: 0 <= i <= j < |pts| ==> pts[i].angle <= pts[j].angle
  }

  /** Neighbours in order make the whole list ordered. */
  lemma {:induction false} StepsAscend(pts: seq<BgPoint>)
    requires forall k :: 0 < k < |pts| ==> pts[k - 1].angle <= pts[k].angle
    ensures Ascending(pts)
  {
    if |pts| > 1 {
      var init := pts[..|pts| - 1];
      StepsAscend(init);
      forall i, j | 0 <= i <= j < |pts|
        ensures pts[i].angle <= pts[j].angle
      {
        if j < |pts| - 1 {
          assert init[i] == pts[i] && init[j] == pts[j];
        } else if i < j {
          assert init[i] == pts[i] && init[|pts| - 2] == pts[|pts| - 2];
        }
      }
    }
  }

  class Background {
    var t: real
    var points: array<BgPoint>
    var color: Color

    ghost predicate Valid()
      reads this
    {
      points.Length == POINTS
    }

    /** `Background::new`: 230 points on a spiral; the phase of each point is
        the running sum of uniform draws in [0, 10), one per point. */
    constructor (rng: Rng, env: Env)
      requires rng.Valid()
      modifies rng
      ensures Valid() && fresh(points)
      ensures t == 0.0 && color == Hex("#5e2a53")
      ensures rng.drawn == old(rng.drawn) + POINTS
      ensures forall i :: 0 <= i < POINTS ==>
        points[i] == BgPoint(SpiralPos(i, env), PhaseSum(rng.unit, old(rng.drawn), i + 1))
      ensures 0.0 <= points[0].angle < 10.0
      ensures forall i :: 0 < i < POINTS ==> points[i - 1].angle <= points[i].angle < points[i - 1].angle + 10.0
      ensures Ascending(points[..])
    {
      var d := rng.drawn;
      var pts := Spiral(rng, env);
      t := 0.0;
      color := Hex("#5e2a53");
      points := pts;
      new;
      PhasesOrdered(points[..], rng.unit, d);
    }

    /** The point list of `Background::new`, built one point per draw:
        point `i` sits on the spiral with the running sum of the first
        `i + 1` draws as its phase. */
    static method Spiral(rng: Rng, env: Env) returns (pts: array<BgPoint>)
      requires rng.Valid()
      modifies rng
      ensures fresh(pts) && pts.Length == POINTS
      ensures rng.drawn == old(rng.drawn) + POINTS
      ensures forall i :: 0 <= i < POINTS ==>
        pts[i] == BgPoint(SpiralPos(i, env), PhaseSum(rng.unit, old(rng.drawn), i + 1))
    {
      pts := new BgPoint[POINTS];
      var d := rng.drawn;
      var a := 0.0;
      for i := 0 to POINTS
        invariant rng.drawn == d + i && rng.Valid()
        invariant a == PhaseSum(rng.unit, d, i)
        invariant forall k :: 0 <= k < i ==> pts[k] == BgPoint(SpiralPos(k, env), PhaseSum(rng.unit, d, k + 1))
      {
        var step := rng.Uniform(0.0, 10.0);
        a := a + step;
        pts[i] := BgPoint(SpiralPos(i, env), a);
      }
    }

    /** `BgPoint::teleport` applied to point `i` in place, with the three
        draws it takes; every other point is untouched. The ghost
        parameters name the points and the draw count before the jump. */
    method TeleportAt(i: nat, rng: Rng, env: Env, ghost q: seq<BgPoint>, ghost e: nat)
      requires Valid() && rng.Valid() && i < points.Length
      requires q == points[..] && e == rng.drawn
      modifies points, rng
      ensures rng.drawn == e + TELEPORT_DRAWS
      ensures points[..] == q[i := Teleport(q[i], rng.unit, e, env)]
    {
      var p := points[i];
      var dir := rng.Uniform(0.0, 360.0);
      var dist := rng.Uniform(10.0, 20.0);
      var jump := rng.Uniform(10.0, 20.0);
      points[i] := BgPoint(p.pos.Plus(env.fromAngle(dir).Times(dist)), p.angle + jump);
    }

    /** `Background::update`: every phase angle advances by the same
        amount, `log2(score + 2)`; positions and the count are untouched. */
    method Update(score: nat, env: Env)
      requires Valid()
      modifies points
      ensures forall i :: 0 <= i < points.Length ==>
        points[i] == old(points[i]).(angle := old(points[i].angle) + PhaseStep(score, env))
      ensures Ascending(old(points[..])) ==> Ascending(points[..])
    {
      var step := PhaseStep(score, env);
      for i := 0 to points.Length
        invariant forall k :: 0 <= k < i ==> points[k] == old(points[k]).(angle := old(points[k].angle) + step)
        invariant forall k :: i <= k < points.Length ==> points[k] == old(points[k])
      {
        points[i] := points[i].(angle := points[i].angle + step);
      }
    }

    /** One pass of the loop in `Background::chaos`: one draw picks a
        point and the three after it teleport that point, which takes the
        scatter of `pts0` from `n` jumps to `n + 1`. */
    method Jump(rng: Rng, env: Env, ghost pts0: seq<BgPoint>, ghost d: nat, ghost n: nat) returns (i: nat)
      requires Valid() && rng.Valid() && |pts0| == POINTS
      requires rng.drawn == d + n * (1 + TELEPORT_DRAWS) && points[..] == Scatter(pts0, rng.unit, d, n, env)
      modifies points, rng
      ensures rng.drawn == d + (n + 1) * (1 + TELEPORT_DRAWS)
      ensures Picks(rng.unit, d, n + 1, POINTS) == Picks(rng.unit, d, n, POINTS) + [i]
      ensures points[..] == Scatter(pts0, rng.unit, d, n + 1, env)
    {
      ghost var e, q := rng.drawn, points[..];
      i := rng.Index(points.Length);
      JumpStep(pts0, rng.unit, d, n, e, i, env);
      TeleportAt(i, rng, env, q, e + 1);
    }

    /** `Background::chaos`: four jumps, each teleporting the point at an
        index drawn uniformly from the whole list (`ScatterKeeps` and
        `ScatterRaises` say what that does to the points). */
    method Chaos(rng: Rng, env: Env) returns (ghost picked: seq<nat>)
      requires Valid() && rng.Valid()
      modifies points, rng
      ensures rng.drawn == old(rng.drawn) + CHAOS_JUMPS * (1 + TELEPORT_DRAWS)
      ensures picked == Picks(rng.unit, old(rng.drawn), CHAOS_JUMPS, POINTS)
      ensures points[..] == Scatter(old(points[..]), rng.unit, old(rng.drawn), CHAOS_JUMPS, env)
    {
      ghost var pts0 := points[..];
      var d := rng.drawn;
      picked := [];
      for n := 0 to CHAOS_JUMPS
        invariant rng.drawn == d + n * (1 + TELEPORT_DRAWS)
        invariant picked == Picks(rng.unit, d, n, POINTS)
        invariant points[..] == Scatter(pts0, rng.unit, d, n, env)
      {
        var i := Jump(rng, env, pts0, d, n);
        picked := picked + [i];
      }
    }
  }

  /** A step of length `dist` in [10, 20) along a unit vector has squared
      length `dist * dist`, so it moves a point by a squared distance in
      [100, 400). */
  lemma JumpLength(from: Vec, step: Vec, dir: Vec, dist: real)
    requires step == dir.Times(dist) && 10.0 <= dist < 20.0
    ensures dir.Len2() == 1.0 ==> 100.0 <= from.Plus(step).Minus(from).Len2() < 400.0
  {
    assert from.Plus(step).Minus(from) == step;
    ScaleLen2(dir, dist);
    assert 100.0 <= dist * dist < 400.0 by {
      assert 10.0 * 10.0 <= 10.0 * dist <= dist * dist;
      assert dist * dist < 20.0 * dist < 20.0 * 20.0;
    }
  }
}
