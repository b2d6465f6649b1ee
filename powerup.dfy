// Power-ups (src/powerup.rs): bouncing pick-ups with a limited number of
// wall hits that improve one of the player's stats when touched.

module Powers {
  datatype Power = LifeUp | PierceUp | ShotUp
}

module PowerUps {
  import opened Geometry
  import opened Random
  import opened Particles
  import opened Powers
  import opened Games

  const START_HITS: int := 5
  const POWERUP_RADIUS: real := 20.0
  /** How far beyond the screen edges a spawn position may be drawn. */
  const SPAWN_MARGIN: real := 100.0

  /** `PowerUp::color`: one colour per kind of power. */
  function PowerColor(power: Power): (c: Color)
    ensures c.Hex? && |c.code| == 7 && c.code[0] == '#'
  {
    match power
    case LifeUp => Hex("#26A65B")
    case PierceUp => Hex("#BF55EC")
    case ShotUp => Hex("#F22613")
  }

  /** The n-th spawn position `PowerUp::new` tries, made of the two uniform
      draws following the first `start` draws. Both coordinates are drawn
      from [-100, SIZE.x + 100). */
  function Candidate(rng: Rng, start: nat, n: nat, env: Env): Vec
    requires rng.Valid() && env.size.x > -2.0 * SPAWN_MARGIN
  {
    var hi := env.size.x + SPAWN_MARGIN;
    Vec(Scaled(rng.unit(start + 2 * n), -SPAWN_MARGIN, hi),
        Scaled(rng.unit(start + 2 * n + 1), -SPAWN_MARGIN, hi))
  }

  /** The positions drawn before the last one all lay on the screen. */
  lemma MissesGrow(rng: Rng, start: nat, n: nat, env: Env)
    requires rng.Valid() && env.size.x > -2.0 * SPAWN_MARGIN
    requires forall m: nat :: m + 1 < n ==> env.inScreen(Candidate(rng, start, m, env))
    requires n > 0 ==> env.inScreen(Candidate(rng, start, n - 1, env))
    ensures forall m: nat :: m + 1 < n + 1 ==> env.inScreen(Candidate(rng, start, m, env))
  {
  }

  /** A wall bounce on one axis: past the low edge still moving down, or
      past the high edge still moving up. */
  predicate Bounces(p: real, v: real, hi: real) {
    (p < 0.0 && v < 0.0) || (p > hi && v > 0.0)
  }

  class PowerUp {
    var pos: Vec
    var vel: Vec
    var power: Power
    /** Wall hits left before the power-up disappears. */
    var hits: int
    var radius: real
    /** Ticks since spawning. */
    var t: real
    /** How many passes the spawning loop of `PowerUp::new` made. */
    ghost var spawnPasses: nat

    /** The spawning loop of `PowerUp::new`: starting from (1, 1), draw
        positions until one lies off the screen. It ends as long as the
        stream eventually yields such a position. */
    static method SpawnPosition(rng: Rng, env: Env) returns (pos: Vec, ghost tries: nat)
      requires rng.Valid() && env.size.x > -2.0 * SPAWN_MARGIN
      requires env.inScreen(ONE) ==> exists n: nat :: !env.inScreen(Candidate(rng, rng.drawn, n, env))
      modifies rng
      ensures !env.inScreen(pos)
      ensures rng.drawn == old(rng.drawn) + 2 * tries
      ensures tries == 0 ==> pos == ONE
      ensures tries > 0 ==> env.inScreen(ONE) && pos == Candidate(rng, old(rng.drawn), tries - 1, env)
      ensures forall m: nat :: m + 1 < tries ==> env.inScreen(Candidate(rng, old(rng.drawn), m, env))
    {
      var d0 := rng.drawn;
      ghost var bound: nat := 0;
      if env.inScreen(ONE) {
        bound :| !env.inScreen(Candidate(rng, d0, bound, env));
      }
      pos := ONE;
      tries := 0;
      ghost var last: nat := 0;
      while env.inScreen(pos)
        invariant rng.drawn == d0 + 2 * tries
        invariant tries == 0 ==> pos == ONE
        invariant tries > 0 ==> env.inScreen(ONE) && tries == last + 1 && pos == Candidate(rng, d0, last, env)
        invariant forall m: nat :: m + 1 < tries ==> env.inScreen(Candidate(rng, d0, m, env))
        invariant env.inScreen(ONE) ==> !env.inScreen(Candidate(rng, d0, bound, env))
        invariant tries <= bound + 1
        decreases bound + 1 - tries
      {
        MissesGrow(rng, d0, tries, env);
        pos := Attempt(rng, env, d0, tries);
        last, tries := tries, tries + 1;
      }
    }

    /** One pass of the spawning loop: both coordinates drawn from
        [-100, SIZE.x + 100). */
    static method Attempt(rng: Rng, env: Env, ghost start: nat, ghost n: nat) returns (pos: Vec)
      requires rng.Valid() && env.size.x > -2.0 * SPAWN_MARGIN
      requires rng.drawn == start + 2 * n
      modifies rng
      ensures rng.drawn == old(rng.drawn) + 2
      ensures pos == Candidate(rng, start, n, env)
    {
      var hi := env.size.x + SPAWN_MARGIN;
      var x := rng.Uniform(-SPAWN_MARGIN, hi);
      var y := rng.Uniform(-SPAWN_MARGIN, hi);
      pos := Vec(x, y);
    }

    /** `PowerUp::new`: an off-screen power-up with five wall hits, moving
        in a uniformly drawn direction at a normally distributed speed. */
    constructor (power: Power, rng: Rng, env: Env)
      requires rng.Valid() && env.size.x > -2.0 * SPAWN_MARGIN
      requires env.inScreen(ONE) ==> exists n: nat :: !env.inScreen(Candidate(rng, rng.drawn, n, env))
      modifies rng
      ensures !env.inScreen(pos)
      ensures this.power == power && hits == START_HITS && radius == POWERUP_RADIUS && t == 0.0
      ensures rng.drawn == old(rng.drawn) + 2 * spawnPasses + 2
      ensures spawnPasses == 0 ==> pos == ONE
      ensures spawnPasses > 0 ==> env.inScreen(ONE) && pos == Candidate(rng, old(rng.drawn), spawnPasses - 1, env)
      ensures forall m: nat :: m + 1 < spawnPasses ==> env.inScreen(Candidate(rng, old(rng.drawn), m, env))
      ensures var d := rng.drawn - 2;
        vel == env.fromAngle(Scaled(rng.unit(d), 0.0, 360.0)).Times(20.0 + 8.0 * rng.gauss(d + 1))
    {
      var p, tries := SpawnPosition(rng, env);
      ghost var d := rng.drawn;
      var angle := rng.Uniform(0.0, 360.0);
      var length := rng.Normal(20.0, 8.0);
      assert rng.drawn - 2 == d;
      pos := p;
      vel := env.fromAngle(angle).Times(length);
      this.power := power;
      hits := START_HITS;
      radius := POWERUP_RADIUS;
      t := 0.0;
      spawnPasses := tries;
    }

    /** `PowerUp::particles`: four particles, one in each of the directions
        0, 90, 180 and 270 degrees, starting where the power-up will be next. */
    method Particles(rng: Rng) returns (ps: seq<Particle>)
      modifies rng
      ensures rng.drawn == old(rng.drawn) + 4
      ensures |ps| == 4
      ensures forall u :: 0 <= u < 4 ==>
        ps[u].angle == u as real * 90.0 && ps[u].pos == pos.Plus(vel) &&
        ps[u].shape == Circle(3.0) && ps[u].color == PowerColor(power) &&
        ps[u].speed == 8.0 + 2.0 * rng.gauss(old(rng.drawn) + u)
    {
      ps := [];
      for u := 0 to 4
        invariant rng.drawn == old(rng.drawn) + u
        invariant |ps| == u
        invariant forall k :: 0 <= k < u ==>
          ps[k].angle == k as real * 90.0 && ps[k].pos == pos.Plus(vel) &&
          ps[k].shape == Circle(3.0) && ps[k].color == PowerColor(power) &&
          ps[k].speed == 8.0 + 2.0 * rng.gauss(old(rng.drawn) + k)
      {
        var speed := rng.Normal(8.0, 2.0);
        ps := ps + [Particle(pos.Plus(vel), speed, u as real * 90.0, Circle(3.0), PowerColor(power))];
      }
    }

    /** `PowerUp::update`: one tick of motion, wall bounces (each reflects
        one velocity component and costs one hit), and pick-up by the
        player, which spends the whole budget and applies the power once. */
    method Update(player: Player, env: Env)
      modifies this, player
      ensures t == old(t) + 1.0
      ensures pos == old(pos).Plus(old(vel)) && power == old(power) && radius == old(radius)
      ensures var bounceX := Bounces(pos.x, old(vel.x), env.size.x);
        vel.x == (if bounceX then -old(vel.x) else old(vel.x))
      ensures var bounceY := Bounces(pos.y, old(vel.y), env.size.y);
        vel.y == (if bounceY then -old(vel.y) else old(vel.y))
      ensures var touched := Closer(pos, player.pos, radius + player.radius);
        var lost := (if Bounces(pos.x, old(vel.x), env.size.x) then 1 else 0)
                  + (if Bounces(pos.y, old(vel.y), env.size.y) then 1 else 0);
        && (touched ==> hits == 0)
        && (!touched ==> hits == old(hits) - lost)
        && player.received == old(player.received) + (if touched then [power] else [])
      ensures player.pos == old(player.pos) && player.radius == old(player.radius)
      ensures old(hits) >= 0 ==> hits <= old(hits)
      ensures hits == 0 || old(hits) - 2 <= hits
    {
      t := t + 1.0;
      pos := pos.Plus(vel);

      if Bounces(pos.x, vel.x, env.size.x) {
        vel := vel.(x := -vel.x);
        hits := hits - 1;
      }

      if Bounces(pos.y, vel.y, env.size.y) {
        vel := vel.(y := -vel.y);
        hits := hits - 1;
      }

      if Closer(pos, player.pos, radius + player.radius) {
        hits := 0;
        player.ApplyPower(power);
      }
    }
  }
}
