// Shots fired by the player (src/shot.rs).

module Shots {
  import opened Geometry
  import opened Random
  import opened Particles

  const SHOT_RADIUS: real := 15.0
  const LASER_RADIUS: real := 25.0
  const LASER_PIERCE: int := 1000

  class Shot {
    var pos: Vec
    var vel: Vec
    var radius: real
    var alive: bool
    /** Remaining number of enemies this shot may still damage (`i32`). */
    var pierce: int
    var damage: int
    var laser: bool

    /** `Shot::new`: an ordinary live shot. */
    constructor (pos: Vec, vel: Vec, pierce: int, damage: int)
      ensures this.pos == pos && this.vel == vel
      ensures this.pierce == pierce && this.damage == damage
      ensures radius == SHOT_RADIUS && alive && !laser
    {
      this.pos := pos;
      this.vel := vel;
      radius := SHOT_RADIUS;
      alive := true;
      this.pierce := pierce;
      this.damage := damage;
      laser := false;
    }

    /** `Shot::laser`: twice the shot speed along `angle`, wide, and all but
        unstoppable. */
    constructor Laser(pos: Vec, angle: real, damage: int, env: Env)
      ensures this.pos == pos && vel == env.fromAngle(angle).Times(env.shotSpeed * 2.0)
      ensures pierce == LASER_PIERCE && this.damage == damage
      ensures radius == LASER_RADIUS && alive && laser
    {
      this.pos := pos;
      vel := env.fromAngle(angle).Times(env.shotSpeed * 2.0);
      radius := LASER_RADIUS;
      alive := true;
      pierce := LASER_PIERCE;
      this.damage := damage;
      laser := true;
    }

    /** The trail shape: lasers keep a fixed long shard, other shots a shard
        whose size grows with the remaining pierce. */
    function TrailShape(): (s: Shape)
      reads this
      ensures s.Shard? && s.fade == laser
      ensures !laser ==> s.size == -0.7 - 0.3 * pierce as real
    {
      if laser then Shard(-1.5, 5.0, true) else Shard(-0.7 - 0.3 * pierce as real, 3.0, false)
    }

    /** `Shot::particles`: exactly one trail particle, pointing backwards. */
    method Particles(rng: Rng, env: Env) returns (ps: seq<Particle>)
      modifies rng
      ensures rng.drawn == old(rng.drawn) + 1
      ensures |ps| == 1
      ensures ps[0].pos == pos && ps[0].angle == 180.0 + env.angleOf(vel)
      ensures ps[0].speed == 15.0 + rng.gauss(old(rng.drawn))
      ensures ps[0].shape == TrailShape() && ps[0].color == WHITE
    {
      var speed := rng.Normal(15.0, 1.0);
      ps := [Particle(pos, speed, 180.0 + env.angleOf(vel), TrailShape(), WHITE)];
    }

    /** `Shot::update`: move one step; a shot dies when it leaves the
        screen or runs out of pierce, and never comes back to life. */
    method Update(env: Env)
      modifies this`pos, this`alive
      ensures pos == old(pos).Plus(vel)
      ensures alive == (old(alive) && env.inScreen(pos) && pierce > 0)
      ensures !old(alive) ==> !alive
      ensures pierce <= 0 || !env.inScreen(pos) ==> !alive
    {
      pos := pos.Plus(vel);
      alive := alive && env.inScreen(pos) && pierce > 0;
    }
  }
}
