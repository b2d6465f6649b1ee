// Enemies (src/enemy.rs): circles that home in on the player, lose life to
// overlapping shots, get knocked back and briefly invincible on every hit,
// and split into two smaller enemies when they die.

module Enemies {
  import opened Geometry
  import opened Random
  import opened Particles
  import opened Shots
  import opened Backgrounds
  import opened Games

  const KNOCK_BACK: real := 50.0
  const KNOCK_DAMP: real := 0.8
  const INVINCIBLE_FRAMES: nat := 4
  /** Turn rate: the share of the angular difference closed per update. */
  const TURN_RATE: real := 0.09
  const ACCELERATION: real := 0.4
  /** Opening angle between the two children of a split, either side. */
  const SPLIT_ANGLE: real := 30.0

  /** `u32` levels. */
  const U32_LIMIT: int := 0x1_0000_0000

  const PALETTE: seq<Color> := [
    Named("PURPLE"), Named("INDIGO"), Named("MAGENTA"), Named("BLUE"),
    Named("GREEN"), Named("ORANGE"), Named("RED")
  ]

  /** The shard every hit scatters, and its colour. */
  const HIT_SHARD: Shape := Shard(0.2, 3.0, true)
  const HIT_COLOR: Color := Alpha(WHITE, 0.8)
  const DOT: Shape := Circle(3.0)

  /** Draws one `Background::chaos` takes: an index and a teleport per jump. */
  const CHAOS_DRAWS: nat := CHAOS_JUMPS * (1 + TELEPORT_DRAWS)

  function IntMin(a: int, b: int): int { if a <= b then a else b }

  /** Reinterpreting the low 32 bits of `v` as an `i32` (`as i32`). */
  function ToI32(v: int): (r: int)
    ensures -0x8000_0000 <= r < 0x8000_0000
    ensures 0 <= v < 0x8000_0000 ==> r == v
  {
    var w := v % U32_LIMIT;
    if w < 0x8000_0000 then w else w - U32_LIMIT
  }

  /** A float-to-`i32` cast, which saturates at the bounds of `i32`. */
  function SaturateI32(v: int): (r: int)
    ensures -0x8000_0000 <= r < 0x8000_0000
    ensures -0x8000_0000 <= v < 0x8000_0000 ==> r == v
  {
    if v < -0x8000_0000 then -0x8000_0000 else if v >= 0x8000_0000 then 0x7fff_ffff else v
  }

  /** The starting life of an enemy of a level: `(level * level) as i32`,
      the `u32` square (wrapping) reinterpreted as an `i32`. */
  function InitialLife(level: nat): (life: int)
    requires level < U32_LIMIT
    ensures level * level < 0x8000_0000 ==> life == level * level
    ensures 0 < level && level * level < 0x8000_0000 ==> life > 0
  {
    ToI32((level * level) % U32_LIMIT)
  }

  /** The colour of a level: the palette taken cyclically. */
  function PaletteColor(level: nat): (c: Color)
    ensures c in PALETTE
    ensures c == PALETTE[level % 7]
  {
    PALETTE[level % |PALETTE|]
  }

  function InitialRadius(level: nat): real {
    level as real * 5.0 + 30.0
  }

  /** The angular difference `((to - from) % 360 + 540) % 360 - 180` the
      enemy turns by: the representative of `to - from`, modulo whole turns,
      in [-180, 180). */
  function AngularDiff(from: real, to: real): (d: real)
    ensures -180.0 <= d < 180.0
    ensures WholeTurns(to - from - d)
  {
    var r1 := Rem360(to - from);
    var r2 := Rem360(r1 + 540.0);
    TurnsBetween(to - from, r1, r2);
    r2 - 180.0
  }

  /** The heading after one update's turn from `angle` towards `target`:
      9% of the angular difference, taken `% 360`. It stays within a turn of
      zero and moves by at most 9% of a half turn. */
  function Turned(angle: real, target: real): (a: real)
    ensures -360.0 < a < 360.0
    ensures WholeTurns(angle + TURN_RATE * AngularDiff(angle, target) - a)
  {
    var d := AngularDiff(angle, target);
    var r := Rem360(angle + TURN_RATE * d);
    WholeRemainder(angle + TURN_RATE * d, r);
    r
  }

  /** Taking `% 360` removes a whole number of turns. */
  lemma WholeRemainder(x: real, r: real)
    requires r == Rem360(x)
    ensures WholeTurns(x - r)
  {
    var t := Trunc(x / 360.0);
    assert x - r == 360.0 * (t as real);
    assert (x - r) / 360.0 == t as real;
  }

  /** `x` is a whole number of turns. */
  predicate WholeTurns(x: real) {
    (x / 360.0).Floor as real == x / 360.0
  }

  lemma TurnsBetween(x: real, r1: real, r2: real)
    requires r1 == Rem360(x) && r2 == Rem360(r1 + 540.0)
    ensures WholeTurns(x - (r2 - 180.0))
  {
    var t1 := Trunc(x / 360.0) as real;
    var t2 := Trunc((r1 + 540.0) / 360.0) as real;
    assert x - r1 == 360.0 * t1;
    assert r1 + 540.0 - r2 == 360.0 * t2;
    var n := Trunc(x / 360.0) + Trunc((r1 + 540.0) / 360.0) - 1;
    assert x - (r2 - 180.0) == 360.0 * (n as real);
    assert (x - (r2 - 180.0)) / 360.0 == n as real;
  }

  /** What one shot does to the enemy in the hit loop: whether it lands
      (the enemy is open to hits, the shot has pierce left and the two
      circles overlap), the damage it carries, and its heading. */
  datatype Strike = Strike(hit: bool, damage: int, heading: real)

  function StrikeOf(s: Shot, pos: Vec, radius: real, open: bool, env: Env): Strike
    reads s
  {
    Strike(open && s.pierce > 0 && Overlaps(s.pos, s.radius, pos, radius), s.damage, env.angleOf(s.vel))
  }

  /** The strikes of a list of shots, shot by shot, as they stand before
      the hit loop. Whether a shot lands does not depend on the hits before
      it: the loop changes neither the enemy's position nor any other shot. */
  function Strikes(shots: seq<Shot>, pos: Vec, radius: real, open: bool, env: Env): (st: seq<Strike>)
    reads set s | s in shots
    ensures |st| == |shots|
    ensures forall i {:trigger st[i]} :: 0 <= i < |shots| ==> st[i] == StrikeOf(shots[i], pos, radius, open, env)
  {
    if shots == [] then []
    else Strikes(shots[..|shots| - 1], pos, radius, open, env)
         + [StrikeOf(shots[|shots| - 1], pos, radius, open, env)]
  }

  /** The pierce of each shot. */
  function Pierces(shots: seq<Shot>): (ps: seq<int>)
    reads set s | s in shots
    ensures |ps| == |shots|
    ensures forall i {:trigger ps[i]} :: 0 <= i < |shots| ==> ps[i] == shots[i].pierce
  {
    if shots == [] then [] else Pierces(shots[..|shots| - 1]) + [shots[|shots| - 1].pierce]
  }

  /** The pierce of each shot once the first `i` strikes are taken: one
      less for each that landed. Every shot spends at most one pierce, a
      shot met so far spends one exactly when its strike landed, and the
      shots not yet met keep theirs. */
  function Spent(pierce0: seq<int>, st: seq<Strike>, i: nat): (ps: seq<int>)
    requires |st| == |pierce0| && i <= |st|
    ensures |ps| == |pierce0|
    ensures forall k :: 0 <= k < |ps| ==> pierce0[k] - 1 <= ps[k] <= pierce0[k]
    ensures forall k :: 0 <= k < i ==> (ps[k] < pierce0[k] <==> st[k].hit)
    ensures forall k :: i <= k < |ps| ==> ps[k] == pierce0[k]
  {
    seq(|pierce0|, k requires 0 <= k < |pierce0| => pierce0[k] - (if k < i && st[k].hit then 1 else 0))
  }

  /** Taking strike `i` spends one more pierce exactly when it lands. */
  lemma SpentStep(pierce0: seq<int>, st: seq<Strike>, i: nat)
    requires |st| == |pierce0| && i < |st|
    ensures Spent(pierce0, st, i)[i] == pierce0[i]
    ensures Spent(pierce0, st, i + 1) ==
      if st[i].hit then Spent(pierce0, st, i)[i := pierce0[i] - 1] else Spent(pierce0, st, i)
  {
  }

  /** The damage a hit deals: `min(damage, life)`. */
  function Dealt(damage: int, life: int): int {
    IntMin(damage, life)
  }

  /** Life left after the strikes, in order. */
  function LifeAfter(life: int, st: seq<Strike>): int {
    if st == [] then life
    else
      var l := LifeAfter(life, st[..|st| - 1]);
      var s := st[|st| - 1];
      if s.hit then l - Dealt(s.damage, l) else l
  }

  function HitCount(st: seq<Strike>): nat {
    if st == [] then 0 else HitCount(st[..|st| - 1]) + (if st[|st| - 1].hit then 1 else 0)
  }

  /** Shards a hit dealing `dmg` scatters: one per value of `0..=dmg`. */
  function BurstSize(dmg: int): nat {
    if dmg >= 0 then dmg + 1 else 0
  }

  /** Shards scattered by all the strikes. */
  function ShardCount(life: int, st: seq<Strike>): nat {
    if st == [] then 0
    else
      var l := LifeAfter(life, st[..|st| - 1]);
      var s := st[|st| - 1];
      ShardCount(life, st[..|st| - 1]) + (if s.hit then BurstSize(Dealt(s.damage, l)) else 0)
  }

  /** Draws the strikes take from the random stream: a chaos event and two
      per shard for every hit. */
  function DrawCount(life: int, st: seq<Strike>): nat {
    if st == [] then 0
    else
      var l := LifeAfter(life, st[..|st| - 1]);
      var s := st[|st| - 1];
      DrawCount(life, st[..|st| - 1]) + (if s.hit then CHAOS_DRAWS + 2 * BurstSize(Dealt(s.damage, l)) else 0)
  }

  /** Every hit draws sixteen values for the background and two per shard. */
  lemma {:induction false} DrawTotal(life: int, st: seq<Strike>)
    ensures DrawCount(life, st) == CHAOS_DRAWS * HitCount(st) + 2 * ShardCount(life, st)
  {
    if st != [] {
      DrawTotal(life, st[..|st| - 1]);
    }
  }

  /** Heading of the last shot that landed (`hit_angle`). */
  function LastHeading(st: seq<Strike>): real
    requires HitCount(st) > 0
  {
    var s := st[|st| - 1];
    if s.hit then s.heading else LastHeading(st[..|st| - 1])
  }

  ghost predicate Harmless(st: seq<Strike>) {
    forall i :: 0 <= i < |st| ==> st[i].damage >= 0
  }

  /** One more strike, as the hit loop takes it: what it adds to each
      count. */
  lemma StrikeStep(life: int, st: seq<Strike>, i: nat)
    requires i < |st|
    ensures var pre, s, l := st[..i], st[i], LifeAfter(life, st[..i]);
      && HitCount(st[..i + 1]) == HitCount(pre) + (if s.hit then 1 else 0)
      && LifeAfter(life, st[..i + 1]) == (if s.hit then l - Dealt(s.damage, l) else l)
      && ShardCount(life, st[..i + 1]) == ShardCount(life, pre) + (if s.hit then BurstSize(Dealt(s.damage, l)) else 0)
      && DrawCount(life, st[..i + 1]) == DrawCount(life, pre) + (if s.hit then CHAOS_DRAWS + 2 * BurstSize(Dealt(s.damage, l)) else 0)
      && (s.hit ==> LastHeading(st[..i + 1]) == s.heading)
      && (!s.hit && HitCount(pre) > 0 ==> LastHeading(st[..i + 1]) == LastHeading(pre))
  {
    assert st[..i + 1][..i] == st[..i];
  }

  /** Strikes none of which land change nothing. */
  lemma {:induction false} NoHits(life: int, st: seq<Strike>)
    requires forall i :: 0 <= i < |st| ==> !st[i].hit
    ensures HitCount(st) == 0 && LifeAfter(life, st) == life
    ensures ShardCount(life, st) == 0 && DrawCount(life, st) == 0
  {
    if st != [] {
      NoHits(life, st[..|st| - 1]);
    }
  }

  /** An enemy that is not open to hits is struck by no shot. */
  lemma ClosedStrikes(shots: seq<Shot>, pos: Vec, radius: real, env: Env, life: int)
    ensures var st := Strikes(shots, pos, radius, false, env);
      HitCount(st) == 0 && LifeAfter(life, st) == life && ShardCount(life, st) == 0 && DrawCount(life, st) == 0
  {
    NoHits(life, Strikes(shots, pos, radius, false, env));
  }

  /** With non-negative damage, life never grows and, from a non-negative
      start, never drops below zero. */
  lemma {:induction false} LifeBounds(life: int, st: seq<Strike>)
    requires Harmless(st) && life >= 0
    ensures 0 <= LifeAfter(life, st) <= life
  {
    if st != [] {
      LifeBounds(life, st[..|st| - 1]);
    }
  }

  /** Life only changes through hits: with no hit it is what it was. */
  lemma {:induction false} LifeNeedsHit(life: int, st: seq<Strike>)
    requires LifeAfter(life, st) != life
    ensures HitCount(st) > 0
  {
    if st != [] && HitCount(st) == 0 {
      assert !st[|st| - 1].hit;
      LifeNeedsHit(life, st[..|st| - 1]);
    }
  }

  /** The shards scattered count one per hit plus one per point of life
      taken: the damage dealt is exactly the life lost. */
  lemma {:induction false} ShardTotal(life: int, st: seq<Strike>)
    requires Harmless(st) && life >= 0
    ensures ShardCount(life, st) == HitCount(st) + (life - LifeAfter(life, st))
  {
    if st != [] {
      var pre := st[..|st| - 1];
      ShardTotal(life, pre);
      LifeBounds(life, pre);
    }
  }

  /** A spent enemy still soaks up shots: every hit on an enemy with no
      life left deals nothing, yet scatters one shard. */
  lemma SpentEnemy(st: seq<Strike>)
    requires Harmless(st)
    ensures LifeAfter(0, st) == 0 && ShardCount(0, st) == HitCount(st)
  {
    LifeBounds(0, st);
    ShardTotal(0, st);
  }

  /** Repeated exponent. */
  function Pow(b: real, n: nat): real {
    if n == 0 then 1.0 else b * Pow(b, n - 1)
  }

  /** The knockback a kick decays to after `k` updates. */
  function Damped(kick: Vec, k: nat): Vec {
    if k == 0 then kick else Damped(kick, k - 1).Times(KNOCK_DAMP)
  }

  /** The length the source compares with: `KNOCK_BACK * KNOCK_DAMP^4 * 0.99`,
      the length of a fresh kick after four updates, with a 1% margin. */
  const INVINCIBLE_BOUND: real := KNOCK_BACK * Pow(KNOCK_DAMP, INVINCIBLE_FRAMES) * 0.99

  /** `Enemy::invincible` as written: the SQUARED length of the knockback
      compared with a LENGTH. */
  predicate InvincibleAsWritten(knockback: Vec) {
    knockback.Len2() >= INVINCIBLE_BOUND
  }

  /** The check the constant describes: the knockback is at least as long
      as the bound, i.e. its squared length at least the squared bound. */
  predicate Invincible(knockback: Vec) {
    knockback.Len2() >= INVINCIBLE_BOUND * INVINCIBLE_BOUND
  }

  /** `(KNOCK_DAMP^2)^k`: the factor by which `k` updates shrink a squared
      knockback length. */
  function Decay(k: nat): real {
    Pow(KNOCK_DAMP * KNOCK_DAMP, k)
  }

  lemma DecayStep(k: nat)
    ensures Decay(k + 1) == 0.64 * Decay(k)
  {
  }

  /** The values the invincibility windows turn on. */
  lemma DecayTable()
    ensures Decay(4) == 0.16777216 && Decay(5) == 0.1073741824
    ensures Decay(10) == 0.0115292150460684697600 && Decay(11) == 0.007378697629483820646400
  {
    DecayStep(0); DecayStep(1); DecayStep(2); DecayStep(3); DecayStep(4); DecayStep(5);
    DecayStep(6); DecayStep(7); DecayStep(8); DecayStep(9); DecayStep(10);
  }

  lemma {:induction false} DampedLen2(kick: Vec, k: nat)
    ensures Damped(kick, k).Len2() == Decay(k) * kick.Len2()
  {
    if k > 0 {
      DampedLen2(kick, k - 1);
      ScaleLen2(Damped(kick, k - 1), KNOCK_DAMP);
    }
  }

  lemma {:induction false} DecayShrinks(j: nat, k: nat)
    requires j <= k
    ensures 0.0 < Decay(k) <= Decay(j)
  {
    if j < k {
      DecayShrinks(j, k - 1);
    } else if k > 0 {
      DecayShrinks(0, k - 1);
    }
  }

  /** As written, a fresh kick keeps the enemy invincible for the ten
      updates after the hit, not for `INVINCIBLE_FRAMES`. */
  lemma InvincibleWindowAsWritten(kick: Vec, k: nat)
    requires kick.Len2() == KNOCK_BACK * KNOCK_BACK
    ensures InvincibleAsWritten(Damped(kick, k)) <==> k <= 10
  {
    DampedLen2(kick, k);
    DecayTable();
    assert INVINCIBLE_BOUND == 20.2752;
    if k <= 10 {
      DecayShrinks(k, 10);
    } else {
      DecayShrinks(11, k);
    }
  }

  /** Five updates after a hit the enemy, as written, is still invincible,
      although the knockback is down to a third of the bound's length. */
  lemma FifthUpdateAsWritten(kick: Vec)
    requires kick.Len2() == KNOCK_BACK * KNOCK_BACK
    ensures InvincibleAsWritten(Damped(kick, INVINCIBLE_FRAMES + 1))
    ensures !Invincible(Damped(kick, INVINCIBLE_FRAMES + 1))
  {
    InvincibleWindowAsWritten(kick, INVINCIBLE_FRAMES + 1);
    InvincibleWindow(kick, INVINCIBLE_FRAMES + 1);
  }

  /** With the corrected check a fresh kick keeps the enemy invincible for
      exactly `INVINCIBLE_FRAMES` updates. */
  lemma InvincibleWindow(kick: Vec, k: nat)
    requires kick.Len2() == KNOCK_BACK * KNOCK_BACK
    ensures Invincible(Damped(kick, k)) <==> k <= INVINCIBLE_FRAMES
  {
    DampedLen2(kick, k);
    DecayTable();
    assert INVINCIBLE_BOUND * INVINCIBLE_BOUND == 411.08373504;
    if k <= 4 {
      DecayShrinks(k, 4);
    } else {
      DecayShrinks(5, k);
    }
  }

  /** The kick a hit gives, `from_angle(a) * KNOCK_BACK`, keeps the enemy
      invincible for exactly the `INVINCIBLE_FRAMES` updates after the hit
      when `from_angle` gives unit vectors. */
  lemma HitKickWindow(env: Env, a: real, k: nat)
    requires UnitCircle(env)
    ensures Invincible(Damped(env.fromAngle(a).Times(KNOCK_BACK), k)) <==> k <= INVINCIBLE_FRAMES
  {
    ScaleLen2(env.fromAngle(a), KNOCK_BACK);
    InvincibleWindow(env.fromAngle(a).Times(KNOCK_BACK), k);
  }

  /** Particles that are all hit shards scattered from `at`. */
  ghost predicate ShardsAt(ps: seq<Particle>, at: Vec) {
    forall p :: p in ps ==> p.pos == at && p.shape == HIT_SHARD && p.color == HIT_COLOR
  }

  /** An enemy's heading, speed and position. */
  datatype Motion = Motion(angle: real, speed: real, pos: Vec)

  /** One frame of movement: turn 9% of the way towards `target`,
      accelerate by 0.4 up to `top`, advance along the new heading at the
      new speed, then add the damped knockback `kb`. The speed never
      exceeds `top`, and below it grows by exactly 0.4. */
  function Moved(m: Motion, kb: Vec, top: real, target: Vec, env: Env): (r: Motion)
    ensures r.angle == Turned(m.angle, env.angleOf(target.Minus(m.pos)))
    ensures r.speed <= top && (m.speed + ACCELERATION <= top ==> r.speed == m.speed + ACCELERATION)
    ensures m.speed <= top ==> m.speed <= r.speed
  {
    var angle := Turned(m.angle, env.angleOf(target.Minus(m.pos)));
    var speed := Min(m.speed + ACCELERATION, top);
    Motion(angle, speed, m.pos.Plus(env.fromAngle(angle).Times(speed)).Plus(kb))
  }

  /** Everything the hit loop changes: the pierce of each shot, the
      enemy's life and knockback, the screen shake, the random draws taken
      and the game's particle list. */
  datatype Tally = Tally(pierce: seq<int>, life: int, knockback: Vec, shake: int, drawn: int, particles: seq<Particle>)

  /** One landed hit on tally `t`: shot `i` spends a pierce, `dmg` life
      is lost, the knockback follows `heading`, the screen shakes once,
      the background's scatter and the shards take their draws, and the
      shards `added` join the particles. */
  function Landed(t: Tally, i: nat, dmg: int, heading: real, added: seq<Particle>, env: Env): Tally
    requires i < |t.pierce|
  {
    Tally(t.pierce[i := t.pierce[i] - 1], t.life - dmg, env.fromAngle(heading).Times(KNOCK_BACK),
          t.shake + 1, t.drawn + CHAOS_DRAWS + 2 * BurstSize(dmg), t.particles + added)
  }

  /** The tally once the first `i` strikes of `st` are taken from `t0`,
      with `shards` the shards they scattered. */
  function Tallied(t0: Tally, st: seq<Strike>, i: nat, shards: seq<Particle>, env: Env): Tally
    requires |st| == |t0.pierce| && i <= |st|
  {
    var done := st[..i];
    Tally(Spent(t0.pierce, st, i), LifeAfter(t0.life, done),
          if HitCount(done) == 0 then t0.knockback else env.fromAngle(LastHeading(done)).Times(KNOCK_BACK),
          t0.shake + HitCount(done), t0.drawn + DrawCount(t0.life, done), t0.particles + shards)
  }

  /** Taking strike `i` moves the tally by one landed hit if it lands and
      leaves it alone if it misses. */
  lemma TallyStep(t0: Tally, st: seq<Strike>, i: nat, shards: seq<Particle>, added: seq<Particle>, env: Env)
    requires |st| == |t0.pierce| && i < |st|
    ensures var t := Tallied(t0, st, i, shards, env);
      && t.pierce[i] == t0.pierce[i]
      && (st[i].hit ==> Tallied(t0, st, i + 1, shards + added, env)
                          == Landed(t, i, Dealt(st[i].damage, t.life), st[i].heading, added, env))
      && (!st[i].hit ==> Tallied(t0, st, i + 1, shards, env) == t)
  {
    StrikeStep(t0.life, st, i);
    SpentStep(t0.pierce, st, i);
    assert t0.particles + shards + added == t0.particles + (shards + added);
  }

  class Enemy {
    var pos: Vec
    var speed: real
    var angle: real
    var radius: real
    var level: nat
    var life: int
    var knockback: Vec
    var color: Color

    /** `level` is a `u32`. */
    ghost predicate Valid()
      reads this
    {
      level < U32_LIMIT
    }

    /** `Enemy::alive`. */
    predicate Alive()
      reads this
    {
      life > 0
    }

    /** `Enemy::new_kb`: a still enemy of the given level and knockback,
        with the level's life, size and palette colour. */
    constructor NewKb(pos: Vec, level: nat, knockback: Vec)
      requires level < U32_LIMIT
      ensures Valid()
      ensures this.pos == pos && this.level == level && this.knockback == knockback
      ensures speed == 0.0 && angle == 0.0
      ensures life == InitialLife(level) && radius == InitialRadius(level)
      ensures color == PaletteColor(level)
    {
      this.pos := pos;
      speed := 0.0;
      angle := 0.0;
      this.level := level;
      life := InitialLife(level);
      radius := InitialRadius(level);
      this.knockback := knockback;
      color := PaletteColor(level);
    }

    /** `Enemy::new`: `new_kb` without knockback. */
    static method New(pos: Vec, level: nat) returns (e: Enemy)
      requires level < U32_LIMIT
      ensures fresh(e) && e.Valid()
      ensures e.pos == pos && e.level == level && e.knockback == ZERO
      ensures e.speed == 0.0 && e.angle == 0.0
      ensures e.life == InitialLife(level) && e.radius == InitialRadius(level)
      ensures e.color == PaletteColor(level)
    {
      e := new Enemy.NewKb(pos, level, ZERO);
    }

    /** The movement half of `Enemy::update`: turn 9% of the way towards
        the player, accelerate up to the level's top speed, advance, then
        decay the knockback and add it. */
    method Move(target: Vec, env: Env)
      modifies this`angle, this`speed, this`pos, this`knockback
      ensures knockback == old(knockback).Times(KNOCK_DAMP)
      ensures Motion(angle, speed, pos) == old(Moved(Motion(angle, speed, pos), knockback.Times(KNOCK_DAMP), 4.0 + level as real, target, env))
    {
      angle := Turned(angle, env.angleOf(target.Minus(pos)));
      speed := Min(speed + ACCELERATION, 4.0 + level as real);
      pos := pos.Plus(env.fromAngle(angle).Times(speed));
      knockback := knockback.Times(KNOCK_DAMP);
      pos := pos.Plus(knockback);
    }

    /** The shards one hit scatters: for each value of `0..=dmg`, a faded
        white shard at `at` with a speed drawn from N(60, 12) and then a
        heading drawn from N(a, 40). */
    static method Burst(game: Game, at: Vec, a: real, dmg: int) returns (ghost burst: seq<Particle>)
      modifies game`particles, game.rng
      ensures game.rng.drawn == old(game.rng.drawn) + 2 * BurstSize(dmg)
      ensures game.particles == old(game.particles) + burst
      ensures |burst| == BurstSize(dmg) && ShardsAt(burst, at)
      ensures forall j :: 0 <= j < BurstSize(dmg) ==>
        var d := old(game.rng.drawn) + 2 * j;
        burst[j] == Particle(at, 60.0 + 12.0 * game.rng.gauss(d), a + 40.0 * game.rng.gauss(d + 1), HIT_SHARD, HIT_COLOR)
    {
      var made: seq<Particle> := [];
      var rng := game.rng;
      var d0 := rng.drawn;
      for j := 0 to BurstSize(dmg)
        invariant rng.drawn == d0 + 2 * j
        invariant |made| == j
        invariant forall k :: 0 <= k < j ==>
          made[k] == Particle(at, 60.0 + 12.0 * rng.gauss(d0 + 2 * k), a + 40.0 * rng.gauss(d0 + 2 * k + 1), HIT_SHARD, HIT_COLOR)
        modifies rng
      {
        var speed := rng.Normal(60.0, 12.0);
        assert speed == 60.0 + 12.0 * rng.gauss(d0 + 2 * j);
        var heading := rng.Normal(a, 40.0);
        assert heading == a + 40.0 * rng.gauss(d0 + 2 * j + 1);
        made := made + [Particle(at, speed, heading, HIT_SHARD, HIT_COLOR)];
      }
      game.particles := game.particles + made;
      burst := made;
    }

    /** What the hit loop changes, read off the heap. */
    ghost function Observed(game: Game): Tally
      reads this, game, game.rng, set s | s in game.shots
    {
      Tally(Pierces(game.shots), life, knockback, game.shake, game.rng.drawn, game.particles)
    }

    /** Where the hit loop stands after the first `i` strikes, against the
        tally `t0` before it: each shot met so far has spent one pierce if
        it landed and every other shot is as it was; life, screen shake
        and random draws are what those strikes account for; the knockback
        is that of `t0` until a shot lands and then follows the last shot
        that landed; the particle list has only grown, by shards scattered
        at the enemy. */
    ghost predicate Swept(game: Game, env: Env, st: seq<Strike>, i: nat, t0: Tally, shards: seq<Particle>)
      reads this, game, game.rng, set s | s in game.shots
    {
      && i <= |st| == |game.shots| == |t0.pierce|
      && Observed(game) == Tallied(t0, st, i, shards, env)
      && |shards| == ShardCount(t0.life, st[..i]) && ShardsAt(shards, pos)
    }

    /** The hit loop of `Enemy::update`. Unless the enemy is invincible,
        every shot with pierce left that overlaps it loses one pierce and
        deals `min(damage, life)`; each hit sets the knockback along the
        shot, shakes the screen once, scatters the background and bursts
        into shards. Nothing else about the shots changes. */
    method Collide(game: Game, env: Env, ghost st0: seq<Strike>, ghost t0: Tally)
      returns (struck: bool, heading: real, ghost st: seq<Strike>, ghost shards: seq<Particle>)
      requires game.Valid()
      requires st0 == Strikes(game.shots, pos, radius, !Invincible(knockback), env)
      requires t0 == Observed(game)
      modifies this`life, this`knockback, game`shake, game`particles, game.bg.points, game.rng
      modifies (set s | s in game.shots)`pierce
      ensures game.Valid()
      ensures st == st0
      ensures Swept(game, env, st, |st|, t0, shards)
      ensures struck == (HitCount(st) > 0)
      ensures struck ==> heading == LastHeading(st)
    {
      if Invincible(knockback) {
        st := st0;
        ClosedStrikes(game.shots, pos, radius, env, life);
        assert st[..|st|] == st;
        struck, heading, shards := false, 0.0, [];
      } else {
        struck, heading, st, shards := HitLoop(game, env, st0, t0);
      }
    }

    /** The loop over the shots, for an enemy open to hits. */
    method HitLoop(game: Game, env: Env, ghost st0: seq<Strike>, ghost t0: Tally)
      returns (struck: bool, heading: real, ghost st: seq<Strike>, ghost shards: seq<Particle>)
      requires game.Valid()
      requires st0 == Strikes(game.shots, pos, radius, true, env)
      requires t0 == Observed(game)
      modifies this`life, this`knockback, game`shake, game`particles, game.bg.points, game.rng
      modifies (set s | s in game.shots)`pierce
      ensures game.Valid()
      ensures st == st0
      ensures Swept(game, env, st, |st|, t0, shards)
      ensures struck == (HitCount(st) > 0)
      ensures struck ==> heading == LastHeading(st)
    {
      st := st0;
      struck, heading, shards := false, 0.0, [];
      for i := 0 to |game.shots|
        invariant game.Valid()
        invariant Swept(game, env, st, i, t0, shards)
        invariant struck == (HitCount(st[..i]) > 0)
        invariant struck ==> heading == LastHeading(st[..i])
      {
        assert st[i] == StrikeOf(game.shots[i], pos, radius, true, env);
        struck, heading, shards := HitStep(game.shots[i], game, env, i, st, t0, struck, heading, shards);
      }
      assert st[..|game.shots|] == st;
    }

    /** One pass of the hit loop: shot `i` lands if it has pierce left and
        overlaps the enemy, and a shot that lands is taken as a hit. */
    method HitStep(s: Shot, game: Game, env: Env, i: nat, ghost st: seq<Strike>, ghost t0: Tally, struck: bool, heading: real, ghost shards: seq<Particle>)
      returns (struck': bool, heading': real, ghost shards': seq<Particle>)
      requires game.Valid() && i < |game.shots| && s == game.shots[i]
      requires Swept(game, env, st, i, t0, shards)
      requires struck == (HitCount(st[..i]) > 0) && (struck ==> heading == LastHeading(st[..i]))
      requires st[i] == StrikeOf(s, pos, radius, true, env)
      modifies s`pierce, this`life, this`knockback, game`shake, game`particles, game.bg.points, game.rng
      ensures game.Valid()
      ensures Swept(game, env, st, i + 1, t0, shards')
      ensures struck' == (HitCount(st[..i + 1]) > 0) && (struck' ==> heading' == LastHeading(st[..i + 1]))
    {
      StrikeStep(t0.life, st, i);
      if s.pierce > 0 && Overlaps(s.pos, s.radius, pos, radius) {
        heading', shards' := Land(s, game, env, i, st, t0, shards);
        struck' := true;
      } else {
        TallyStep(t0, st, i, shards, [], env);
        struck', heading', shards' := struck, heading, shards;
      }
    }

    /** The hit branch of one pass of the hit loop. */
    method Land(s: Shot, game: Game, env: Env, i: nat, ghost st: seq<Strike>, ghost t0: Tally, ghost shards: seq<Particle>)
      returns (heading': real, ghost shards': seq<Particle>)
      requires game.Valid() && i < |game.shots| && s == game.shots[i]
      requires Swept(game, env, st, i, t0, shards)
      requires st[i] == StrikeOf(s, pos, radius, true, env)
      requires s.pierce > 0 && Overlaps(s.pos, s.radius, pos, radius)
      modifies s`pierce, this`life, this`knockback, game`shake, game`particles, game.bg.points, game.rng
      ensures game.Valid()
      ensures Swept(game, env, st, i + 1, t0, shards')
      ensures HitCount(st[..i + 1]) > 0 && heading' == LastHeading(st[..i + 1])
    {
      ghost var t := Observed(game);
      var dmg;
      heading', dmg := Wound(s, game, env, i, t);
      ghost var picked, added := Aftermath(game, env, heading', dmg, Observed(game));
      assert Observed(game) == Landed(t, i, dmg, heading', added, env);
      shards' := shards + added;
      TallyStep(t0, st, i, shards, added, env);
      StrikeStep(t0.life, st, i);
    }

    /** A landed shot spends one pierce; no other shot changes. */
    static method Spend(s: Shot, game: Game, ghost i: nat)
      requires game.Valid() && i < |game.shots| && s == game.shots[i]
      modifies s`pierce
      ensures Pierces(game.shots) == old(Pierces(game.shots))[i := old(s.pierce) - 1]
    {
      ghost var before := Pierces(game.shots);
      s.pierce := s.pierce - 1;
      forall k | 0 <= k < |game.shots| && k != i
        ensures game.shots[k].pierce == before[k]
      {
        assert game.shots[k] != s;
      }
    }

    /** A hit shakes the screen once more and scatters the background:
        `CHAOS_JUMPS` points, each picked by one draw, jump by the three
        draws after it. */
    static method Shake(game: Game, env: Env) returns (ghost picked: seq<nat>)
      requires game.Valid()
      modifies game`shake, game.bg.points, game.rng
      ensures game.Valid()
      ensures game.shake == old(game.shake) + 1
      ensures game.rng.drawn == old(game.rng.drawn) + CHAOS_DRAWS
      ensures picked == Picks(game.rng.unit, old(game.rng.drawn), CHAOS_JUMPS, POINTS)
      ensures game.bg.points[..] == Scatter(old(game.bg.points[..]), game.rng.unit, old(game.rng.drawn), CHAOS_JUMPS, env)
    {
      game.shake := game.shake + 1;
      picked := game.bg.Chaos(game.rng, env);
    }

    /** The shot's side of a hit: it spends one pierce and deals
        `min(damage, life)`, and the enemy is kicked along the shot. */
    method Wound(s: Shot, game: Game, env: Env, ghost i: nat, ghost t: Tally) returns (a: real, dmg: int)
      requires game.Valid() && i < |game.shots| && s == game.shots[i]
      requires t == Observed(game)
      modifies s`pierce, this`life, this`knockback
      ensures a == env.angleOf(s.vel) && dmg == Dealt(s.damage, t.life)
      ensures Observed(game)
        == t.(pierce := t.pierce[i := t.pierce[i] - 1], life := t.life - dmg, knockback := env.fromAngle(a).Times(KNOCK_BACK))
    {
      Spend(s, game, i);
      dmg := IntMin(s.damage, life);
      life := life - dmg;
      a := env.angleOf(s.vel);
      knockback := env.fromAngle(a).Times(KNOCK_BACK);
    }

    /** The game's side of a hit dealing `dmg` along heading `a`: the
        screen shake and background scatter of `Shake`, then the shards of
        `Burst` at the enemy. The enemy and the shots are left alone. */
    method Aftermath(game: Game, env: Env, a: real, dmg: int, ghost t: Tally)
      returns (ghost picked: seq<nat>, ghost added: seq<Particle>)
      requires game.Valid() && t == Observed(game)
      modifies game`shake, game`particles, game.bg.points, game.rng
      ensures game.Valid()
      ensures Observed(game)
        == t.(shake := t.shake + 1, drawn := t.drawn + CHAOS_DRAWS + 2 * BurstSize(dmg), particles := t.particles + added)
      ensures picked == Picks(game.rng.unit, t.drawn, CHAOS_JUMPS, POINTS)
      ensures game.bg.points[..] == Scatter(old(game.bg.points[..]), game.rng.unit, t.drawn, CHAOS_JUMPS, env)
      ensures |added| == BurstSize(dmg) && ShardsAt(added, pos)
    {
      picked := Shake(game, env);
      added := Burst(game, pos, a, dmg);
      assert Pierces(game.shots) == t.pierce;
    }

    /** `Enemy::update`: move, then take the hits and split if the enemy
        has died. An enemy that enters dead above level 1 and is not hit
        makes `hit_angle.unwrap()` panic, so it must be alive or at most
        level 1. The strikes are judged at the position and knockback
        after the move; a miss leaves the damped knockback. */
    method Update(game: Game, env: Env) returns (children: seq<Enemy>, ghost st: seq<Strike>, ghost shards: seq<Particle>)
      requires Valid() && game.Valid()
      requires Alive() || level <= 1
      modifies this`angle, this`speed, this`pos, this`knockback, this`life
      modifies game`shake, game`particles, game.bg.points, game.rng
      modifies (set s | s in game.shots)`pierce
      ensures Valid() && game.Valid()
      ensures Motion(angle, speed, pos)
        == old(Moved(Motion(angle, speed, pos), knockback.Times(KNOCK_DAMP), 4.0 + level as real, game.player.pos, env))
      ensures var p := pos;
        st == old(Strikes(game.shots, p, radius, !Invincible(knockback.Times(KNOCK_DAMP)), env))
      ensures Swept(game, env, st, |st|, old(Observed(game)).(knockback := old(knockback).Times(KNOCK_DAMP)), shards)
      ensures |children| == (if !Alive() && level > 1 then 2 else 0)
      ensures |children| == 2 ==> HitCount(st) > 0 && Offspring(children, LastHeading(st), env)
      ensures forall c :: c in children ==> fresh(c)
    {
      ghost var t0 := Observed(game);
      Move(game.player.pos, env);
      assert Pierces(game.shots) == t0.pierce;
      t0 := t0.(knockback := knockback);
      assert t0 == Observed(game);
      ghost var p, open := pos, !Invincible(knockback);
      ghost var st0 := Strikes(game.shots, p, radius, open, env);
      assert st0 == old(Strikes(game.shots, p, radius, open, env));
      children, st, shards := Engage(game, env, st0, t0);
    }

    /** The rest of `Enemy::update` after the move: the hit loop, then the
        split of an enemy that has died above level 1. The ghost
        parameters name the state the hit loop starts from. */
    method Engage(game: Game, env: Env, ghost st0: seq<Strike>, ghost t0: Tally)
      returns (children: seq<Enemy>, ghost st: seq<Strike>, ghost shards: seq<Particle>)
      requires Valid() && game.Valid()
      requires Alive() || level <= 1
      requires st0 == Strikes(game.shots, pos, radius, !Invincible(knockback), env)
      requires t0 == Observed(game)
      modifies this`knockback, this`life
      modifies game`shake, game`particles, game.bg.points, game.rng
      modifies (set s | s in game.shots)`pierce
      ensures game.Valid()
      ensures st == st0
      ensures Swept(game, env, st, |st|, t0, shards)
      ensures |children| == (if !Alive() && level > 1 then 2 else 0)
      ensures |children| == 2 ==> HitCount(st) > 0 && Offspring(children, LastHeading(st), env)
      ensures forall c :: c in children ==> fresh(c)
    {
      var struck, heading;
      struck, heading, st, shards := Collide(game, env, st0, t0);
      assert st[..|st|] == st;
      children := Divide(struck, heading, st, t0.life, env);
    }

    /** The split at the end of `Enemy::update`: an enemy that has died
        above level 1 splits along the heading of the last hit. One that
        entered alive and is now dead was hit, so that heading exists. */
    method Divide(struck: bool, heading: real, ghost st: seq<Strike>, ghost life0: int, env: Env) returns (children: seq<Enemy>)
      requires Valid() && (life0 > 0 || level <= 1) && life == LifeAfter(life0, st)
      requires struck == (HitCount(st) > 0) && (struck ==> heading == LastHeading(st))
      ensures |children| == (if !Alive() && level > 1 then 2 else 0)
      ensures |children| == 2 ==> HitCount(st) > 0 && Offspring(children, LastHeading(st), env)
      ensures forall c :: c in children ==> fresh(c)
    {
      if !Alive() && level > 1 {
        if !struck {
          LifeNeedsHit(life0, st);
        }
        children := Split(heading, env);
      } else {
        children := [];
      }
    }

    /** The two children of a split along heading `d`: new enemies one
        level down at this enemy's position, kicked 30 degrees either side
        of `d`. */
    ghost predicate Offspring(children: seq<Enemy>, d: real, env: Env)
      reads this, children
    {
      && |children| == 2 && children[0] != children[1]
      && children[0].knockback == env.fromAngle(d + SPLIT_ANGLE).Times(KNOCK_BACK)
      && children[1].knockback == env.fromAngle(d - SPLIT_ANGLE).Times(KNOCK_BACK)
      && forall c :: c in children ==>
        && c.Valid() && c.level == level - 1 && c.pos == pos
        && c.life == InitialLife(level - 1) && c.radius == InitialRadius(level - 1)
        && c.speed == 0.0 && c.angle == 0.0 && c.color == PaletteColor(level - 1)
    }

    /** The split at the end of `Enemy::update`. */
    method Split(d: real, env: Env) returns (children: seq<Enemy>)
      requires Valid() && level > 1
      ensures Offspring(children, d, env)
      ensures forall c :: c in children ==> fresh(c)
    {
      var first := new Enemy.NewKb(pos, level - 1, env.fromAngle(d + SPLIT_ANGLE).Times(KNOCK_BACK));
      var second := new Enemy.NewKb(pos, level - 1, env.fromAngle(d - SPLIT_ANGLE).Times(KNOCK_BACK));
      children := [first, second];
    }

    /** `Enemy::particles`: `floor(density)` dots, plus one more with
        probability `density - floor(density)`, each in a uniformly drawn
        direction, at the enemy's speed-dependent pace and in its colour. */
    method Particles(rng: Rng, density: real, env: Env) returns (ps: seq<Particle>)
      requires rng.Valid()
      modifies rng
      ensures var qte := SaturateI32(density.Floor) + (if rng.unit(old(rng.drawn)) < density - density.Floor as real then 1 else 0);
        && |ps| == (if qte > 0 then qte else 0)
        && rng.drawn == old(rng.drawn) + 1 + |ps|
      ensures 0.0 <= density < 0x7fff_ffff as real ==> density.Floor <= |ps| <= density.Floor + 1
      ensures forall k :: 0 <= k < |ps| ==>
        ps[k] == Particle(pos, 5.0 + env.sqrt(life as real) + level as real,
                          Scaled(rng.unit(old(rng.drawn) + 1 + k), 0.0, 360.0), DOT, color)
    {
      var qte := SaturateI32(density.Floor);
      var extra := rng.Bernoulli(density - density.Floor as real);
      if extra {
        qte := qte + 1;
      }
      var speed := 5.0 + env.sqrt(life as real) + level as real;
      ps := [];
      var k := 0;
      while k < qte
        invariant 0 <= k && (qte > 0 ==> k <= qte) && (qte <= 0 ==> k == 0)
        invariant |ps| == k
        invariant rng.drawn == old(rng.drawn) + 1 + k
        invariant forall j :: 0 <= j < k ==>
          ps[j] == Particle(pos, speed, Scaled(rng.unit(old(rng.drawn) + 1 + j), 0.0, 360.0), DOT, color)
      {
        var a := rng.Uniform(0.0, 360.0);
        ps := ps + [Particle(pos, speed, a, DOT, color)];
        k := k + 1;
      }
    }
  }
}
