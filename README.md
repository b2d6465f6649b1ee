# alakajam-chaos in Dafny

A model of the combat and bookkeeping logic of *alakajam-chaos*, a small
top-down shooter: enemies that home in on the player and split when they
die, the player's shots, bouncing power-ups, the announcement banners, and
the background point cloud that scatters on every hit.

Every entity the game updates in place is a Dafny `class` whose methods
change its fields (with `modifies` clauses) and are proved against
specification functions:

- `Enemies` (src/enemy.rs): construction, the movement step, the hit loop
  over the game's shots (pierce spent, damage dealt, knockback, screen
  shake, background scatter, hit shards), the split into two children, and
  the idle particles. The hit loop is specified by a `Tally` of everything
  it changes and a function `Tallied` giving the tally after the first `i`
  strikes; the loop invariant, the method contracts and the counting lemmas
  (`LifeBounds`, `ShardTotal`, `DrawTotal`, `LifeNeedsHit`) are stated
  against it.
- `Shots` (src/shot.rs): the two constructors, the trail particle and the
  update with its one-way `alive` flag.
- `PowerUps` (src/powerup.rs): the off-screen spawning loop, the colours,
  the four particles and the update with the bounce budget and pick-up.
- `Overlays` (src/overlay.rs): the four banners and the spark cadence, with
  the decimal text of the wave number and its round trip.
- `Backgrounds` (src/background.rs): the 230-point spiral, the phase update,
  teleport and `chaos`, over an `array` of points.
- `Games`, `Particles`, `Geometry`, `Random`: the minimal game, player and
  particle records the core touches, the vector algebra, Rust's float and
  integer remainders, and the random stream.

Randomness is a seeded stream: the k-th output of the generator is given
by two abstract sequences (a uniform draw in [0, 1) and a standard normal
draw), and every sample takes exactly one output. Each contract states how
many draws an operation takes; where it states a sampled value, it names
the draw that value comes from. The hit loop as a whole states only the
number of draws it takes; the points each hit scatters are stated by the
member that takes that hit's draws (`Enemies.Enemy.Aftermath`).
Trigonometry (`angle`, `from_angle`), `log2`, `sqrt`, `in_screen`, the
screen size and the shot speed are fields of an abstract environment
`Env`. Reals stand for `f32`.

Particle shapes follow the snapshot of src/enemy.rs, src/shot.rs and
src/overlay.rs, where `Shape::Shard` takes three arguments (size, ratio,
fade); src/particles.rs has an older two-argument form and is not part of
this model.

## Model

| member | source | states |
|---|---|---|
| Random.Scaled | src/background.rs:17-21 | a uniform draw in [0, 1) mapped onto a range lies in [lo, hi), the range `Uniform::new(lo, hi)` samples from |
| Random.PickIndex | src/background.rs:63-65 | an integer draw of `Uniform::new(0, n)` is an index below `n` |
| Random.Rng.Uniform | src/background.rs:17-21 | a uniform sample takes exactly one draw, is that draw mapped onto the range, and lies in [lo, hi) |
| Random.Rng.Index | src/background.rs:63-65 | an integer sample takes exactly one draw and is below `n` |
| Random.Rng.Normal | src/shot.rs:44 | a normal sample takes exactly one draw: the mean plus the standard deviation times the standard normal draw; it needs a non-negative deviation, as `Normal::new(..).unwrap()` does |
| Random.Rng.Bernoulli | src/enemy.rs:144 | a Bernoulli sample takes exactly one draw and is true exactly when the draw falls below `p` |
| Geometry.Rem360 | src/enemy.rs:70-71 | Rust's float `%` by 360 keeps the sign of the dividend: in [0, 360) for a non-negative dividend, in (-360, 0] for a negative one |
| Geometry.Overlaps | src/enemy.rs:85 | a shot touches the enemy when the squared distance of the centres is below the squared sum of the radii |
| Geometry.Closer | src/powerup.rs:107 | the player picks a power-up up when their distance is below the sum of the radii, stated without the square root |
| Shots.Shot.constructor | src/shot.rs:18-28 | `Shot::new` keeps the given position, velocity, pierce and damage, with radius 15, alive and not a laser |
| Shots.Shot.Laser | src/shot.rs:30-40 | `Shot::laser` moves along the angle at twice the shot speed, with pierce 1000, radius 25, alive and a laser |
| Shots.Shot.TrailShape | src/shot.rs:46-50 | the trail is a shard that fades exactly for lasers; for other shots its size is -0.7 - 0.3 * pierce |
| Shots.Shot.Particles | src/shot.rs:42-63 | exactly one trail particle, at the shot, heading 180 degrees from its velocity, with speed 15 + one normal draw, white, in the trail shape; exactly one draw taken |
| Shots.Shot.Update | src/shot.rs:64-68 | the position advances by the velocity; alive stays true only while the shot is on screen with pierce left; a dead shot never comes back; only position and alive change |
| Backgrounds.StepsAscend | src/background.rs:46-50 | phases that grow from each point to the next never decrease along the whole list |
| Backgrounds.PhaseSteps | src/background.rs:42-47 | each running sum of draws scaled to [0, 10) is 0 to 10 above the one before |
| Backgrounds.PhasesOrdered | src/background.rs:46-50 | points whose phases are those running sums have the first phase in [0, 10), each next phase 0 to 10 above the previous, and ascending phases |
| Backgrounds.Background.constructor | src/background.rs:41-54 | `Background::new` makes exactly 230 points, point `i` on the spiral with the sum of the first `i + 1` draws scaled to [0, 10) as its phase; so the first phase is in [0, 10), each next one 0 to 10 above the previous, all ascending; it takes 230 draws; `t` is 0 and the colour #5e2a53 |
| Backgrounds.Background.Spiral | src/background.rs:42-51 | builds exactly 230 points, point `i` at the spiral position of `i` with the running sum of the first `i + 1` draws, each scaled to [0, 10), as its phase; takes exactly 230 draws |
| Backgrounds.Teleport | src/background.rs:16-22 | a teleport moves the point along the angle of its first draw by the distance of its second, a squared jump in [100, 400) when `from_angle` gives unit vectors, and raises its phase by its third draw, 10 to 20 |
| Backgrounds.Background.TeleportAt | src/background.rs:16-22 | point `i` becomes exactly its `Teleport` with the next three draws, every other point is unchanged, and three draws are taken |
| Backgrounds.JumpLength | src/background.rs:20 | a jump of length in [10, 20) along a unit vector has squared length in [100, 400) |
| Backgrounds.Background.Update | src/background.rs:56-60 | every point's phase advances by the same `log2(score + 2)` and its position stays; the list keeps its size; ascending phases stay ascending |
| Backgrounds.Picks | src/background.rs:63-65 | the `k`-th point `chaos` picks is the draw `4 * k` after the start mapped to an index below the list's length |
| Backgrounds.JumpStep | src/background.rs:64-67 | one more jump appends the index its first draw picks and teleports that point with the three draws after it |
| Backgrounds.ScatterKeeps | src/background.rs:62-68 | a scatter leaves every point it did not pick unchanged |
| Backgrounds.ScatterRaises | src/background.rs:62-68 | a scatter never lowers a phase, and every point it picked ends at least 10 above its old phase |
| Backgrounds.Background.Jump | src/background.rs:64-67 | one pass of the loop: the next draw picks an index and the three after it teleport that point, taking the points from the scatter after `n` jumps to the scatter after `n + 1` |
| Backgrounds.Background.Chaos | src/background.rs:62-68 | exactly sixteen draws; the picked indices are every fourth draw mapped below the list's length (`Picks`), and the points become exactly the `Scatter` of the old ones by those four teleports, so every point not picked is unchanged and every picked one rises in phase by at least 10 |
| PowerUps.PowerColor | src/powerup.rs:48-54 | every kind of power has a colour, a seven-character hex code |
| PowerUps.PowerUp.SpawnPosition | src/powerup.rs:27-32 | the spawning loop ends at a position off the screen; it starts from (1, 1), takes two draws per pass, and every position it drew before the last was on the screen; it ends whenever the stream eventually yields an off-screen position |
| PowerUps.PowerUp.Attempt | src/powerup.rs:30-31 | one pass of the spawning loop takes two draws and yields the next candidate position |
| PowerUps.PowerUp.constructor | src/powerup.rs:26-46 | `PowerUp::new` yields an off-screen power-up of the given kind with 5 hits, radius 20 and `t` 0; it takes two draws for each of the `spawnPasses` passes of the spawning loop plus two; its position is (1, 1) when no pass ran and otherwise the candidate of the last pass, every earlier candidate having been on the screen; it moves along an angle from the second-to-last draw at 20 + 8 times the last normal draw |
| PowerUps.PowerUp.Particles | src/powerup.rs:56-75 | exactly four particles with angles 0, 90, 180 and 270, all where the power-up will be next, round, in its colour, with speeds 8 + 2 times four successive normal draws |
| PowerUps.Bounces | src/powerup.rs:95-105 | a wall bounce on one axis: past the low edge still moving down, or past the high edge still moving up |
| PowerUps.PowerUp.Update | src/powerup.rs:91-112 | `t` grows by exactly 1 and the position by the velocity; each velocity component is negated on a bounce on its axis and otherwise kept; each bounce costs one hit, at most two; a pick-up sets hits to 0 and hands the power to the player exactly once, and otherwise the player receives nothing |
| Overlays.TruncRem | src/overlay.rs:60 | Rust's `%` on `i32` keeps the sign of the dividend and its magnitude stays below the divisor |
| Overlays.Emits | src/overlay.rs:60 | a call emits when the new frame's truncating remainder by six is below one |
| Overlays.EmitsAt | src/overlay.rs:60 | the call `n` steps after frame `f` emits exactly when `n` completes `f`'s remainder to six |
| Overlays.OncePerSixCalls | src/overlay.rs:57-60 | from any reachable frame, exactly one of the next six calls on a visible banner emits |
| Overlays.Decimal | src/overlay.rs:46 | the text of the wave number is non-empty, all decimal digits, and has no leading zero unless the number is zero |
| Overlays.DecimalRoundTrip | src/overlay.rs:46 | reading the decimal text back gives the number again |
| Overlays.Overlay.GameOver | src/overlay.rs:14-22 | "GAME OVER!" in red, visible, height 120, frame 0 |
| Overlays.Overlay.Pause | src/overlay.rs:24-32 | "Paused" in yellow, visible, height 120, frame 0 |
| Overlays.Overlay.PowerUp | src/overlay.rs:34-42 | "Pick two" in green, visible, height 120, frame 0 |
| Overlays.Overlay.Wave | src/overlay.rs:44-52 | "Wave " followed by the number's decimal text, which reads back as the number, in orange, visible, height 120, frame 0 |
| Overlays.Overlay.Sparks | src/overlay.rs:61-78 | exactly two sparks: one at x = 0 heading 0 degrees, one at x = SIZE.x heading 180 degrees, both in the banner's colour |
| Overlays.Overlay.Particles | src/overlay.rs:54-80 | a hidden banner emits nothing and keeps its frame; a visible one counts the call and emits the two sparks exactly when the new frame's truncating remainder by six is below one, which for the non-negative frames a banner reaches (it starts at 0 and each call adds one) means a multiple of six; text, colour, visibility and height never change |
| Enemies.ToI32 | src/enemy.rs:50 | `as i32` yields an `i32` and keeps every value that already fits |
| Enemies.SaturateI32 | src/enemy.rs:143 | a float-to-`i32` cast yields an `i32` and keeps every value that already fits |
| Enemies.InitialLife | src/enemy.rs:50 | the starting life is `level * level` whenever that fits in an `i32`, and then positive for a positive level |
| Enemies.PaletteColor | src/enemy.rs:34-43 | the colour is the palette entry at `level % 7`, always one of the seven |
| Enemies.AngularDiff | src/enemy.rs:70 | the angular difference lies in [-180, 180) and differs from the raw difference by whole turns |
| Enemies.Turned | src/enemy.rs:71 | the new heading lies within a turn of zero and equals the old heading plus 9% of the angular difference, up to whole turns |
| Enemies.Moved | src/enemy.rs:66-79 | one frame of movement turns towards the target as `Turned` does; the speed never exceeds the top speed `4 + level`, grows by exactly 0.4 below it, and never drops from at most the top speed |
| Enemies.Strikes | src/enemy.rs:83-85 | one strike per shot, in order: it lands exactly when the enemy is open to hits, the shot has pierce left and the circles overlap |
| Enemies.Spent | src/enemy.rs:84-86 | after the first `i` strikes every shot has spent at most one pierce: a shot already met has spent one exactly when its strike landed, and a shot not yet met keeps its pierce |
| Enemies.SpentStep | src/enemy.rs:84-86 | taking strike `i` spends one more pierce from shot `i` exactly when it lands, and no other shot's |
| Enemies.StrikeStep | src/enemy.rs:84-113 | one more strike adds one hit exactly when it lands, takes `min(damage, life)` from the life, `dmg + 1` shards, sixteen plus two per shard draws, and makes its heading the last hit's |
| Enemies.NoHits | src/enemy.rs:83-85 | strikes none of which land leave the life and all counts as they were |
| Enemies.ClosedStrikes | src/enemy.rs:83-115 | an enemy that is not open to hits takes no hit: life, shards and draws unchanged |
| Enemies.LifeBounds | src/enemy.rs:87-88 | with non-negative damage the life never grows and, from a non-negative start, never drops below zero |
| Enemies.LifeNeedsHit | src/enemy.rs:117-118 | a life that changed was hit at least once, so a heading for the split exists |
| Enemies.ShardTotal | src/enemy.rs:101-112 | the shards scattered are one per hit plus one per point of life taken |
| Enemies.SpentEnemy | src/enemy.rs:85-88 | an enemy with no life left stays at 0 and scatters exactly one shard per hit |
| Enemies.DrawTotal | src/enemy.rs:96-112 | the hit loop takes sixteen draws per hit for the background and two per shard |
| Enemies.DampedLen2 | src/enemy.rs:78 | `k` updates shrink the squared knockback length by `0.64^k` |
| Enemies.HitKickWindow | src/enemy.rs:93 | the kick a hit gives keeps the enemy invincible, under the corrected check, for exactly the `INVINCIBLE_FRAMES` = 4 updates after the hit, when `from_angle` gives unit vectors |
| Enemies.InvincibleAsWritten | src/enemy.rs:60-62 | `Enemy::invincible` as written: the squared knockback length compared with the length bound 20.2752 |
| Enemies.Invincible | src/enemy.rs:60-62 | the corrected check of the Findings: the squared knockback length compared with the squared bound |
| Enemies.InvincibleWindowAsWritten | src/enemy.rs:60-62 | as written, a fresh kick keeps the enemy invincible for exactly the ten updates after the hit |
| Enemies.FifthUpdateAsWritten | src/enemy.rs:60-62 | as written, the enemy is still invincible on the fifth update after a hit, which the corrected check rejects |
| Enemies.InvincibleWindow | src/enemy.rs:60-62 | with the corrected check a fresh kick keeps the enemy invincible for exactly `INVINCIBLE_FRAMES` = 4 updates |
| Enemies.TallyStep | src/enemy.rs:84-113 | taking strike `i` changes the tally by exactly one landed hit if it lands and not at all if it misses |
| Enemies.Enemy.Alive | src/enemy.rs:57-59 | an enemy is alive exactly while its life is positive |
| Enemies.Enemy.NewKb | src/enemy.rs:33-55 | `Enemy::new_kb`: the given position, level and knockback, speed 0, angle 0, the level's life, radius `5 * level + 30` and palette colour |
| Enemies.Enemy.New | src/enemy.rs:29-31 | `Enemy::new`: a fresh enemy as `new_kb` makes it with zero knockback |
| Enemies.Enemy.Move | src/enemy.rs:66-79 | the knockback decays by 0.8 and the heading, speed and position become one frame of `Moved` towards the target with that knockback |
| Enemies.Enemy.Burst | src/enemy.rs:99-112 | a hit dealing `dmg` appends exactly `dmg + 1` white shards at the enemy, the j-th with speed 60 + 12 and heading `a` + 40 times its two normal draws |
| Enemies.Enemy.Spend | src/enemy.rs:86 | a landed shot spends exactly one pierce, and no other shot's pierce changes |
| Enemies.Enemy.Wound | src/enemy.rs:86-93 | a landed shot spends one pierce, the enemy loses `min(damage, life)`, and its knockback becomes the kick along the shot's heading, which it returns |
| Enemies.Enemy.Shake | src/enemy.rs:95-96 | a hit shakes the screen once more and the background becomes exactly the `Scatter` of four teleports at the `Picks` of the next sixteen draws |
| Enemies.Enemy.Aftermath | src/enemy.rs:95-112 | the screen shake and background scatter of `Shake`, then `dmg + 1` hit shards at the enemy appended to the particles; the enemy and the shots are untouched |
| Enemies.Enemy.Land | src/enemy.rs:86-112 | the hit branch (`Wound`, then `Aftermath`) takes the loop's tally exactly one landed hit further |
| Enemies.Enemy.HitStep | src/enemy.rs:85-113 | one pass of the hit loop takes the tally one strike further and tracks whether and where the enemy was last hit |
| Enemies.Enemy.HitLoop | src/enemy.rs:84-114 | after the loop the tally is the one all strikes account for: each landed shot spent one pierce and every other shot is untouched; life, shake and draws follow the hits; the knockback follows the last hit; only hit shards were added |
| Enemies.Enemy.Collide | src/enemy.rs:82-115 | the hit loop, and for an invincible enemy no change at all to the shots, life, knockback, shake, draws or particles |
| Enemies.Enemy.Engage | src/enemy.rs:81-127 | the hit loop's tally, and two children exactly when the enemy has died above level 1 |
| Enemies.Enemy.Divide | src/enemy.rs:117-127 | an enemy that has died above level 1 splits along the heading of the last hit, which exists; any other yields no children |
| Enemies.Enemy.Split | src/enemy.rs:118-124 | exactly two fresh children one level down at the enemy's position, with the level's life, radius and colour, kicked 30 degrees either side of the heading |
| Enemies.Enemy.Update | src/enemy.rs:64-128 | one frame of movement towards the player; then the strikes judged at the new position and damped knockback, with the hit loop's tally; two children exactly when the enemy has died above level 1 |
| Enemies.Enemy.Particles | src/enemy.rs:137-165 | `floor(density)` dots plus one more when the Bernoulli draw succeeds, none for a negative count; each at the enemy, at speed `5 + sqrt(life) + level`, in its colour, with a uniformly drawn angle; one draw per dot plus one |

## Left out

- Drawing (`draw` on every entity) and src/main.rs: rendering and the event loop.
- src/particles.rs, src/colors.rs and src/player.rs are not part of this model; particle records keep only position, speed, angle, shape and colour (no acceleration, bias, damping or alpha scale).
- Games.Player.ApplyPower: `Player::powerup` is not among the shown files, so the player only records the powers handed to it.
- `f32` arithmetic is modelled on reals: no rounding, NaN or infinities.
- `angle`, `from_angle`, `log2`, `sqrt`, `in_screen`, the screen size and the shot speed are abstract parameters; facts that need their values hold under stated hypotheses (unit vectors) or are not stated.
- Backgrounds.Background.Update: does not state that the phase step `log2(score + 2)` is at least 1, because `log2` is abstract.
- Random: the xorshift generator itself and the exact sampling algorithms of `rand_distr` are abstract sequences of draws.
- Geometry.Rem360: covers only the divisor 360, the only one the core uses.
- Integer overflow: `life`, `shake`, `frame`, `hits` and `pierce` are unbounded integers, so `i32` overflow (a debug panic) is not modelled; `level * level` wraps as a release build does.
- PowerUps.PowerUp.Update: states that hits never increase only for a non-negative budget, because a pick-up resets a negative budget up to 0.
- Enemies.Enemy.Update: requires the enemy to be alive or at most level 1 on entry; a dead enemy above level 1 that is not hit again makes `hit_angle.unwrap()` panic, and the case where it is hit again is not modelled.
- Enemies.Enemy.Update: judges hits by the corrected `Invincible` check of the Findings, so an enemy is open to hits again on the fifth update after a hit; as written (`InvincibleAsWritten`) it ignores hits for the ten updates after one.
- Enemies.Enemy.Engage: judges hits by the corrected `Invincible` check of the Findings, as `Enemies.Enemy.Update` does.
- Enemies.Enemy.Collide: judges hits by the corrected `Invincible` check of the Findings, as `Enemies.Enemy.Update` does.
- Enemies.Enemy.Update: states the background scatter of each hit only through the draws it takes; the points each hit moves are stated by `Enemies.Enemy.Aftermath`, which every landed hit calls.
- Enemies.Enemy.Land: states the background scatter only through the draws it takes, as `Enemies.Enemy.Update` does; `Enemies.Enemy.Aftermath` states the points.
- Enemies.Enemy.HitStep: states the background scatter only through the draws it takes, as `Enemies.Enemy.Update` does; `Enemies.Enemy.Aftermath` states the points.
- Enemies.Enemy.HitLoop: states the background scatter only through the draws it takes, as `Enemies.Enemy.Update` does; `Enemies.Enemy.Aftermath` states the points.
- Enemies.Enemy.Collide: states the background scatter only through the draws it takes, as `Enemies.Enemy.Update` does; `Enemies.Enemy.Aftermath` states the points.
- Enemies.Enemy.Engage: states the background scatter only through the draws it takes, as `Enemies.Enemy.Update` does; `Enemies.Enemy.Aftermath` states the points.
- Enemies.Enemy.Update: the fields it does not change (radius, level, colour, and every field of the shots but `pierce`) are stated only by its `modifies` clause.
- PowerUps.PowerUp.SpawnPosition: ends only when the stream eventually yields an off-screen position, which a real generator does with probability 1; this is a precondition.

## Findings

| source | as written | input that shows it | evidently intended | confidence | as-written member | corrected member |
|---|---|---|---|---|---|---|
| src/enemy.rs:60-62 | `invincible` compares the SQUARED knockback length `len2()` with `KNOCK_BACK * KNOCK_DAMP^INVINCIBLE_FRAMES * 0.99` = 20.2752, a length | a hit's kick of length 50, five updates later: squared length 2500 * 0.8^10 = 268.435456 >= 20.2752, so the enemy is still invincible, and it stays so for ten updates | invincible for the `INVINCIBLE_FRAMES` = 4 updates after a hit: the squared length compared with the squared bound | not executed | Enemies.FifthUpdateAsWritten | Enemies.InvincibleWindow |
