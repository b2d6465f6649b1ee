// The shared simulation context every entity update is handed, and the
// player record the power-ups act on. Neither type's definition is among
// the modelled source files; they are kept to the fields the core reads
// and writes.

module Games {
  import opened Geometry
  import opened Random
  import opened Particles
  import opened Shots
  import opened Backgrounds
  import opened Powers

  class Player {
    var pos: Vec
    var radius: real
    /** The powers handed to `Player::powerup`, in order. What that method
        does with them is not part of this model. */
    var received: seq<Power>

    constructor (pos: Vec, radius: real)
      ensures this.pos == pos && this.radius == radius && received == []
    {
      this.pos := pos;
      this.radius := radius;
      received := [];
    }

    /** `Player::powerup`, as far as the power-ups see it: one more power
        received. */
    method ApplyPower(power: Power)
      modifies this`received
      ensures received == old(received) + [power]
    {
      received := received + [power];
    }
  }

  /** The shots in a list are distinct objects, as the elements of a
      `Vec<Shot>` are. */
  ghost predicate Distinct(shots: seq<Shot>) {
    forall i, j :: 0 <= i < j < |shots| ==> shots[i] != shots[j]
  }

  class Game {
    var player: Player
    var shots: seq<Shot>
    var particles: seq<Particle>
    var shake: int
    var bg: Background
    var rng: Rng

    ghost predicate Valid()
      reads this, bg
    {
      Distinct(shots) && bg.Valid() && rng.Valid()
    }

    constructor (player: Player, bg: Background, rng: Rng)
      requires bg.Valid() && rng.Valid()
      ensures Valid()
      ensures this.player == player && this.bg == bg && this.rng == rng
      ensures shots == [] && particles == [] && shake == 0
    {
      this.player := player;
      shots := [];
      particles := [];
      shake := 0;
      this.bg := bg;
      this.rng := rng;
    }
  }
}
