// The particle descriptors the entities emit. Particles are purely visual:
// their own motion (src/particles.rs) is not part of this model, so only the
// fields the emitters set are kept.

module Particles {
  import opened Geometry

  /** Shape of a particle: a circle of a given size, or a shard mesh
      (size, ratio, and whether the tail fades). */
  datatype Shape = Circle(size: real) | Shard(size: real, ratio: real, fade: bool)

  /** A colour: one of quicksilver's named colours, a hex code, or a colour
      with its alpha replaced (`with_alpha`). */
  datatype Color = Named(name: string) | Hex(code: string) | Alpha(base: Color, alpha: real)

  const WHITE: Color := Named("WHITE")

  datatype Particle = Particle(pos: Vec, speed: real, angle: real, shape: Shape, color: Color)
}
