/**
 The noise-field sampler. The fractal noise itself belongs to a foreign
 library and is a parameter here (`PlaneBuilder`); what this module fixes is
 how the world-space sampling rectangle is derived from the chunk position,
 the chunk size and the scale.
 */
module NoiseMap {
  import opened MapConfig

  /** A closed sampling interval along one axis. */
  datatype Bounds = Bounds(lo: real, hi: real)

  /** The parameters handed to the fractal-noise generator, unchanged from the options. */
  datatype Fbm = Fbm(octaves: nat, frequency: real, lacunarity: real, persistence: real, seed: u32)

  /** A sampled field: the noise value at grid index (x, y). */
  type Field = (nat, nat) -> real

  /**
   The foreign plane-map builder: given the noise parameters, the grid size and
   the x and y sampling bounds, it yields a field. Being a function, it gives the
   same field whenever it is given the same arguments.
   */
  type PlaneBuilder = (Fbm, nat, nat, Bounds, Bounds) -> Field

  function FbmOf(options: MapOptions): Fbm {
    Fbm(options.octaves, options.frequency, options.lacunarity, options.persistence, options.seed)
  }

  /**
   The sampling interval of one axis for a chunk at position `p` of `size` cells:
   it starts at `p * size * scale` and spans `size - 1` steps of length `scale`.
   */
  function AxisBounds(p: real, size: nat, scale: real): (b: Bounds)
    ensures b.hi - b.lo == (size as real - 1.0) * scale
    ensures 1 <= size && 0.0 <= scale ==> b.lo <= b.hi
    ensures p == 0.0 ==> b.lo == 0.0
  {
    var n := size as real;
    assert ((p + 1.0) * n - 1.0) * scale == p * n * scale + (n - 1.0) * scale;
    Bounds(p * n * scale, ((p + 1.0) * n - 1.0) * scale)
  }

  /** The next chunk's interval along an axis starts exactly `scale` past this chunk's upper bound. */
  lemma AdjacentChunksAbut(p: real, size: nat, scale: real)
    ensures AxisBounds(p + 1.0, size, scale).lo == AxisBounds(p, size, scale).hi + scale
  {
    var n := size as real;
    assert (p + 1.0) * n * scale == ((p + 1.0) * n - 1.0) * scale + scale;
  }

  /** With the default options both axes are sampled over `[0, size - 1]`. */
  lemma DefaultOptionsBounds(width: nat, height: nat)
    ensures AxisBounds(DefaultMapOptions().pos.x, width, DefaultMapOptions().scale) == Bounds(0.0, width as real - 1.0)
    ensures AxisBounds(DefaultMapOptions().pos.y, height, DefaultMapOptions().scale) == Bounds(0.0, height as real - 1.0)
  {
  }

  /** The field for a `width` by `height` chunk described by `options`. */
  function GenerateNoiseMap(builder: PlaneBuilder, options: MapOptions, width: nat, height: nat): Field {
    builder(FbmOf(options),
            width, height,
            AxisBounds(options.pos.x, width, options.scale),
            AxisBounds(options.pos.y, height, options.scale))
  }
}
