/**
 The plain configuration values of the terrain generator: block identifiers,
 painting rules, noise options and the whole generation request, with the
 defaults the service falls back on.
 */
module MapConfig {

  /** A terrain material, an integer. */
  type BlockID = int

  /** The value `BlockID::default()` gives. */
  const DefaultBlockID: BlockID := 0

  /** The literal a cell is compared against to decide whether it is still unpainted. */
  const Unset: BlockID := 0

  type u32 = x: int | 0 <= x < 0x1_0000_0000

  /** A chunk's position in chunk-grid space; both components are used as floating-point values. */
  datatype Coord = Coord(x: real, y: real)

  /** One painting rule: `block` goes onto cells whose noise value lies in `[start_level, end_level)`. */
  datatype BlockConfig = BlockConfig(block: BlockID, start_level: real, end_level: real, overwrite: bool)
  {
    /** The half-open threshold test of a rule. */
    predicate Covers(v: real) {
      start_level <= v < end_level
    }
  }

  /** Everything one noise field depends on. */
  datatype MapOptions = MapOptions(
    pos: Coord,
    scale: real,
    octaves: nat,
    frequency: real,
    lacunarity: real,
    persistence: real,
    seed: u32)

  /** A whole generation request; the order of `blocks` is significant. */
  datatype Config = Config(default_block: BlockID, blocks: seq<BlockConfig>, map_options: MapOptions)

  /** The default rule: the default block, both levels 0.0, no overwrite. It covers no noise value. */
  function DefaultBlockConfig(): (rule: BlockConfig)
    ensures rule.block == DefaultBlockID && !rule.overwrite
    ensures forall v :: !rule.Covers(v)
  {
    BlockConfig(DefaultBlockID, 0.0, 0.0, false)
  }

  /** The default noise options: origin chunk, unit scale, 8 octaves. */
  function DefaultMapOptions(): MapOptions {
    MapOptions(Coord(0.0, 0.0), 1.0, 8, 1.0, 0.5, 0.5, 0)
  }

  /** The default request: default fill and exactly one default rule, which covers nothing. */
  function DefaultConfig(): (config: Config)
    ensures config.default_block == DefaultBlockID
    ensures |config.blocks| == 1
    ensures config.map_options == DefaultMapOptions()
    ensures forall i, v :: 0 <= i < |config.blocks| ==> !config.blocks[i].Covers(v)
  {
    Config(DefaultBlockID, [DefaultBlockConfig()], DefaultMapOptions())
  }
}
