# Terrain chunk generator — a verified model

This project models the procedural-generation core of a small terrain
service (`src/map.rs`). A request (`Config`) names a default block, an ordered
list of painting rules (`BlockConfig`) and the options of one fractal-noise
field (`MapOptions`). `generate_chunk` fills an X×Y chunk of block identifiers
with the default block. It then applies each rule in list order with
`add_terrain`. A rule writes its block into a cell when two things hold:

- it may overwrite, or the cell still holds the literal `0`;
- the cell's noise value lies in `[start_level, end_level)`.

The painter's loops stop at `X-1` and `Y-1`, so the last row and the last
column are never written. The model keeps this behaviour and proves it
(`Terrain.BorderKeepsFill`).

Modules:

- `MapConfig` (`map_config.dfy`): the value types and their defaults.
  `Covers` is a rule's half-open threshold test.
- `NoiseMap` (`noise_map.dfy`): the sampling bounds, plus `GenerateNoiseMap`.
  `GenerateNoiseMap` hands the noise parameters, the grid size and the two
  bounds to an abstract plane builder. The builder is a function-valued
  parameter (`PlaneBuilder`) that stands for the foreign noise library, so the
  same options always give the same field.
- `Terrain` (`terrain.dfy`): the effect of painting, stated cell by cell.
  `PaintCell` is one rule on one cell. `Layer` is a rule list on one cell.
  `PaintedCell` is the final value of cell (x, y). The lemmas here state the
  ordering, overwrite and boundary rules.
- `Chunk` (`chunk.dfy`): the imperative code, on an `array2<BlockID>`.
  `NewChunk` stands for `ChunkData::new`. `AddTerrain` runs nested `for`
  loops with invariants. `GenerateChunk` loops over the rules. Each method is
  proved against the `Terrain` functions.

Two details of the code shape the model:

- `Coord`'s components are reals: `src/map.rs:96-101` multiplies `pos.0` by
  `X as f64` and adds `1.` to it.
- The noise field is rebuilt for every rule (`src/map.rs:128`). The builder is
  deterministic, so every rule sees the same field.

## Model

| member | source | states |
|---|---|---|
| `MapConfig.DefaultBlockConfig` | src/map.rs:25-29 | the default rule has the default block and no overwrite, and covers no noise value at all (both levels are 0.0) |
| `MapConfig.DefaultConfig` | src/map.rs:48-52 | the default request has the default block as its fill, the default map options and exactly one rule, which covers no noise value |
| `NoiseMap.AxisBounds` | src/map.rs:94-102 | the sampling interval of one axis spans exactly size−1 grid steps of length `scale` (hi − lo = (size−1)·scale); it is non-empty (lo ≤ hi) when size ≥ 1 and scale ≥ 0; it starts at 0 for position 0 |
| `NoiseMap.AdjacentChunksAbut` | src/map.rs:95-102 | the next chunk's lower bound lies exactly one step (`scale`) past this chunk's upper bound |
| `NoiseMap.DefaultOptionsBounds` | src/map.rs:79-83 | under the default options the sampling bounds of both axes are [0, size−1] |
| `Terrain.HalfOpenThreshold` | src/map.rs:132-134 | a value equal to `end_level` is never painted; a value equal to `start_level` is painted when the rule may write the cell and the range is non-empty |
| `Terrain.NonOverwriteKeepsSetCell` | src/map.rs:132 | a rule without `overwrite` leaves every cell that is not literally 0 unchanged |
| `Terrain.InertRuleKeepsCell` | src/map.rs:133-134 | a rule with `start_level >= end_level` changes no cell |
| `Terrain.LayerAppend` | src/map.rs:145-147 | applying the rule list `a + b` to a cell is applying `a` and then `b` to the result: rules take effect one after another, in list order |
| `Terrain.InertRulesKeepStart` | src/map.rs:133-134 | a list of inert rules leaves a cell at its starting value |
| `Terrain.SetCellSticks` | src/map.rs:132-147 | once a cell is non-zero, later rules without `overwrite` cannot change it |
| `Terrain.NonOverwriteRulesKeepSetStart` | src/map.rs:132-147 | with a non-zero fill and no overwriting rule, no cell is painted: the sentinel is 0, not the default block |
| `Terrain.LastCoveringOverwriteWins` | src/map.rs:132-147 | the last overwriting rule whose range covers a cell's value decides that cell, whatever came before it |
| `Terrain.RuleOrder` | src/map.rs:132-147 | two rules cover a value of a 0 cell: the second wins if it overwrites; otherwise a non-zero first block stays |
| `Terrain.BorderKeepsFill` | src/map.rs:130-131 | cells with x = X−1 or y = Y−1 keep the fill value under every rule list |
| `Terrain.NoRulesKeepFill` | src/map.rs:144-149 | with an empty rule list every cell equals the fill value |
| `Terrain.DefaultConfigPaintsNothing` | src/map.rs:48-52 | the default request yields a chunk that is entirely the default block |
| `Terrain.FourByFourScenario` | src/map.rs:130-137 | 4×4 chunk, fill 0, one overwriting rule painting 5 on [−1, 1), all-zero field: the inner 3×3 cells are 5, the last row and column are 0 |
| `Chunk.NewChunk` | src/map.rs:144 | a fresh X×Y chunk with every cell equal to the fill value |
| `Chunk.AddTerrain` | src/map.rs:122-140 | after one rule, a cell with x < X−1 and y < Y−1 holds the rule's block when (overwrite or the old value is 0) and start_level ≤ v(x,y) < end_level, where v is the field built from the options; every other cell, including the last row and column, keeps its old value |
| `Chunk.GenerateChunk` | src/map.rs:143-150 | the returned chunk is fresh, X×Y, and every cell equals `PaintedCell`: the fill value painted by the rules in list order over the options' field, and every cell with x = X−1 or y = Y−1 equals the default block |

`MapConfig.DefaultMapOptions` (src/map.rs:79-83) and
`NoiseMap.GenerateNoiseMap` (src/map.rs:86-119) are plain definitions with no
contract of their own. `DefaultOptionsBounds` and `GenerateChunk` state what
they mean.

## Left out

- The fractal noise (`Fbm`, `PlaneMapBuilder`, `NoiseMap::get_value`) is foreign library code. It is the `PlaneBuilder` parameter, with no property assumed beyond determinism. In particular, where the builder places each sample inside the sampling bounds is not modelled; the model proves facts about the bounds only.
- Floating point: levels, noise values, scale and positions are `real`. NaN, rounding and the `usize as f64` conversion are not modelled.
- `BlockID` is an unbounded `int`. The width of the source's integer type is not modelled; no property depends on it.
- `BlockID::default()` is assumed to be 0. `ChunkData::new(d)` is assumed to build an X×Y grid of `d`. The `data_types` crate is not part of this model.
- `Chunk.AddTerrain` requires X ≥ 1, and Y ≥ 1 when X ≥ 2. Otherwise `X-1` or `Y-1` underflows in the source when its loop reaches it. `Chunk.GenerateChunk` requires the same only when there is at least one rule.
- The `println!` diagnostics (src/map.rs:93, 103-107, 127, 129, 146) are output only and are left out.
- The `new` constructors of the three value types are the datatype constructors themselves.
- `src/main.rs` is not part of this model. It holds the HTTP server, the 2048-byte body limit, JSON (de)serialisation and the fixed 250×250 size.
