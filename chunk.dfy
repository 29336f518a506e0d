/**
 The chunk generator: a chunk is a `width` by `height` array of block
 identifiers, indexed `chunk[x, y]`, filled and then painted in place, one rule
 at a time.
 */
module Chunk {
  import opened MapConfig
  import opened NoiseMap
  import opened Terrain

  /**
   The sizes for which the painter's loop bounds `width - 1` and `height - 1`
   exist whenever they are reached (they are unsigned in the source): the outer
   bound always, the inner bound only when the outer loop runs at all.
   */
  predicate Paintable(width: nat, height: nat) {
    1 <= width && (2 <= width ==> 1 <= height)
  }

  /** A fresh chunk with every cell set to `fill`. */
  method NewChunk(width: nat, height: nat, fill: BlockID) returns (chunk: array2<BlockID>)
    ensures fresh(chunk)
    ensures chunk.Length0 == width && chunk.Length1 == height
    ensures forall x, y :: 0 <= x < width && 0 <= y < height ==> chunk[x, y] == fill
  {
    chunk := new BlockID[width, height]((_, _) => fill);
  }

  /**
   Paints one rule onto `chunk`. The noise field is regenerated from `options`,
   then every visited cell the rule `Paints` takes the rule's block; the last
   row, the last column and every other cell keep their value.
   */
  method AddTerrain(builder: PlaneBuilder, options: MapOptions, rule: BlockConfig, chunk: array2<BlockID>)
    requires Paintable(chunk.Length0, chunk.Length1)
    modifies chunk
    ensures forall x, y :: 0 <= x < chunk.Length0 && 0 <= y < chunk.Length1 ==>
      chunk[x, y] ==
        if Visited(x, y, chunk.Length0, chunk.Length1)
           && Paints(rule, old(chunk[x, y]), GenerateNoiseMap(builder, options, chunk.Length0, chunk.Length1)(x, y))
        then rule.block
        else old(chunk[x, y])
  {
    var width, height := chunk.Length0, chunk.Length1;
    var field := GenerateNoiseMap(builder, options, width, height);
    for x := 0 to width - 1
      invariant forall i, j :: 0 <= i < width && 0 <= j < height ==>
        chunk[i, j] == if i < x && Visited(i, j, width, height) then PaintCell(rule, old(chunk[i, j]), field(i, j)) else old(chunk[i, j])
    {
      for y := 0 to height - 1
        invariant forall i, j :: 0 <= i < width && 0 <= j < height ==>
          chunk[i, j] ==
            if (i < x || (i == x && j < y)) && Visited(i, j, width, height)
            then PaintCell(rule, old(chunk[i, j]), field(i, j))
            else old(chunk[i, j])
      {
        if (rule.overwrite || chunk[x, y] == Unset)
           && rule.start_level <= field(x, y)
           && field(x, y) < rule.end_level
        {
          chunk[x, y] := rule.block;
        }
      }
    }
  }

  /**
   Generates a chunk: fills it with the request's default block, then paints the
   rules in list order, each over the field of the request's map options. Every
   cell ends up as `PaintedCell` says.
   */
  method GenerateChunk(builder: PlaneBuilder, config: Config, width: nat, height: nat) returns (chunk: array2<BlockID>)
    requires |config.blocks| > 0 ==> Paintable(width, height)
    ensures fresh(chunk)
    ensures chunk.Length0 == width && chunk.Length1 == height
    ensures forall x, y :: 0 <= x < width && 0 <= y < height ==>
      chunk[x, y] == PaintedCell(config.default_block, config.blocks,
                                 GenerateNoiseMap(builder, config.map_options, width, height),
                                 width, height, x, y)
    ensures forall x, y :: 0 <= x < width && 0 <= y < height && (x == width - 1 || y == height - 1) ==>
      chunk[x, y] == config.default_block
  {
    chunk := NewChunk(width, height, config.default_block);
    ghost var field := GenerateNoiseMap(builder, config.map_options, width, height);
    for i := 0 to |config.blocks|
      invariant forall x, y :: 0 <= x < width && 0 <= y < height ==>
        chunk[x, y] == PaintedCell(config.default_block, config.blocks[..i], field, width, height, x, y)
    {
      AddTerrain(builder, config.map_options, config.blocks[i], chunk);
      forall x, y | 0 <= x < width && 0 <= y < height && Visited(x, y, width, height)
        ensures chunk[x, y] == PaintedCell(config.default_block, config.blocks[..i + 1], field, width, height, x, y)
      {
        LayerPrefix(config.default_block, config.blocks, i, field(x, y));
      }
    }
    assert config.blocks[..|config.blocks|] == config.blocks;
  }
}
