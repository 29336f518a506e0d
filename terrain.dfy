/**
 What the painter does, stated cell by cell. Painting never looks at a
 neighbouring cell, so the whole effect of a rule list on a chunk is fixed by
 what it does to one cell given that cell's noise value; `PaintedCell` gives
 the value of every cell of a finished chunk.
 */
module Terrain {
  import opened MapConfig
  import opened NoiseMap

  /**
   The cells the painter's loops reach: `x` runs over `0..width-1` and `y` over
   `0..height-1`, both exclusive, so the last row and the last column are skipped.
   */
  predicate Visited(x: nat, y: nat, width: nat, height: nat) {
    x < width - 1 && y < height - 1
  }

  /** A rule paints a visited cell when it may overwrite or the cell is still `Unset`, and the value is in range. */
  predicate Paints(rule: BlockConfig, current: BlockID, v: real) {
    (rule.overwrite || current == Unset) && rule.Covers(v)
  }

  /** The value of a visited cell after one rule. */
  function PaintCell(rule: BlockConfig, current: BlockID, v: real): BlockID {
    if Paints(rule, current, v) then rule.block else current
  }

  /** The value of a visited cell that held `start` after the rules, applied in list order, all seeing noise value `v`. */
  function Layer(start: BlockID, rules: seq<BlockConfig>, v: real): BlockID
    decreases |rules|
  {
    if rules == [] then start
    else PaintCell(rules[|rules| - 1], Layer(start, rules[..|rules| - 1], v), v)
  }

  /** The value of cell (x, y) of a `width` by `height` chunk filled with `start` and then painted with `rules` over `field`. */
  function PaintedCell(start: BlockID, rules: seq<BlockConfig>, field: Field, width: nat, height: nat, x: nat, y: nat): BlockID {
    if Visited(x, y, width, height) then Layer(start, rules, field(x, y)) else start
  }

  // ---------------------------------------------------------------------------
  // One rule

  /** The threshold test is half-open: the end level itself is never painted, the start level is. */
  lemma HalfOpenThreshold(rule: BlockConfig, current: BlockID)
    ensures PaintCell(rule, current, rule.end_level) == current
    ensures (rule.overwrite || current == Unset) && rule.start_level < rule.end_level
            ==> PaintCell(rule, current, rule.start_level) == rule.block
  {
  }

  /** A rule without `overwrite` leaves every cell that is not `Unset` (literally 0) as it is. */
  lemma NonOverwriteKeepsSetCell(rule: BlockConfig, current: BlockID, v: real)
    requires !rule.overwrite && current != Unset
    ensures PaintCell(rule, current, v) == current
  {
  }

  /** A rule whose start level is not below its end level changes nothing. */
  lemma InertRuleKeepsCell(rule: BlockConfig, current: BlockID, v: real)
    requires rule.end_level <= rule.start_level
    ensures PaintCell(rule, current, v) == current
  {
  }

  // ---------------------------------------------------------------------------
  // A list of rules

  /** Applying `a` and then `b` is applying `a + b`: a rule list acts as its rules, one after another, in list order. */
  lemma {:induction false} LayerAppend(start: BlockID, a: seq<BlockConfig>, b: seq<BlockConfig>, v: real)
    ensures Layer(start, a + b, v) == Layer(Layer(start, a, v), b, v)
  {
    if b == [] {
      assert a + b == a;
    } else {
      var init := b[..|b| - 1];
      assert (a + b)[..|a + b| - 1] == a + init;
      LayerAppend(start, a, init, v);
    }
  }

  /** The step the generator's loop takes: the first k + 1 rules are rule k after the first k. */
  lemma LayerPrefix(start: BlockID, rules: seq<BlockConfig>, k: nat, v: real)
    requires k < |rules|
    ensures Layer(start, rules[..k + 1], v) == PaintCell(rules[k], Layer(start, rules[..k], v), v)
  {
    assert rules[..k + 1][..k] == rules[..k];
  }

  /** Rules that are all inert leave a cell at its starting value. */
  lemma {:induction false} InertRulesKeepStart(start: BlockID, rules: seq<BlockConfig>, v: real)
    requires forall i :: 0 <= i < |rules| ==> rules[i].end_level <= rules[i].start_level
    ensures Layer(start, rules, v) == start
  {
    if rules != [] {
      InertRulesKeepStart(start, rules[..|rules| - 1], v);
    }
  }

  /**
   Once a cell holds a non-`Unset` value, later rules without `overwrite` cannot
   change it: from rule `k` on, only an overwriting rule can.
   */
  lemma {:induction false} SetCellSticks(start: BlockID, rules: seq<BlockConfig>, k: nat, v: real)
    requires k <= |rules|
    requires Layer(start, rules[..k], v) != Unset
    requires forall j :: k <= j < |rules| ==> !rules[j].overwrite
    ensures Layer(start, rules, v) == Layer(start, rules[..k], v)
  {
    if k < |rules| {
      var init := rules[..|rules| - 1];
      assert init[..k] == rules[..k];
      SetCellSticks(start, init, k, v);
      assert rules[..|rules|] == rules;
    } else {
      assert rules[..k] == rules;
    }
  }

  /**
   A cell that starts non-`Unset` is never painted by rules without `overwrite`,
   even when it holds the fill value rather than a painted one.
   */
  lemma {:induction false} NonOverwriteRulesKeepSetStart(start: BlockID, rules: seq<BlockConfig>, v: real)
    requires start != Unset
    requires forall j :: 0 <= j < |rules| ==> !rules[j].overwrite
    ensures Layer(start, rules, v) == start
  {
    assert rules[..0] == [];
    SetCellSticks(start, rules, 0, v);
  }

  /** The last overwriting rule that covers a cell's value decides it, whatever came before. */
  lemma {:induction false} LastCoveringOverwriteWins(start: BlockID, rules: seq<BlockConfig>, k: nat, v: real)
    requires k < |rules|
    requires rules[k].overwrite && rules[k].Covers(v)
    requires forall j :: k < j < |rules| ==> !rules[j].Covers(v)
    ensures Layer(start, rules, v) == rules[k].block
  {
    var init := rules[..|rules| - 1];
    if k < |rules| - 1 {
      LastCoveringOverwriteWins(start, init, k, v);
    }
  }

  /**
   Two rules that both cover a value, applied to an `Unset` cell: the second wins
   if it overwrites; otherwise a non-`Unset` first block stays.
   */
  lemma RuleOrder(first: BlockConfig, second: BlockConfig, v: real)
    requires first.Covers(v) && second.Covers(v)
    ensures second.overwrite ==> Layer(Unset, [first, second], v) == second.block
    ensures !second.overwrite && first.block != Unset ==> Layer(Unset, [first, second], v) == first.block
  {
    assert [first, second][..1] == [first];
    assert [first][..0] == [];
    assert Layer(Unset, [first], v) == first.block;
  }

  // ---------------------------------------------------------------------------
  // A finished chunk

  /** The last row and the last column are never painted: they keep the fill value under any rules. */
  lemma BorderKeepsFill(start: BlockID, rules: seq<BlockConfig>, field: Field, width: nat, height: nat, x: nat, y: nat)
    requires x < width && y < height
    requires x == width - 1 || y == height - 1
    ensures PaintedCell(start, rules, field, width, height, x, y) == start
  {
  }

  /** With no rules every cell keeps the fill value. */
  lemma NoRulesKeepFill(start: BlockID, field: Field, width: nat, height: nat, x: nat, y: nat)
    ensures PaintedCell(start, [], field, width, height, x, y) == start
  {
  }

  /** The default request paints nothing: every cell is the default block. */
  lemma DefaultConfigPaintsNothing(field: Field, width: nat, height: nat, x: nat, y: nat)
    ensures PaintedCell(DefaultConfig().default_block, DefaultConfig().blocks, field, width, height, x, y) == DefaultBlockID
  {
    var config := DefaultConfig();
    if Visited(x, y, width, height) {
      InertRulesKeepStart(config.default_block, config.blocks, field(x, y));
    }
  }

  /**
   A 4 by 4 chunk filled with 0, one overwriting rule painting 5 on `[-1, 1)`, and
   a field that is 0 everywhere: the inner 3 by 3 cells are 5 and the last row and
   column stay 0.
   */
  lemma FourByFourScenario(x: nat, y: nat)
    requires x < 4 && y < 4
    ensures PaintedCell(0, [BlockConfig(5, -1.0, 1.0, true)], (_, _) => 0.0, 4, 4, x, y)
            == if x < 3 && y < 3 then 5 else 0
  {
    assert [BlockConfig(5, -1.0, 1.0, true)][..0] == [];
  }
}
