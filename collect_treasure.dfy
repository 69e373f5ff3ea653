/**
 * `CollectTreasureAction`: after a treasure is picked up, count the
 * treasure still on the grid; when none is left every grate opens. The
 * pickup sound is always queued.
 */
module CollectTreasureAction {
  import opened Wrappers
  import opened GameState
  import opened GameAction

  /** Every grate taken off the grid; every other cell as it was. */
  function ClearGrates(grid: Grid): (r: Grid)
    ensures r.Keys == grid.Keys
    ensures GrateCells(r) == {}
  {
    var r := map q | q in grid :: if HoldsGrate(grid[q]) then grid[q].(thing := None) else grid[q];
    assert forall q :: q in r ==> !HoldsGrate(r[q]);
    r
  }

  /**
   * The grid after collecting: unchanged while some treasure is left;
   * otherwise without a single grate. Either way only grates are removed,
   * and a cell loses nothing but its thing.
   */
  function AfterCollect(grid: Grid): (r: Grid)
    ensures r.Keys == grid.Keys
    ensures TreasureCells(grid) != {} ==> r == grid
    ensures TreasureCells(grid) == {} ==> GrateCells(r) == {}
    ensures forall q :: q in grid ==> r[q] == grid[q] || (HoldsGrate(grid[q]) && r[q] == grid[q].(thing := None))
  {
    if TreasureCells(grid) == {} then ClearGrates(grid) else grid
  }

  /** Collecting never touches the player, the monsters or the treasure. */
  lemma CollectKeepsOthers(grid: Grid)
    ensures PlayerCells(AfterCollect(grid)) == PlayerCells(grid)
    ensures MonsterCells(AfterCollect(grid)) == MonsterCells(grid)
    ensures TreasureCells(AfterCollect(grid)) == TreasureCells(grid)
    ensures GrateCells(AfterCollect(grid)) <= GrateCells(grid)
  {
    var r := AfterCollect(grid);
    forall q | q in grid
      ensures HoldsPlayer(r[q]) == HoldsPlayer(grid[q])
      ensures HoldsMonster(r[q]) == HoldsMonster(grid[q])
      ensures HoldsTreasure(r[q]) == HoldsTreasure(grid[q])
      ensures HoldsGrate(r[q]) ==> HoldsGrate(grid[q])
    {
    }
  }

  /** Collecting twice in a row is the same as collecting once. */
  lemma CollectIdempotent(grid: Grid)
    ensures AfterCollect(AfterCollect(grid)) == AfterCollect(grid)
  {
    var once := AfterCollect(grid);
    CollectKeepsOthers(grid);
    if TreasureCells(grid) == {} {
      var twice := AfterCollect(once);
      forall q | q in once
        ensures twice[q] == once[q]
      {
      }
    }
  }

  /**
   * `CollectTreasureAction::exec`: one loop counts the treasure left, a
   * second one (run only when the count is zero) empties every grate cell;
   * then `"pickup"` is queued. No action is pushed.
   */
  method Exec(ctx: ActionContext)
    modifies ctx.state
    ensures ctx.state.View()
            == old(ctx.state.View()).(grid := AfterCollect(old(ctx.state.grid)), playSound := old(ctx.state.playSound) + ["pickup"])
  {
    var grid := ctx.state.grid;
    var treasureLeft := CountTreasure(grid);
    if treasureLeft == 0 {
      ctx.state.grid := ClearAllGrates(grid);
    }
    ctx.state.playSound := ctx.state.playSound + ["pickup"];
  }

  /** The counting loop: the number of cells holding a treasure. */
  method CountTreasure(grid: Grid) returns (n: nat)
    ensures n == |TreasureCells(grid)|
  {
    n := 0;
    var todo := grid.Keys;
    ghost var counted: set<Pos> := {};
    while todo != {}
      invariant todo <= grid.Keys
      invariant counted == set q | q in grid && q !in todo && HoldsTreasure(grid[q])
      invariant n == |counted|
      decreases todo
    {
      var q :| q in todo;
      if HoldsTreasure(grid[q]) {
        assert q !in counted;
        n := n + 1;
        counted := counted + {q};
      }
      todo := todo - {q};
    }
    assert counted == TreasureCells(grid);
  }

  /** The clearing loop: every cell holding a grate is emptied, one at a time. */
  method ClearAllGrates(grid: Grid) returns (r: Grid)
    ensures r == ClearGrates(grid)
  {
    r := grid;
    var todo := grid.Keys;
    while todo != {}
      invariant todo <= grid.Keys
      invariant r.Keys == grid.Keys
      invariant forall q :: q in grid ==> r[q] == (if q !in todo && HoldsGrate(grid[q]) then grid[q].(thing := None) else grid[q])
      decreases todo
    {
      var q :| q in todo;
      var cell := r[q];
      if cell.thing.Some? && cell.thing.value.variant.Grate? {
        r := r[q := cell.(thing := None)];
      }
      todo := todo - {q};
    }
  }
}
