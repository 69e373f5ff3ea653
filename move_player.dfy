/**
 * `MovePlayerAction`: step the player one cell in `dir` and react to what
 * the target cell holds.
 */
module MovePlayerAction {
  import opened Wrappers
  import opened GameState
  import opened GameAction

  /** The treasure a level started with: what is collected plus what is still on the grid. */
  function TreasureTotal(v: StateView): nat {
    v.treasureCollected + |TreasureCells(v.grid)|
  }

  /** How the player's move reacts to the target cell. */
  datatype Reaction = Stay | Walk | Take | Open | Leave | Die

  /**
   * The target's reaction: a missing or walled cell, another player or a
   * grate stops the player; an empty cell, a treasure or a door lets it
   * through; an exit finishes the level; a pit or a monster kills it.
   */
  function ReactionTo(grid: Grid, to: Pos): Reaction {
    if to !in grid || |grid[to].walls| != 0 then Stay
    else
      match grid[to].thing
      case None => Walk
      case Some(t) =>
        match t.variant
        case Player => Stay
        case Treasure => Take
        case Door => Open
        case Grate => Stay
        case Exit => Leave
        case Pit => Die
        case Monster(_) => Die
  }

  /**
   * One move from the player's cell `from`: the new state and the actions
   * pushed, in push order.
   */
  function MoveFrom(v: StateView, from: Pos, dir: Pos): (r: (StateView, seq<Action>))
    requires from in v.grid && HoldsPlayer(v.grid[from])
    ensures var to := Step(from, dir);
            && r.0.grid.Keys == v.grid.Keys
            && (forall q :: q in v.grid && q != from && q != to ==> r.0.grid[q] == v.grid[q])
            && r.0 == v.(grid := r.0.grid, treasureCollected := r.0.treasureCollected, playSound := r.0.playSound)
  {
    var to := Step(from, dir);
    match ReactionTo(v.grid, to)
    case Stay => (v, [])
    case Walk => (v.(grid := MoveThing(v.grid, from, to)), [MoveMonsters])
    case Take =>
      (v.(grid := MoveThing(v.grid, from, to), treasureCollected := v.treasureCollected + 1), [CollectTreasure, MoveMonsters])
    case Open => (v.(grid := MoveThing(v.grid, from, to), playSound := v.playSound + ["open"]), [MoveMonsters])
    case Leave => (v, [Finish])
    case Die => (v.(grid := v.grid[from := v.grid[from].(thing := None)]), [Lost])
  }

  /**
   * The rule table of a move, target by target: a missing or walled cell,
   * another player or a grate leaves everything as it was; an exit only
   * pushes `Finish`; a pit or a monster takes the player off the grid and
   * pushes `Lost`; an empty cell, a treasure or a door carries the player
   * there and pushes `MoveMonsters`, a treasure also counting as collected
   * and pushing `CollectTreasure` first, a door also queueing the sound
   * "open".
   */
  lemma MoveRules(v: StateView, from: Pos, dir: Pos)
    requires from in v.grid && HoldsPlayer(v.grid[from])
    ensures var to := Step(from, dir);
            var r := MoveFrom(v, from, dir);
            var blocked := to !in v.grid || |v.grid[to].walls| != 0;
            var thing := if to in v.grid then v.grid[to].thing else None;
            && (blocked ==> r == (v, []))
            && (!blocked && thing.Some? && (thing.value.variant == Player || thing.value.variant == Grate) ==> r == (v, []))
            && (!blocked && thing.Some? && thing.value.variant == Exit ==> r == (v, [Finish]))
            && (!blocked && thing.Some? && (thing.value.variant == Pit || thing.value.variant.Monster?) ==>
                  r == (v.(grid := v.grid[from := v.grid[from].(thing := None)]), [Lost]))
            && (!blocked && thing.None? ==> r == (v.(grid := MoveThing(v.grid, from, to)), [MoveMonsters]))
            && (!blocked && thing.Some? && thing.value.variant == Treasure ==>
                  r == (v.(grid := MoveThing(v.grid, from, to), treasureCollected := v.treasureCollected + 1),
                        [CollectTreasure, MoveMonsters]))
            && (!blocked && thing.Some? && thing.value.variant == Door ==>
                  r == (v.(grid := MoveThing(v.grid, from, to), playSound := v.playSound + ["open"]), [MoveMonsters]))
  {
  }

  /**
   * What a move amounts to: the state is left alone exactly when nothing or
   * only `Finish` is pushed; when `MoveMonsters` is pushed (always last) the
   * player has been carried onto the target, which keeps its walls and
   * floor; when `Lost` is pushed the player has been taken off the grid and
   * the target is untouched.
   */
  lemma MoveOutcomes(v: StateView, from: Pos, dir: Pos)
    requires from in v.grid && HoldsPlayer(v.grid[from])
    ensures var r := MoveFrom(v, from, dir);
            var to := Step(from, dir);
            && (r.1 == [] || r.1 == [Finish] || r.1 == [Lost] || r.1 == [MoveMonsters] || r.1 == [CollectTreasure, MoveMonsters])
            && (r.0 == v <==> r.1 == [] || r.1 == [Finish])
            && (MoveMonsters in r.1 ==> to in v.grid && to != from && r.0.grid[to] == v.grid[to].(thing := v.grid[from].thing)
                                        && r.0.grid[from].thing.None?)
            && (r.1 == [Lost] ==> PlayerCells(r.0.grid) == PlayerCells(v.grid) - {from} && r.0.grid[from].thing.None?
                                  && (to in v.grid ==> r.0.grid[to] == v.grid[to]))
  {
    var r := MoveFrom(v, from, dir);
    var to := Step(from, dir);
    match ReactionTo(v.grid, to)
    case Stay =>
    case Leave =>
    case Walk =>
      assert r.0.grid[from] != v.grid[from];
    case Take =>
      assert r.0.grid[from] != v.grid[from];
    case Open =>
      assert r.0.grid[from] != v.grid[from];
    case Die =>
      assert r.0.grid[from] != v.grid[from];
      SetThingCount(v.grid, from, None, PlayerKind);
  }

  /**
   * A move never creates or destroys treasure: what it takes off the grid
   * it counts as collected. Monsters are neither added nor removed, and the
   * player is never duplicated.
   */
  lemma MoveConserves(v: StateView, from: Pos, dir: Pos)
    requires from in v.grid && HoldsPlayer(v.grid[from])
    ensures var r := MoveFrom(v, from, dir).0;
            && TreasureTotal(r) == TreasureTotal(v)
            && MonsterCells(r.grid) == MonsterCells(v.grid)
            && |PlayerCells(r.grid)| <= |PlayerCells(v.grid)|
  {
    var to := Step(from, dir);
    var r := MoveFrom(v, from, dir).0;
    match ReactionTo(v.grid, to)
    case Stay =>
    case Leave =>
    case Die =>
      DieCounts(v.grid, from);
    case Walk =>
      CarryCounts(v.grid, from, to);
    case Take =>
      CarryCounts(v.grid, from, to);
    case Open =>
      CarryCounts(v.grid, from, to);
  }

  /** Taking the player off its cell. */
  lemma DieCounts(grid: Grid, from: Pos)
    requires from in grid && HoldsPlayer(grid[from])
    ensures TreasureCells(grid[from := grid[from].(thing := None)]) == TreasureCells(grid)
    ensures MonsterCells(grid[from := grid[from].(thing := None)]) == MonsterCells(grid)
    ensures |PlayerCells(grid[from := grid[from].(thing := None)])| + 1 == |PlayerCells(grid)|
  {
    ClearOtherKind(grid, from, TreasureKind);
    ClearOtherKind(grid, from, MonsterKind);
    SetThingCount(grid, from, None, PlayerKind);
  }

  /** Carrying the player onto a cell that holds neither a monster nor the player. */
  lemma CarryCounts(grid: Grid, from: Pos, to: Pos)
    requires from in grid && to in grid && from != to
    requires HoldsPlayer(grid[from]) && !HoldsMonster(grid[to]) && !HoldsPlayer(grid[to])
    ensures |TreasureCells(MoveThing(grid, from, to))| + (if HoldsTreasure(grid[to]) then 1 else 0) == |TreasureCells(grid)|
    ensures MonsterCells(MoveThing(grid, from, to)) == MonsterCells(grid)
    ensures |PlayerCells(MoveThing(grid, from, to))| == |PlayerCells(grid)|
  {
    MoveOntoKind(grid, from, to, TreasureKind);
    MoveKeepsKind(grid, from, to, MonsterKind);
    MoveOfKind(grid, from, to, PlayerKind);
  }

  /**
   * `MovePlayerAction::exec`: with no player on the grid nothing happens;
   * otherwise `from` is the cell `find_player` chose and the move follows
   * `MoveFrom`.
   */
  method Exec(ctx: ActionContext, dir: Pos) returns (ghost from: Option<Pos>)
    modifies ctx, ctx.state
    ensures from.None? <==> PlayerCells(old(ctx.state.grid)) == {}
    ensures from.None? ==> ctx.state.View() == old(ctx.state.View()) && ctx.newActions == old(ctx.newActions)
    ensures from.Some? ==>
              && from.value in old(ctx.state.grid) && HoldsPlayer(old(ctx.state.grid)[from.value])
              && ctx.state.View() == MoveFrom(old(ctx.state.View()), from.value, dir).0
              && ctx.newActions == old(ctx.newActions) + MoveFrom(old(ctx.state.View()), from.value, dir).1
    ensures ctx.saves == old(ctx.saves)
  {
    var found := ctx.state.FindPlayer();
    from := found;
    if found.None? {
      return;
    }
    var player := found.value;
    ghost var v := ctx.state.View();
    ghost var a := ctx.newActions;
    var to := Step(player, dir);
    var performMove := false;
    match ReactionTo(ctx.state.grid, to) {
      case Stay =>
      case Walk =>
        performMove := true;
      case Take =>
        ctx.state.treasureCollected := ctx.state.treasureCollected + 1;
        ctx.PushAction(CollectTreasure);
        performMove := true;
      case Open =>
        performMove := true;
        ctx.state.playSound := ctx.state.playSound + ["open"];
      case Leave =>
        ctx.PushAction(Finish);
      case Die =>
        ctx.state.grid := ctx.state.grid[player := ctx.state.grid[player].(thing := None)];
        ctx.PushAction(Lost);
    }
    if performMove {
      Carry(ctx, player, to);
    }
  }

  /** The move itself: take the player out of `from`, put it into `to`, and push `MoveMonsters`. */
  method Carry(ctx: ActionContext, from: Pos, to: Pos)
    requires from in ctx.state.grid && to in ctx.state.grid && from != to
    modifies ctx, ctx.state
    ensures ctx.state.View() == old(ctx.state.View()).(grid := MoveThing(old(ctx.state.grid), from, to))
    ensures ctx.newActions == old(ctx.newActions) + [MoveMonsters]
    ensures ctx.saves == old(ctx.saves)
  {
    var thing := ctx.state.grid[from].thing;
    ctx.state.grid := ctx.state.grid[from := ctx.state.grid[from].(thing := None)];
    ctx.state.grid := ctx.state.grid[to := ctx.state.grid[to].(thing := thing)];
    ctx.PushAction(MoveMonsters);
  }
}
