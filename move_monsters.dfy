/**
 * `MoveMonstersAction`: every monster on the grid takes a turn, in the order
 * `find_monsters` lists them. A monster thinks on every turn and acts on
 * every second one, stepping towards the player along the path the search
 * finds.
 */
module MoveMonstersAction {
  import opened Wrappers
  import opened GameState
  import opened GameAction

  /** The monster at `m` with its `think` counter advanced by one. */
  function Thought(grid: Grid, m: Pos): Grid
    requires m in grid && HoldsMonster(grid[m])
  {
    var t := grid[m].thing.value;
    grid[m := grid[m].(thing := Some(t.(variant := Monster(t.variant.think + 1))))]
  }

  /**
   * An acting monster at `m` chasing the player's cell `player`: it steps
   * onto the second cell of the search's path (the first after its own) when
   * that cell exists and is empty or holds the player. The new grid, and
   * whether it caught the player.
   */
  function Chase(grid: Grid, player: Pos, m: Pos, search: Search): (r: (Grid, bool))
    requires m in grid && HoldsMonster(grid[m])
    ensures r.0.Keys == grid.Keys
  {
    var path := FoundPath(grid, m, player, search);
    if |path| < 2 || path[1] !in grid then (grid, false)
    else
      var to := path[1];
      match grid[to].thing
      case None => (MoveThing(grid, m, to), false)
      case Some(t) => if t.variant.Player? then (MoveThing(grid, m, to), true) else (grid, false)
  }

  /**
   * One monster's turn, for the cell `m` listed by `find_monsters`, chasing
   * the player's cell `player`: the new grid, and whether the monster caught
   * the player.
   */
  function MonsterTurn(grid: Grid, player: Pos, m: Pos, search: Search): (r: (Grid, bool))
    requires m in grid
    ensures r.0.Keys == grid.Keys
  {
    if !HoldsMonster(grid[m]) then (grid, false)
    else if grid[m].thing.value.variant.think % 2 != 0 then (Thought(grid, m), false)
    else Chase(Thought(grid, m), player, m, search)
  }

  /**
   * The rules of a turn: only a monster takes one; it always thinks, acts
   * only when its counter was even, and then moves only onto the second cell
   * of the search's path (the first after its own), and only when that cell
   * is empty or holds the player; it catches the player exactly when it
   * steps onto the player.
   */
  lemma MonsterTurnRules(grid: Grid, player: Pos, m: Pos, search: Search)
    requires m in grid
    ensures var r := MonsterTurn(grid, player, m, search);
            && (!HoldsMonster(grid[m]) ==> r == (grid, false))
            && (HoldsMonster(grid[m]) && grid[m].thing.value.variant.think % 2 != 0 ==> r == (Thought(grid, m), false))
            && (HoldsMonster(grid[m]) && r.0 != Thought(grid, m) ==>
                  var path := FoundPath(Thought(grid, m), m, player, search);
                  && grid[m].thing.value.variant.think % 2 == 0
                  && |path| >= 2 && path[1] in grid && path[1] != m
                  && (grid[path[1]].thing.None? || HoldsPlayer(grid[path[1]]))
                  && r.0 == MoveThing(Thought(grid, m), m, path[1])
                  && (r.1 <==> HoldsPlayer(grid[path[1]])))
            && (r.1 ==> HoldsMonster(grid[m]) && r.0 != Thought(grid, m))
  {
  }

  /**
   * A turn keeps the number of monsters and every treasure, and loses the
   * player's cell exactly when the monster catches it.
   */
  lemma MonsterTurnCounts(grid: Grid, player: Pos, m: Pos, search: Search)
    requires m in grid
    ensures var r := MonsterTurn(grid, player, m, search);
            && |MonsterCells(r.0)| == |MonsterCells(grid)|
            && TreasureCells(r.0) == TreasureCells(grid)
            && PlayerCells(r.0) <= PlayerCells(grid)
            && |PlayerCells(r.0)| + (if r.1 then 1 else 0) == |PlayerCells(grid)|
  {
    var r := MonsterTurn(grid, player, m, search);
    if HoldsMonster(grid[m]) {
      var thought := Thought(grid, m);
      ThinkCounts(grid, m);
      if r.0 != thought {
        var to := FoundPath(thought, m, player, search)[1];
        StepCounts(thought, m, to);
      }
    }
  }

  /** Thinking changes no count. */
  lemma ThinkCounts(grid: Grid, m: Pos)
    requires m in grid && HoldsMonster(grid[m])
    ensures MonsterCells(Thought(grid, m)) == MonsterCells(grid)
    ensures TreasureCells(Thought(grid, m)) == TreasureCells(grid)
    ensures PlayerCells(Thought(grid, m)) == PlayerCells(grid)
  {
    var t := Thought(grid, m)[m].thing;
    assert MonsterCells(Thought(grid, m)) == MonsterCells(grid) by {
      SetThingCells(grid, m, t, MonsterKind);
    }
    assert TreasureCells(Thought(grid, m)) == TreasureCells(grid) by {
      SetThingCells(grid, m, t, TreasureKind);
    }
    assert PlayerCells(Thought(grid, m)) == PlayerCells(grid) by {
      SetThingCells(grid, m, t, PlayerKind);
    }
  }

  /** A monster stepping onto an empty cell or the player's. */
  lemma StepCounts(grid: Grid, m: Pos, to: Pos)
    requires m in grid && to in grid && m != to
    requires HoldsMonster(grid[m]) && (grid[to].thing.None? || HoldsPlayer(grid[to]))
    ensures |MonsterCells(MoveThing(grid, m, to))| == |MonsterCells(grid)|
    ensures TreasureCells(MoveThing(grid, m, to)) == TreasureCells(grid)
    ensures PlayerCells(MoveThing(grid, m, to)) == PlayerCells(grid) - {to}
    ensures |PlayerCells(MoveThing(grid, m, to))| + (if HoldsPlayer(grid[to]) then 1 else 0) == |PlayerCells(grid)|
  {
    MoveOfKind(grid, m, to, MonsterKind);
    MoveKeepsKind(grid, m, to, TreasureKind);
    MoveOntoKind(grid, m, to, PlayerKind);
  }

  /** The first `n` turns of the monsters listed in `order`: the grid, and the actions pushed. */
  function TurnsUpTo(grid: Grid, player: Pos, order: seq<Pos>, n: nat, search: Search): (r: (Grid, seq<Action>))
    requires n <= |order|
    requires forall i :: 0 <= i < |order| ==> order[i] in grid
    ensures r.0.Keys == grid.Keys
    decreases n
  {
    if n == 0 then (grid, [])
    else
      var before := TurnsUpTo(grid, player, order, n - 1, search);
      var turn := MonsterTurn(before.0, player, order[n - 1], search);
      (turn.0, before.1 + (if turn.1 then [Lost] else []))
  }

  /**
   * Over all turns: the number of monsters and the treasure stay as they
   * were, only `Lost` is pushed, once for every player cell a monster
   * stepped onto; so with a single player at most one `Lost` is pushed.
   */
  lemma {:induction false} TurnsConserve(grid: Grid, player: Pos, order: seq<Pos>, n: nat, search: Search)
    requires n <= |order|
    requires forall i :: 0 <= i < |order| ==> order[i] in grid
    ensures var r := TurnsUpTo(grid, player, order, n, search);
            && |MonsterCells(r.0)| == |MonsterCells(grid)|
            && TreasureCells(r.0) == TreasureCells(grid)
            && PlayerCells(r.0) <= PlayerCells(grid)
            && |PlayerCells(r.0)| + |r.1| == |PlayerCells(grid)|
            && forall i :: 0 <= i < |r.1| ==> r.1[i] == Lost
    decreases n
  {
    if n > 0 {
      TurnsConserve(grid, player, order, n - 1, search);
      var before := TurnsUpTo(grid, player, order, n - 1, search);
      MonsterTurnCounts(before.0, player, order[n - 1], search);
    }
  }

  /**
   * `MoveMonstersAction::exec`: with no player on the grid nothing happens;
   * otherwise `player` is the cell `find_player` chose and `order` lists
   * every monster once, in the order `find_monsters` returned them, and
   * the monsters take their turns in that order.
   */
  method Exec(ctx: ActionContext, search: Search) returns (ghost player: Option<Pos>, ghost order: seq<Pos>)
    modifies ctx, ctx.state
    ensures player.None? <==> PlayerCells(old(ctx.state.grid)) == {}
    ensures player.None? ==> ctx.state.View() == old(ctx.state.View()) && ctx.newActions == old(ctx.newActions)
    ensures player.Some? ==>
              && player.value in PlayerCells(old(ctx.state.grid))
              && (forall i :: 0 <= i < |order| ==> order[i] in MonsterCells(old(ctx.state.grid)))
              && (forall q :: q in MonsterCells(old(ctx.state.grid)) ==> q in order)
              && (forall i, j :: 0 <= i < j < |order| ==> order[i] != order[j])
              && var r := TurnsUpTo(old(ctx.state.grid), player.value, order, |order|, search);
                 && ctx.state.View() == old(ctx.state.View()).(grid := r.0)
                 && ctx.newActions == old(ctx.newActions) + r.1
    ensures ctx.saves == old(ctx.saves)
  {
    var found := ctx.state.FindPlayer();
    player := found;
    order := [];
    if found.None? {
      return;
    }
    assert found.value in PlayerCells(ctx.state.grid);
    var monsters := ctx.state.FindMonsters();
    order := monsters;
    TakeTurns(ctx, found.value, monsters, search);
  }

  /** The loop of `exec`: every monster in `order` takes its turn, in order. */
  method TakeTurns(ctx: ActionContext, player: Pos, order: seq<Pos>, search: Search)
    requires forall i :: 0 <= i < |order| ==> order[i] in ctx.state.grid
    modifies ctx, ctx.state
    ensures var r := TurnsUpTo(old(ctx.state.grid), player, order, |order|, search);
            && ctx.state.View() == old(ctx.state.View()).(grid := r.0)
            && ctx.newActions == old(ctx.newActions) + r.1
    ensures ctx.saves == old(ctx.saves)
  {
    ghost var v := ctx.state.View();
    ghost var a := ctx.newActions;
    var i := 0;
    while i < |order|
      invariant 0 <= i <= |order|
      invariant ctx.state.View() == v.(grid := TurnsUpTo(v.grid, player, order, i, search).0)
      invariant ctx.newActions == a + TurnsUpTo(v.grid, player, order, i, search).1
      invariant ctx.saves == old(ctx.saves)
    {
      TurnAt(ctx, player, order, i, search, v, a);
      i := i + 1;
    }
  }

  /** The `i`-th pass of the loop: monster `order[i]` takes its turn on the state the earlier turns left. */
  method TurnAt(ctx: ActionContext, player: Pos, order: seq<Pos>, i: nat, search: Search, ghost v: StateView, ghost a: seq<Action>)
    requires i < |order| && forall j :: 0 <= j < |order| ==> order[j] in v.grid
    requires ctx.state.View() == v.(grid := TurnsUpTo(v.grid, player, order, i, search).0)
    requires ctx.newActions == a + TurnsUpTo(v.grid, player, order, i, search).1
    modifies ctx, ctx.state
    ensures ctx.state.View() == v.(grid := TurnsUpTo(v.grid, player, order, i + 1, search).0)
    ensures ctx.newActions == a + TurnsUpTo(v.grid, player, order, i + 1, search).1
    ensures ctx.saves == old(ctx.saves)
  {
    ghost var before := TurnsUpTo(v.grid, player, order, i, search);
    ghost var turn := MonsterTurn(before.0, player, order[i], search);
    assert TurnsUpTo(v.grid, player, order, i + 1, search) == (turn.0, before.1 + (if turn.1 then [Lost] else []));
    Turn(ctx, player, order[i], search);
  }

  /** One monster's turn, on the context. */
  method Turn(ctx: ActionContext, player: Pos, m: Pos, search: Search)
    requires m in ctx.state.grid
    modifies ctx, ctx.state
    ensures var r := MonsterTurn(old(ctx.state.grid), player, m, search);
            && ctx.state.View() == old(ctx.state.View()).(grid := r.0)
            && ctx.newActions == old(ctx.newActions) + (if r.1 then [Lost] else [])
    ensures ctx.saves == old(ctx.saves)
  {
    ghost var g := ctx.state.grid;
    var cell := ctx.state.grid[m];
    if cell.thing.None? {
      return;
    }
    var thing := cell.thing.value;
    if !thing.variant.Monster? {
      return;
    }
    var think := thing.variant.think;
    var act := think % 2 == 0;
    ctx.state.grid := ctx.state.grid[m := cell.(thing := Some(thing.(variant := Monster(think + 1))))];
    assert ctx.state.grid == Thought(g, m);
    if !act {
      return;
    }
    assert MonsterTurn(g, player, m, search) == Chase(Thought(g, m), player, m, search);
    ChaseStep(ctx, player, m, search);
  }

  /** The acting part of a turn: find the path and step along it. */
  method ChaseStep(ctx: ActionContext, player: Pos, m: Pos, search: Search)
    requires m in ctx.state.grid && HoldsMonster(ctx.state.grid[m])
    modifies ctx, ctx.state
    ensures var r := Chase(old(ctx.state.grid), player, m, search);
            && ctx.state.View() == old(ctx.state.View()).(grid := r.0)
            && ctx.newActions == old(ctx.newActions) + (if r.1 then [Lost] else [])
    ensures ctx.saves == old(ctx.saves)
  {
    var path := ctx.state.PathFind(m, player, search);
    if |path| == 0 {
      return;
    }
    var moveTo := path[0];
    var performMove := false;
    if moveTo in ctx.state.grid {
      match ctx.state.grid[moveTo].thing {
        case Some(toThing) =>
          if toThing.variant.Player? {
            performMove := true;
            ctx.PushAction(Lost);
          }
        case None =>
          performMove := true;
      }
    }
    if performMove {
      var monster := ctx.state.grid[m].thing;
      ctx.state.grid := ctx.state.grid[m := ctx.state.grid[m].(thing := None)];
      ctx.state.grid := ctx.state.grid[moveTo := ctx.state.grid[moveTo].(thing := monster)];
    }
  }
}
