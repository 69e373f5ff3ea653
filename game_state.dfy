/**
 * The treasure hunter's world: a grid of cells, each with at most one
 * thing, a stack of wall tiles and a floor tile, plus the game's flags and
 * the stack of actions still to run.
 *
 * The grid is an unbounded map from positions to cells; the order in which
 * the source walks its chunks is left open. The A* search of the grid is not
 * modelled: it is a `Search` parameter, given the blocking rule.
 */
module GameState {
  import opened Wrappers

  type Pos = (int, int)

  datatype ThingVariant = Player | Treasure | Door | Grate | Exit | Pit | Monster(think: nat)

  datatype Thing = Thing(variant: ThingVariant, atlasIndex: nat)

  datatype Cell = Cell(thing: Option<Thing>, walls: seq<nat>, floor: nat)

  const DefaultCell := Cell(None, [], 0)

  type Grid = map<Pos, Cell>

  datatype FadeDirection = FadeIn | FadeOut

  /** The actions the game stacks up and runs one per frame. */
  datatype Action =
    | MovePlayer(dir: Pos)
    | MoveMonsters
    | CollectTreasure
    | Finish
    | Lost
    | LoadMap(mapName: string)
    | Fade(direction: FadeDirection)
    | ShowMessage(lengthSec: real, msg: string)

  /** The kinds of thing the game counts; every other thing is `Uncounted`. */
  datatype Kind = PlayerKind | MonsterKind | TreasureKind | GrateKind | Uncounted

  function KindOf(v: ThingVariant): Kind {
    match v
    case Player => PlayerKind
    case Monster(_) => MonsterKind
    case Treasure => TreasureKind
    case Grate => GrateKind
    case _ => Uncounted
  }

  predicate Holds(t: Option<Thing>, k: Kind) {
    t.Some? && KindOf(t.value.variant) == k
  }

  predicate HoldsPlayer(c: Cell) {
    Holds(c.thing, PlayerKind)
  }

  predicate HoldsMonster(c: Cell) {
    Holds(c.thing, MonsterKind)
  }

  predicate HoldsTreasure(c: Cell) {
    Holds(c.thing, TreasureKind)
  }

  predicate HoldsGrate(c: Cell) {
    Holds(c.thing, GrateKind)
  }

  /** The positions whose cells hold a thing of kind `k`. */
  function Cells(grid: Grid, k: Kind): set<Pos> {
    set q | q in grid && Holds(grid[q].thing, k)
  }

  function PlayerCells(grid: Grid): set<Pos> {
    Cells(grid, PlayerKind)
  }

  function MonsterCells(grid: Grid): set<Pos> {
    Cells(grid, MonsterKind)
  }

  function TreasureCells(grid: Grid): set<Pos> {
    Cells(grid, TreasureKind)
  }

  function GrateCells(grid: Grid): set<Pos> {
    Cells(grid, GrateKind)
  }

  /** Replacing the thing of one existing cell changes the cells of kind `k` at that position only. */
  lemma SetThingCells(grid: Grid, q: Pos, t: Option<Thing>, k: Kind)
    requires q in grid
    ensures Cells(grid[q := grid[q].(thing := t)], k) == Cells(grid, k) - {q} + (if Holds(t, k) then {q} else {})
  {
    var after := Cells(grid[q := grid[q].(thing := t)], k);
    forall r | r in after
      ensures r in Cells(grid, k) - {q} || (r == q && Holds(t, k))
    {
    }
  }

  /** Taking one element out of a set and maybe putting it back. */
  lemma SwapCard<T>(s: set<T>, q: T, now: bool)
    ensures |s - {q} + (if now then {q} else {})| == |s| - (if q in s then 1 else 0) + (if now then 1 else 0)
  {
    if q in s {
      assert s == s - {q} + {q};
    } else {
      assert s - {q} == s;
    }
  }

  /** The count of kind `k` after replacing the thing of one existing cell. */
  lemma SetThingCount(grid: Grid, q: Pos, t: Option<Thing>, k: Kind)
    requires q in grid
    ensures Cells(grid[q := grid[q].(thing := t)], k) == Cells(grid, k) - {q} + (if Holds(t, k) then {q} else {})
    ensures |Cells(grid[q := grid[q].(thing := t)], k)|
            == |Cells(grid, k)| - (if Holds(grid[q].thing, k) then 1 else 0) + (if Holds(t, k) then 1 else 0)
  {
    SetThingCells(grid, q, t, k);
    SwapCard(Cells(grid, k), q, Holds(t, k));
  }

  /** Emptying a cell that holds no thing of kind `k` leaves the cells of kind `k` as they were. */
  lemma ClearOtherKind(grid: Grid, q: Pos, k: Kind)
    requires q in grid && !Holds(grid[q].thing, k)
    ensures Cells(grid[q := grid[q].(thing := None)], k) == Cells(grid, k)
  {
    SetThingCells(grid, q, None, k);
  }

  function Step(p: Pos, dir: Pos): Pos {
    (p.0 + dir.0, p.1 + dir.1)
  }

  /** Take the thing out of cell `a` and put it into cell `b`, replacing what `b` held. */
  function MoveThing(grid: Grid, a: Pos, b: Pos): (r: Grid)
    requires a in grid && b in grid && a != b
    ensures r.Keys == grid.Keys
    ensures r[a] == grid[a].(thing := None) && r[b] == grid[b].(thing := grid[a].thing)
    ensures forall q :: q in grid && q != a && q != b ==> r[q] == grid[q]
  {
    grid[a := grid[a].(thing := None)][b := grid[b].(thing := grid[a].thing)]
  }

  lemma MoveThingCells(grid: Grid, a: Pos, b: Pos, k: Kind)
    requires a in grid && b in grid && a != b
    ensures Cells(MoveThing(grid, a, b), k) == Cells(grid, k) - {a, b} + (if Holds(grid[a].thing, k) then {b} else {})
  {
    var after := Cells(MoveThing(grid, a, b), k);
    forall r | r in after
      ensures r in Cells(grid, k) - {a, b} || (r == b && Holds(grid[a].thing, k))
    {
    }
  }

  lemma RemoveCard<T>(s: set<T>, x: T)
    ensures |s - {x}| == |s| - (if x in s then 1 else 0)
  {
    if x in s {
      assert s == (s - {x}) + {x};
    } else {
      assert s - {x} == s;
    }
  }

  /** Moving one element of a set onto another position. */
  lemma MoveCard<T>(s: set<T>, a: T, b: T)
    requires a != b
    ensures |s - {a, b} + (if a in s then {b} else {})| == |s| - (if b in s then 1 else 0)
  {
    var t := s - {a};
    RemoveCard(s, a);
    var u := t - {b};
    RemoveCard(t, b);
    assert s - {a, b} == u;
    if a in s {
      assert b !in u;
      assert |u + {b}| == |u| + 1;
    }
  }

  /**
   * Moving a thing from `a` to `b`: `a` no longer counts for any kind, `b`
   * counts for the kind of the thing moved, and whatever `b` held is gone.
   */
  lemma MoveThingCount(grid: Grid, a: Pos, b: Pos, k: Kind)
    requires a in grid && b in grid && a != b
    ensures Cells(MoveThing(grid, a, b), k) == Cells(grid, k) - {a, b} + (if Holds(grid[a].thing, k) then {b} else {})
    ensures |Cells(MoveThing(grid, a, b), k)| == |Cells(grid, k)| - (if Holds(grid[b].thing, k) then 1 else 0)
  {
    MoveThingCells(grid, a, b, k);
    MoveCard(Cells(grid, k), a, b);
  }

  /** Moving a thing of another kind between cells of other kinds leaves the cells of kind `k` alone. */
  lemma MoveKeepsKind(grid: Grid, a: Pos, b: Pos, k: Kind)
    requires a in grid && b in grid && a != b
    requires !Holds(grid[a].thing, k) && !Holds(grid[b].thing, k)
    ensures Cells(MoveThing(grid, a, b), k) == Cells(grid, k)
  {
    MoveThingCells(grid, a, b, k);
  }

  /** Moving a thing of kind `k` onto a cell of another kind keeps the number of kind `k`. */
  lemma MoveOfKind(grid: Grid, a: Pos, b: Pos, k: Kind)
    requires a in grid && b in grid && a != b
    requires Holds(grid[a].thing, k) && !Holds(grid[b].thing, k)
    ensures |Cells(MoveThing(grid, a, b), k)| == |Cells(grid, k)|
  {
    MoveThingCount(grid, a, b, k);
  }

  /** Moving a thing of another kind onto `b` removes `b` from the cells of kind `k`. */
  lemma MoveOntoKind(grid: Grid, a: Pos, b: Pos, k: Kind)
    requires a in grid && b in grid && a != b
    requires !Holds(grid[a].thing, k)
    ensures Cells(MoveThing(grid, a, b), k) == Cells(grid, k) - {b}
    ensures |Cells(MoveThing(grid, a, b), k)| + (if Holds(grid[b].thing, k) then 1 else 0) == |Cells(grid, k)|
  {
    MoveThingCount(grid, a, b, k);
  }

  /**
   * The blocking rule the game gives the A* search: the start and the goal
   * are never blocked; any other cell is blocked when it has walls, or when
   * it holds a thing that is not the player.
   */
  predicate Blocked(start: Pos, end: Pos, index: Pos, cell: Cell) {
    if index == start || index == end then false
    else if |cell.walls| == 0 then cell.thing.Some? && !cell.thing.value.variant.Player?
    else true
  }

  /** The A* search over the grid: a path from start to goal avoiding blocked cells, or none. */
  type Search = (Grid, Pos, Pos, (Pos, Cell) -> bool) -> Option<seq<Pos>>

  /** The path the search finds for this start and goal, or the empty path when it finds none. */
  function FoundPath(grid: Grid, start: Pos, end: Pos, search: Search): seq<Pos> {
    search(grid, start, end, (index: Pos, cell: Cell) => Blocked(start, end, index, cell)).GetOr([])
  }

  /** All of the game's state, as a value. */
  datatype StateView = StateView(
    grid: Grid, intro: string, showIntro: bool, nextLevel: string, treasureCollected: nat,
    playSound: seq<string>, fade: real, showMenu: bool, actions: seq<Action>,
    currentLevel: string, won: bool, msg: string)

  /** `State`. */
  class State {
    var grid: Grid
    var intro: string
    var showIntro: bool
    var nextLevel: string
    var treasureCollected: nat
    var playSound: seq<string>
    var fade: real
    var showMenu: bool
    var actions: seq<Action>
    var currentLevel: string
    var won: bool
    var msg: string

    function View(): StateView
      reads this
    {
      StateView(grid, intro, showIntro, nextLevel, treasureCollected, playSound, fade, showMenu, actions,
                currentLevel, won, msg)
    }

    constructor ()
      ensures View() == StateView(map[], "", false, "", 0, [], 0.0, false, [], "", false, "")
    {
      grid := map[];
      intro := "";
      showIntro := false;
      nextLevel := "";
      treasureCollected := 0;
      playSound := [];
      fade := 0.0;
      showMenu := false;
      actions := [];
      currentLevel := "";
      won := false;
      msg := "";
    }

    /** `find_player`: some cell that holds the player, or none when no cell does. */
    method FindPlayer() returns (p: Option<Pos>)
      ensures p.Some? ==> p.value in grid && HoldsPlayer(grid[p.value])
      ensures p.None? <==> PlayerCells(grid) == {}
    {
      var todo := grid.Keys;
      while todo != {}
        invariant todo <= grid.Keys
        invariant forall q :: q in grid && q !in todo ==> !HoldsPlayer(grid[q])
        decreases todo
      {
        var q :| q in todo;
        if HoldsPlayer(grid[q]) {
          assert q in PlayerCells(grid);
          return Some(q);
        }
        todo := todo - {q};
      }
      return None;
    }

    /** `find_monsters`: every position holding a monster, each once, in some order. */
    method FindMonsters() returns (ms: seq<Pos>)
      ensures forall i :: 0 <= i < |ms| ==> ms[i] in MonsterCells(grid)
      ensures forall q :: q in MonsterCells(grid) ==> q in ms
      ensures forall i, j :: 0 <= i < j < |ms| ==> ms[i] != ms[j]
      ensures |ms| == |MonsterCells(grid)|
    {
      ms := [];
      var todo := grid.Keys;
      ghost var found: set<Pos> := {};
      while todo != {}
        invariant todo <= grid.Keys
        invariant found == set q | q in grid && q !in todo && HoldsMonster(grid[q])
        invariant forall i :: 0 <= i < |ms| ==> ms[i] in found
        invariant forall q :: q in found ==> q in ms
        invariant forall i, j :: 0 <= i < j < |ms| ==> ms[i] != ms[j]
        invariant |ms| == |found|
        decreases todo
      {
        var q :| q in todo;
        if HoldsMonster(grid[q]) {
          assert q !in found;
          ms := ms + [q];
          found := found + {q};
        }
        todo := todo - {q};
      }
      assert found == MonsterCells(grid);
    }

    /**
     * `path_find`: the path the search finds with its first position (the
     * start) dropped; empty when the search finds nothing.
     */
    method PathFind(start: Pos, end: Pos, search: Search) returns (path: seq<Pos>)
      ensures var found := FoundPath(grid, start, end, search);
              && |path| == (if found == [] then 0 else |found| - 1)
              && forall i :: 0 <= i < |path| ==> path[i] == found[i + 1]
    {
      var found := FoundPath(grid, start, end, search);
      path := [];
      if |found| > 0 {
        var i := 1;
        while i < |found|
          invariant 1 <= i <= |found|
          invariant |path| == i - 1
          invariant forall j :: 0 <= j < |path| ==> path[j] == found[j + 1]
        {
          path := path + [found[i]];
          i := i + 1;
        }
      }
    }

    /** `input_allowed`: no fade in progress, no menu shown, and no action waiting; winning plays no part. */
    function InputAllowed(): (r: bool)
      reads this
      ensures r <==> fade == 0.0 && !showMenu && actions == []
    {
      if fade != 0.0 then false
      else if showMenu then false
      else if |actions| != 0 then false
      else true
    }
  }
}
