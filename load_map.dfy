/**
 * `LoadMapAction`: build a fresh grid from a loaded Tiled map and start the
 * level. Tile layers are applied in order; each visits its `width` ×
 * `height` positions row by row, and its class (`floor`, `walls` or
 * `things`) says what a tile there does to the cell. Positions without a
 * tile are skipped, and other kinds of layer are ignored.
 *
 * The source panics on a tile layer without a width or height, on a tile in
 * a layer of another class, and, in a `things` layer, on a tile without
 * tileset data or with an unknown class. A panic is modelled as an outcome:
 * the build yields `None` and `Exec` reports it.
 */
module LoadMapAction {
  import opened Wrappers
  import opened GameState
  import opened GameAction
  import opened Tiled
  import AssetStore
  import AssetRegistry

  /** The thing a tile class stands for; monsters start with `think` at 0. */
  function VariantOf(cls: string): (r: Option<ThingVariant>)
    ensures r.Some? <==> cls in {"player", "treasure", "door", "grate", "exit", "pit", "monster"}
    ensures cls == "monster" ==> r == Some(Monster(0))
    ensures r.Some? ==> (r.value == Player <==> cls == "player") && (r.value == Grate <==> cls == "grate")
  {
    if cls == "player" then Some(Player)
    else if cls == "treasure" then Some(Treasure)
    else if cls == "door" then Some(Door)
    else if cls == "grate" then Some(Grate)
    else if cls == "exit" then Some(Exit)
    else if cls == "pit" then Some(Pit)
    else if cls == "monster" then Some(Monster(0))
    else None
  }

  /** Whether a tile placed in a layer of class `cls` panics. */
  predicate TilePanics(cls: string, tile: LayerTile) {
    if cls == "floor" || cls == "walls" then false
    else if cls == "things" then tile.data.None? || VariantOf(ClassOf(tile.data.value.userType)).None?
    else true
  }

  /** What a tile does to its cell, in a layer of class `cls`. */
  function Placed(cell: Cell, cls: string, tile: LayerTile): (r: Cell)
    requires !TilePanics(cls, tile)
    ensures cls == "floor" ==> r == cell.(floor := AsU16(tile.id))
    ensures cls == "walls" ==> r == cell.(walls := cell.walls + [AsU16(tile.id)])
    ensures cls == "things" ==>
              r == cell.(thing := Some(Thing(VariantOf(ClassOf(tile.data.value.userType)).value, AsU16(tile.id))))
  {
    if cls == "floor" then cell.(floor := AsU16(tile.id))
    else if cls == "walls" then cell.(walls := cell.walls + [AsU16(tile.id)])
    else
      var v := VariantOf(ClassOf(tile.data.value.userType)).value;
      cell.(thing := Some(Thing(v, AsU16(tile.id))))
  }

  /** The positions `0 <= x < w`, `0 <= y < h` that hold a tile. */
  function Visited(tiles: map<Pos, LayerTile>, w: int, h: int): set<Pos> {
    set p | p in tiles && 0 <= p.0 < w && 0 <= p.1 < h
  }

  /** The positions a layer places tiles on: none for a layer that is not a tile layer or lacks a size. */
  function LayerCovers(layer: Layer): set<Pos> {
    match layer.data
    case OtherLayer => {}
    case TileLayer(width, height, tiles) =>
      if width.None? || height.None? then {} else Visited(tiles, AsI32(width.value), AsI32(height.value))
  }

  /** Whether applying a layer panics: a tile layer without a size, or one of its visited tiles panics. */
  predicate LayerPanics(layer: Layer) {
    && layer.data.TileLayer?
    && (|| layer.data.width.None? || layer.data.height.None?
        || exists p :: p in LayerCovers(layer) && TilePanics(ClassOf(layer.userType), layer.data.tiles[p]))
  }

  /** The cell at `p` after a layer that does not panic there. */
  function LayerCell(cell: Cell, layer: Layer, p: Pos): Cell {
    if p in LayerCovers(layer) && !TilePanics(ClassOf(layer.userType), layer.data.tiles[p])
    then Placed(cell, ClassOf(layer.userType), layer.data.tiles[p])
    else cell
  }

  /** The cell at `p`, or a fresh default cell when there is none yet. */
  function CellOr(grid: Grid, p: Pos): Cell {
    if p in grid then grid[p] else DefaultCell
  }

  /**
   * One layer applied to the grid: a cell is created at every position the
   * layer covers, every covered cell is changed by its tile, and the rest
   * of the grid is left alone; `None` when the layer panics.
   */
  function ApplyLayer(grid: Grid, layer: Layer): (r: Option<Grid>)
    ensures r.None? <==> LayerPanics(layer)
    ensures r.Some? ==> r.value.Keys == grid.Keys + LayerCovers(layer)
    ensures r.Some? ==> forall p :: p in r.value ==> r.value[p] == LayerCell(CellOr(grid, p), layer, p)
  {
    if LayerPanics(layer) then None
    else Some(map p | p in grid.Keys + LayerCovers(layer) :: LayerCell(CellOr(grid, p), layer, p))
  }

  /** The layers applied in order to `grid`; `None` as soon as one panics. */
  function BuildFrom(grid: Grid, layers: seq<Layer>): Option<Grid>
    decreases |layers|
  {
    if |layers| == 0 then Some(grid)
    else
      match ApplyLayer(grid, layers[0])
      case None => None
      case Some(g) => BuildFrom(g, layers[1..])
  }

  /** Every position some layer covers. */
  function Covered(layers: seq<Layer>): set<Pos>
    decreases |layers|
  {
    if |layers| == 0 then {} else LayerCovers(layers[0]) + Covered(layers[1..])
  }

  /** The cell at `p` after every layer, starting from `cell`. */
  function CellFrom(cell: Cell, layers: seq<Layer>, p: Pos): Cell
    decreases |layers|
  {
    if |layers| == 0 then cell else CellFrom(LayerCell(cell, layers[0], p), layers[1..], p)
  }

  /**
   * A map builds exactly when none of its layers panics; the grid built has
   * a cell exactly at the positions some tile layer places a tile on, and
   * each cell is its starting cell changed by the layers in order.
   */
  lemma {:induction false} BuildOutcome(grid: Grid, layers: seq<Layer>)
    ensures BuildFrom(grid, layers).None? <==> exists i :: 0 <= i < |layers| && LayerPanics(layers[i])
    ensures BuildFrom(grid, layers).Some? ==>
              && BuildFrom(grid, layers).value.Keys == grid.Keys + Covered(layers)
              && forall p :: p in BuildFrom(grid, layers).value ==>
                   BuildFrom(grid, layers).value[p] == CellFrom(CellOr(grid, p), layers, p)
    decreases |layers|
  {
    if |layers| > 0 {
      var first := ApplyLayer(grid, layers[0]);
      if first.Some? {
        var g := first.value;
        BuildOutcome(g, layers[1..]);
        assert forall i :: 1 <= i < |layers| ==> layers[i] == layers[1..][i - 1];
        assert forall i :: 0 <= i < |layers| - 1 ==> layers[1..][i] == layers[i + 1];
        if BuildFrom(grid, layers).Some? {
          var r := BuildFrom(grid, layers).value;
          forall p | p in r
            ensures r[p] == CellFrom(CellOr(grid, p), layers, p)
          {
            assert CellOr(g, p) == LayerCell(CellOr(grid, p), layers[0], p);
          }
        }
      }
    }
  }

  /** The wall ids the layers put at `p`, in layer order. */
  function WallIds(layers: seq<Layer>, p: Pos): seq<nat>
    decreases |layers|
  {
    if |layers| == 0 then []
    else
      (if ClassOf(layers[0].userType) == "walls" && p in LayerCovers(layers[0])
       then [AsU16(layers[0].data.tiles[p].id)] else [])
      + WallIds(layers[1..], p)
  }

  /** Walls only grow: every `walls` layer appends its tile's id, in layer order. */
  lemma {:induction false} WallsInOrder(cell: Cell, layers: seq<Layer>, p: Pos)
    ensures CellFrom(cell, layers, p).walls == cell.walls + WallIds(layers, p)
    decreases |layers|
  {
    if |layers| > 0 {
      var next := LayerCell(cell, layers[0], p);
      WallsInOrder(next, layers[1..], p);
    }
  }

  /** A layer of class `cls` that places a tile at `p`. */
  predicate Sets(layer: Layer, cls: string, p: Pos) {
    ClassOf(layer.userType) == cls && p in LayerCovers(layer)
  }

  /** Only a `floor` layer covering `p` changes the floor there, and only a `things` layer the thing. */
  lemma {:induction false} UncoveredKeeps(cell: Cell, layers: seq<Layer>, p: Pos)
    ensures (forall i :: 0 <= i < |layers| ==> !Sets(layers[i], "floor", p)) ==> CellFrom(cell, layers, p).floor == cell.floor
    ensures (forall i :: 0 <= i < |layers| ==> !Sets(layers[i], "things", p)) ==> CellFrom(cell, layers, p).thing == cell.thing
    decreases |layers|
  {
    if |layers| > 0 {
      assert forall i :: 0 <= i < |layers| - 1 ==> layers[1..][i] == layers[i + 1];
      UncoveredKeeps(LayerCell(cell, layers[0], p), layers[1..], p);
    }
  }

  /**
   * The last `floor` layer placing a tile at `p` decides the floor there;
   * earlier ones are overwritten.
   */
  lemma {:induction false} LastFloorWins(cell: Cell, layers: seq<Layer>, p: Pos, i: nat)
    requires i < |layers| && Sets(layers[i], "floor", p)
    requires forall j :: i < j < |layers| ==> !Sets(layers[j], "floor", p)
    ensures CellFrom(cell, layers, p).floor == AsU16(layers[i].data.tiles[p].id)
    decreases |layers|
  {
    var next := LayerCell(cell, layers[0], p);
    assert forall j :: 0 <= j < |layers| - 1 ==> layers[1..][j] == layers[j + 1];
    if i == 0 {
      UncoveredKeeps(next, layers[1..], p);
    } else {
      LastFloorWins(next, layers[1..], p, i - 1);
    }
  }

  /**
   * The last `things` layer placing a tile at `p` decides the thing there,
   * given that its tile does not panic.
   */
  lemma {:induction false} LastThingWins(cell: Cell, layers: seq<Layer>, p: Pos, i: nat)
    requires i < |layers| && Sets(layers[i], "things", p) && !TilePanics("things", layers[i].data.tiles[p])
    requires forall j :: i < j < |layers| ==> !Sets(layers[j], "things", p)
    ensures var tile := layers[i].data.tiles[p];
            CellFrom(cell, layers, p).thing
            == Some(Thing(VariantOf(ClassOf(tile.data.value.userType)).value, AsU16(tile.id)))
    decreases |layers|
  {
    var next := LayerCell(cell, layers[0], p);
    assert forall j :: 0 <= j < |layers| - 1 ==> layers[1..][j] == layers[j + 1];
    if i == 0 {
      UncoveredKeeps(next, layers[1..], p);
    } else {
      LastThingWins(next, layers[1..], p, i - 1);
    }
  }

  /** Position `p` comes before `(x, y)` in the row-by-row visiting order. */
  predicate Before(p: Pos, x: int, y: int) {
    p.1 < y || (p.1 == y && p.0 < x)
  }

  /**
   * The working grid `g` after a layer's loops have visited every position
   * before `(x, y)`: cells created and changed there, none of those tiles
   * panicking, everything else as in `grid`.
   */
  ghost predicate Partial(grid: Grid, layer: Layer, g: Grid, x: int, y: int) {
    && PartialKeys(grid, layer, g, x, y)
    && PartialCells(grid, layer, g, x, y)
    && PartialSafe(layer, x, y)
  }

  ghost predicate PartialKeys(grid: Grid, layer: Layer, g: Grid, x: int, y: int) {
    forall p :: p in g <==> p in grid || (p in LayerCovers(layer) && Before(p, x, y))
  }

  ghost predicate PartialCells(grid: Grid, layer: Layer, g: Grid, x: int, y: int) {
    forall p :: p in g ==>
      if p in LayerCovers(layer) && Before(p, x, y) then g[p] == LayerCell(CellOr(grid, p), layer, p)
      else p in grid && g[p] == grid[p]
  }

  ghost predicate PartialSafe(layer: Layer, x: int, y: int) {
    forall p :: p in LayerCovers(layer) && Before(p, x, y) ==> !TilePanics(ClassOf(layer.userType), layer.data.tiles[p])
  }

  /** Visiting `(x, y)` without a tile changes nothing. */
  lemma SkipStep(grid: Grid, layer: Layer, g: Grid, x: int, y: int)
    requires layer.data.TileLayer? && (x, y) !in layer.data.tiles
    requires Partial(grid, layer, g, x, y)
    ensures Partial(grid, layer, g, x + 1, y)
  {
    assert forall p :: p in LayerCovers(layer) ==> p in layer.data.tiles;
  }

  /** Visiting `(x, y)` with a tile that does not panic: its cell is created if need be and changed. */
  lemma PlaceStep(grid: Grid, layer: Layer, g: Grid, x: int, y: int)
    requires layer.data.TileLayer? && layer.data.width.Some? && layer.data.height.Some?
    requires 0 <= x < AsI32(layer.data.width.value) && 0 <= y < AsI32(layer.data.height.value)
    requires (x, y) in layer.data.tiles && !TilePanics(ClassOf(layer.userType), layer.data.tiles[(x, y)])
    requires Partial(grid, layer, g, x, y)
    ensures Partial(grid, layer, g[(x, y) := Placed(CellOr(g, (x, y)), ClassOf(layer.userType), layer.data.tiles[(x, y)])], x + 1, y)
  {
    assert (x, y) in LayerCovers(layer);
    assert CellOr(g, (x, y)) == CellOr(grid, (x, y));
  }

  /** A finished row: its positions past the width hold no tile the layer covers. */
  lemma RowDone(grid: Grid, layer: Layer, g: Grid, x: int, y: int)
    requires layer.data.TileLayer? && layer.data.width.Some? && layer.data.height.Some?
    requires x >= AsI32(layer.data.width.value)
    requires Partial(grid, layer, g, x, y)
    ensures Partial(grid, layer, g, 0, y + 1)
  {
    assert forall p :: p in LayerCovers(layer) ==> (Before(p, x, y) <==> Before(p, 0, y + 1));
  }

  /** All rows visited: the working grid is the layer applied. */
  lemma LayerDone(grid: Grid, layer: Layer, g: Grid, y: int)
    requires layer.data.TileLayer? && layer.data.width.Some? && layer.data.height.Some?
    requires y >= AsI32(layer.data.height.value)
    requires Partial(grid, layer, g, 0, y)
    ensures ApplyLayer(grid, layer) == Some(g)
  {
    assert forall p :: p in LayerCovers(layer) ==> Before(p, 0, y);
    assert !LayerPanics(layer);
    assert g == map p | p in grid.Keys + LayerCovers(layer) :: LayerCell(CellOr(grid, p), layer, p);
  }

  /** The tile class match of the loop body: the changed cell, or `None` where the source panics. */
  method PlaceTile(cell: Cell, cls: string, tile: LayerTile) returns (r: Option<Cell>)
    ensures r.None? <==> TilePanics(cls, tile)
    ensures r.Some? ==> r.value == Placed(cell, cls, tile)
  {
    if cls == "floor" {
      return Some(cell.(floor := AsU16(tile.id)));
    } else if cls == "walls" {
      return Some(cell.(walls := cell.walls + [AsU16(tile.id)]));
    } else if cls == "things" {
      var atlasIndex := AsU16(tile.id);
      if tile.data.None? {
        return None;
      }
      var tileClass := ClassOf(tile.data.value.userType);
      var variant := VariantOf(tileClass);
      if variant.None? {
        return None;
      }
      return Some(cell.(thing := Some(Thing(variant.value, atlasIndex))));
    } else {
      return None;
    }
  }

  /** The nested `y`/`x` loops over one tile layer of known size, on a working copy of the grid. */
  method PlaceLayer(grid: Grid, layer: Layer) returns (r: Option<Grid>)
    requires layer.data.TileLayer? && layer.data.width.Some? && layer.data.height.Some?
    ensures r == ApplyLayer(grid, layer)
  {
    var cls := ClassOf(layer.userType);
    var tiles := layer.data.tiles;
    var w := AsI32(layer.data.width.value);
    var h := AsI32(layer.data.height.value);
    var g := grid;
    var y := 0;
    while y < h
      invariant 0 <= y && (y <= h || y == 0)
      invariant Partial(grid, layer, g, 0, y)
    {
      var x := 0;
      while x < w
        invariant 0 <= x && (x <= w || x == 0)
        invariant Partial(grid, layer, g, x, y)
      {
        if (x, y) in tiles {
          var tile := tiles[(x, y)];
          ghost var before := g;
          if (x, y) !in g {
            g := g[(x, y) := DefaultCell];
          }
          var placed := PlaceTile(g[(x, y)], cls, tile);
          if placed.None? {
            assert (x, y) in LayerCovers(layer);
            return None;
          }
          PlaceStep(grid, layer, before, x, y);
          g := g[(x, y) := placed.value];
          assert g == before[(x, y) := Placed(CellOr(before, (x, y)), cls, tile)];
        } else {
          SkipStep(grid, layer, g, x, y);
        }
        x := x + 1;
      }
      RowDone(grid, layer, g, x, y);
      y := y + 1;
    }
    LayerDone(grid, layer, g, y);
    return Some(g);
  }

  /** A layer that is not a tile layer leaves the grid as it is. */
  lemma OtherLayerKeeps(grid: Grid, layer: Layer)
    requires !layer.data.TileLayer?
    ensures ApplyLayer(grid, layer) == Some(grid)
  {
    assert LayerCovers(layer) == {} && !LayerPanics(layer);
    var m := map p | p in grid.Keys + LayerCovers(layer) :: LayerCell(CellOr(grid, p), layer, p);
    assert m.Keys == grid.Keys;
    assert forall p :: p in m ==> m[p] == grid[p];
    assert m == grid;
  }

  /** The layer loop: every layer in order; a layer that is not a tile layer is skipped. */
  method BuildGrid(layers: seq<Layer>) returns (r: Option<Grid>)
    ensures r == BuildFrom(map[], layers)
  {
    var grid: Grid := map[];
    var i := 0;
    while i < |layers|
      invariant 0 <= i <= |layers|
      invariant BuildFrom(grid, layers[i..]) == BuildFrom(map[], layers)
    {
      var layer := layers[i];
      assert layers[i..][0] == layer && layers[i..][1..] == layers[i + 1..];
      if layer.data.TileLayer? {
        if layer.data.width.None? || layer.data.height.None? {
          return None;
        }
        var placed := PlaceLayer(grid, layer);
        if placed.None? {
          return None;
        }
        grid := placed.value;
      } else {
        OtherLayerKeeps(grid, layer);
      }
      i := i + 1;
    }
    assert layers[i..] == [];
    return Some(grid);
  }

  /** The map loaded under `name`, if any. */
  function LoadedMap(asset: Option<AssetRegistry.Asset<AssetStore.AssetData>>): Option<TileMap> {
    if asset.Some? && asset.value.data.MapData? then Some(asset.value.data.tileMap) else None
  }

  /**
   * `LoadMapAction::exec`. With no map loaded under `mapName` nothing
   * happens. Otherwise `next_level` is set first; when building the grid
   * panics (`panicked`), nothing else has changed. A successful build
   * replaces the grid, starts the level and saves its name.
   */
  method Exec(ctx: ActionContext, mapName: string) returns (panicked: bool)
    modifies ctx, ctx.state
    ensures LoadedMap(ctx.assets.Get(AssetStore.TiledMap, mapName)).None? ==>
              && !panicked && ctx.state.View() == old(ctx.state.View())
              && ctx.newActions == old(ctx.newActions) && ctx.saves == old(ctx.saves)
    ensures LoadedMap(ctx.assets.Get(AssetStore.TiledMap, mapName)).Some? ==>
              var m := LoadedMap(ctx.assets.Get(AssetStore.TiledMap, mapName)).value;
              var built := BuildFrom(map[], m.layers);
              var intro := StringProperty(m, "intro");
              && (panicked <==> built.None?)
              && (built.None? ==>
                    && ctx.state.View() == old(ctx.state.View()).(nextLevel := StringProperty(m, "next_level"))
                    && ctx.newActions == old(ctx.newActions) && ctx.saves == old(ctx.saves))
              && (built.Some? ==>
                    && ctx.state.View() == old(ctx.state.View()).(
                         grid := built.value, nextLevel := StringProperty(m, "next_level"), intro := intro,
                         showIntro := |intro| > 0, won := false, showMenu := false, currentLevel := mapName, msg := "")
                    && ctx.newActions == old(ctx.newActions) + [Fade(FadeIn)]
                    && ctx.saves == old(ctx.saves) + [Saved("current_level", mapName)])
  {
    var loaded := LoadedMap(ctx.assets.Get(AssetStore.TiledMap, mapName));
    if loaded.None? {
      return false;
    }
    var m := loaded.value;
    var nextLevel := StringProperty(m, "next_level");
    var intro := StringProperty(m, "intro");
    ctx.state.nextLevel := nextLevel;
    var built := BuildGrid(m.layers);
    if built.None? {
      return true;
    }
    var grid := built.value;
    StartLevel(ctx.state, grid, intro, mapName);
    ctx.PushAction(Fade(FadeIn));
    ctx.SaveCurrentLevel(ctx.state.currentLevel);
    return false;
  }

  /** The assignments that start the level once the grid is built. */
  method StartLevel(state: State, grid: Grid, intro: string, mapName: string)
    modifies state
    ensures state.View() == old(state.View()).(grid := grid, intro := intro, showIntro := |intro| > 0, won := false,
                                               showMenu := false, currentLevel := mapName, msg := "")
  {
    state.won := false;
    state.grid := grid;
    state.showMenu := false;
    state.showIntro := |intro| > 0;
    state.intro := intro;
    state.currentLevel := mapName;
    state.msg := "";
  }
}
