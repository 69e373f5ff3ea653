/**
 * `TreasureHunter`: the game as an app of the engine. It loads its assets
 * in `init`, waits for them, turns key presses into actions, runs one
 * action per frame and plays the sounds the actions queued.
 *
 * The menu, the drawing and the fonts are not modelled. Key presses are the
 * set of keys pressed this frame; the persisted level is a parameter of
 * `Init`; the audio manager's `play` calls are returned as the list of
 * clips played.
 */
module TreasureHunterApp {
  import opened Wrappers
  import opened GameState
  import opened GameAction
  import AssetStore
  import AssetRegistry
  import MovePlayerAction
  import MoveMonstersAction
  import CollectTreasureAction
  import FinishAction
  import LostAction
  import LoadMapAction
  import FadeAction
  import ShowMessageAction
  import Tiled

  /** The keys the game reads; `Num(n)` is the digit key `n`. */
  datatype Key = Escape | Space | KeyA | KeyD | KeyW | KeyS | Num(digit: nat) | OtherKey

  /** `"lvl0N"` for the digit `n`. */
  function LevelName(n: nat): (r: string)
    requires 1 <= n <= 9
    ensures |r| == 5 && r[..4] == "lvl0" && r[4] == '0' + n as char
  {
    "lvl0" + ['0' + n as char]
  }

  /** Different digits name different levels. */
  lemma LevelNamesDiffer(m: nat, n: nat)
    requires 1 <= m <= 9 && 1 <= n <= 9 && m != n
    ensures LevelName(m) != LevelName(n)
  {
    assert LevelName(m)[4] != LevelName(n)[4];
  }

  /** The least digit from 1 to 9 whose key is pressed, if any. */
  function LeastDigit(pressed: set<Key>, from: nat): (r: Option<nat>)
    requires 1 <= from <= 10
    decreases 10 - from
  {
    if from == 10 then None
    else if Num(from) in pressed then Some(from)
    else LeastDigit(pressed, from + 1)
  }

  /** The answer of `LeastDigit`: a pressed digit key, with no pressed one below it. */
  lemma {:induction false} LeastDigitIsLeast(pressed: set<Key>, from: nat)
    requires 1 <= from <= 10
    ensures var r := LeastDigit(pressed, from);
            && (r.Some? ==> from <= r.value <= 9 && Num(r.value) in pressed
                            && forall k :: from <= k < r.value ==> Num(k) !in pressed)
            && (r.None? <==> forall k :: from <= k <= 9 ==> Num(k) !in pressed)
    decreases 10 - from
  {
    if from < 10 && Num(from) !in pressed {
      LeastDigitIsLeast(pressed, from + 1);
    }
  }

  /** The direction the movement keys ask for: S beats W, W beats D, D beats A; `(0, 0)` for none. */
  function Direction(pressed: set<Key>): Pos {
    if KeyS in pressed then (0, 1)
    else if KeyW in pressed then (0, -1)
    else if KeyD in pressed then (1, 0)
    else if KeyA in pressed then (-1, 0)
    else (0, 0)
  }

  /** The action a frame's key presses ask for, once input is allowed. */
  function Command(pressed: set<Key>): Option<Action> {
    if Space in pressed then Some(MoveMonsters)
    else
      match LeastDigit(pressed, 1)
      case Some(n) => Some(LoadMap(LevelName(n)))
      case None => if Direction(pressed) != (0, 0) then Some(MovePlayer(Direction(pressed))) else None
  }

  /** The key that moves the player in direction `d`. */
  function KeyFor(d: Pos): Key {
    if d == (0, 1) then KeyS else if d == (0, -1) then KeyW else if d == (1, 0) then KeyD else KeyA
  }

  /**
   * The key mapping: Space wins over everything and asks the monsters to
   * move; then the smallest pressed digit loads its level; then a movement
   * key moves the player one cell along an axis, the key that wins being
   * pressed and every key that beats it not; nothing else asks for an action.
   */
  lemma CommandRules(pressed: set<Key>)
    ensures Space in pressed ==> Command(pressed) == Some(MoveMonsters)
    ensures forall n :: (1 <= n <= 9 && Space !in pressed && Num(n) in pressed
                         && (forall k :: 1 <= k < n ==> Num(k) !in pressed)) ==> Command(pressed) == Some(LoadMap(LevelName(n)))
    ensures Command(pressed).Some? && Command(pressed).value.MovePlayer? ==>
              var d := Command(pressed).value.dir;
              && Space !in pressed && (forall k :: 1 <= k <= 9 ==> Num(k) !in pressed)
              && d in {(0, 1), (0, -1), (1, 0), (-1, 0)} && KeyFor(d) in pressed
              && (d == (0, -1) ==> KeyS !in pressed)
              && (d == (1, 0) ==> KeyS !in pressed && KeyW !in pressed)
              && (d == (-1, 0) ==> KeyS !in pressed && KeyW !in pressed && KeyD !in pressed)
    ensures Command(pressed).None? <==>
              && Space !in pressed && (forall k :: 1 <= k <= 9 ==> Num(k) !in pressed)
              && KeyA !in pressed && KeyD !in pressed && KeyW !in pressed && KeyS !in pressed
    ensures Command(pressed).Some? ==> Command(pressed).value in {MoveMonsters} || Command(pressed).value.LoadMap?
                                       || Command(pressed).value.MovePlayer?
    ensures Command(pressed) == Some(MoveMonsters) ==> Space in pressed
    ensures Command(pressed).Some? && Command(pressed).value.LoadMap? ==>
              Space !in pressed && exists n :: 1 <= n <= 9 && Num(n) in pressed && Command(pressed).value == LoadMap(LevelName(n))
    ensures Space !in pressed && (forall k :: 1 <= k <= 9 ==> Num(k) !in pressed) ==>
              && (KeyS in pressed ==> Command(pressed) == Some(MovePlayer((0, 1))))
              && (KeyS !in pressed && KeyW in pressed ==> Command(pressed) == Some(MovePlayer((0, -1))))
              && (KeyS !in pressed && KeyW !in pressed && KeyD in pressed ==> Command(pressed) == Some(MovePlayer((1, 0))))
              && (KeyS !in pressed && KeyW !in pressed && KeyD !in pressed && KeyA in pressed ==>
                    Command(pressed) == Some(MovePlayer((-1, 0))))
  {
    LeastDigitIsLeast(pressed, 1);
    forall n | 1 <= n <= 9 && Space !in pressed && Num(n) in pressed && (forall k :: 1 <= k < n ==> Num(k) !in pressed)
      ensures Command(pressed) == Some(LoadMap(LevelName(n)))
    {
      assert LeastDigit(pressed, 1) == Some(n);
    }
  }

  /** The sounds played for the queued names: the clip of each name loaded as a sound, in queue order. */
  function SoundsFor(names: seq<string>, store: AssetStore.Store): seq<AssetStore.SoundClip>
    decreases |names|
  {
    if |names| == 0 then []
    else
      var a := AssetStore.GetAsset(store, AssetStore.Sound, names[|names| - 1]);
      SoundsFor(names[..|names| - 1], store)
      + (if a.Some? && a.value.data.SoundData? then [a.value.data.sound] else [])
  }

  /** Queueing more names plays their sounds after the earlier ones'. */
  lemma {:induction false} SoundsForAppend(a: seq<string>, b: seq<string>, store: AssetStore.Store)
    ensures SoundsFor(a + b, store) == SoundsFor(a, store) + SoundsFor(b, store)
    decreases |b|
  {
    if |b| > 0 {
      var b0 := b[..|b| - 1];
      assert (a + b)[..|a + b| - 1] == a + b0;
      SoundsForAppend(a, b0, store);
    } else {
      assert a + b == a;
    }
  }

  /** At most one sound per name; exactly one per name when every name is loaded as a sound. */
  lemma {:induction false} SoundsForCount(names: seq<string>, store: AssetStore.Store)
    ensures |SoundsFor(names, store)| <= |names|
    ensures (forall i :: 0 <= i < |names| ==>
               var a := AssetStore.GetAsset(store, AssetStore.Sound, names[i]); a.Some? && a.value.data.SoundData?)
            ==> |SoundsFor(names, store)| == |names|
    decreases |names|
  {
    if |names| > 0 {
      var init := names[..|names| - 1];
      assert forall i :: 0 <= i < |init| ==> init[i] == names[i];
      SoundsForCount(init, store);
    }
  }

  /** The number of levels `init` loads. */
  const Levels: nat := 9

  /** The map load of `init` for level `n`. */
  function MapLoad(n: nat): AssetStore.LoadCall
    requires 1 <= n <= 9
  {
    AssetStore.LoadCall(AssetStore.TiledMap, "assets/maps/" + LevelName(n) + ".tmx", LevelName(n))
  }

  /** The map loads for levels 1 to `n`, in order. */
  function MapLoads(n: nat): (r: seq<AssetStore.LoadCall>)
    requires n <= 9
    ensures |r| == n
    ensures forall i :: 0 <= i < n ==> r[i] == MapLoad(i + 1)
  {
    if n == 0 then [] else MapLoads(n - 1) + [MapLoad(n)]
  }

  /** The atlas load of `init`. */
  function AtlasLoads(): seq<AssetStore.LoadCall> {
    [AssetStore.LoadCall(AssetStore.Atlas, "assets/basic_32x32.png", "basic")]
  }

  /** The sound loads of `init`: the pickup and the door sounds. */
  function SoundLoads(): seq<AssetStore.LoadCall> {
    [AssetStore.LoadCall(AssetStore.Sound, "assets/sfx/coin.mp3", "pickup"), AssetStore.LoadCall(AssetStore.Sound, "assets/sfx/open.mp3", "open")]
  }

  /** Every load `init` issues, in order: the atlas, the nine maps, the two sounds. */
  function InitLoads(): (r: seq<AssetStore.LoadCall>)
    ensures |r| == 12
  {
    AtlasLoads() + MapLoads(Levels) + SoundLoads()
  }

  /**
   * `init`'s loads on a store add twelve to both counters and keep the
   * invariant: right after `init` on a fresh store, `total == pending == 12`.
   */
  lemma InitCounts(s: AssetStore.Store)
    requires AssetStore.Inv(s)
    ensures var r := AssetStore.LoadEach(s, InitLoads());
            r.total == s.total + 12 && r.pending == s.pending + 12 && AssetStore.Inv(r)
  {
    var calls := InitLoads();
    assert |calls| == 12;
    AssetStore.LoadEachCounts(s, calls);
  }

  /**
   * What running `action` from the state `v` amounts to: the new state `v'`,
   * the actions it pushed, the values it persisted and whether it panicked,
   * given the asset store, the frame time and the path search; each case is
   * the contract of that action's `exec`. `player` is the player cell a move
   * action found and `order` the order the monsters took turns in.
   */
  ghost predicate Ran(action: Action, v: StateView, v': StateView, pushed: seq<Action>, saves: seq<Saved>,
                      panicked: bool, store: AssetStore.Store, dt: real, search: Search,
                      player: Option<Pos>, order: seq<Pos>)
  {
    match action
    case MovePlayer(dir) =>
      && !panicked && saves == []
      && (player.None? <==> PlayerCells(v.grid) == {})
      && (player.None? ==> v' == v && pushed == [])
      && (player.Some? ==>
            && player.value in v.grid && HoldsPlayer(v.grid[player.value])
            && var r := MovePlayerAction.MoveFrom(v, player.value, dir);
               v' == r.0 && pushed == r.1)
    case MoveMonsters =>
      && !panicked && saves == []
      && (player.None? <==> PlayerCells(v.grid) == {})
      && (player.None? ==> v' == v && pushed == [])
      && (player.Some? ==>
            && player.value in PlayerCells(v.grid)
            && (forall i :: 0 <= i < |order| ==> order[i] in MonsterCells(v.grid))
            && (forall q :: q in MonsterCells(v.grid) ==> q in order)
            && (forall i, j :: 0 <= i < j < |order| ==> order[i] != order[j])
            && var r := MoveMonstersAction.TurnsUpTo(v.grid, player.value, order, |order|, search);
               v' == v.(grid := r.0) && pushed == r.1)
    case CollectTreasure =>
      && !panicked && saves == [] && pushed == []
      && v' == v.(grid := CollectTreasureAction.AfterCollect(v.grid), playSound := v.playSound + ["pickup"])
    case Finish =>
      && !panicked
      && (v.nextLevel == "" ==>
            && v' == v.(won := true, msg := "You Won!", currentLevel := "")
            && saves == [Saved("current_level", "")] && pushed == [Fade(FadeOut)])
      && (v.nextLevel != "" ==>
            && v' == v && saves == []
            && pushed == [Fade(FadeIn), LoadMap(v.nextLevel), Fade(FadeOut)])
    case Lost =>
      && !panicked && v' == v && saves == []
      && pushed == [LoadMap(v.currentLevel), Fade(FadeOut), ShowMessage(3.0, "You Died!"), Fade(FadeIn)]
    case LoadMap(mapName) =>
      var loaded := LoadMapAction.LoadedMap(AssetStore.GetAsset(store, AssetStore.TiledMap, mapName));
      && (loaded.None? ==> !panicked && v' == v && pushed == [] && saves == [])
      && (loaded.Some? ==>
            var m := loaded.value;
            var built := LoadMapAction.BuildFrom(map[], m.layers);
            var intro := Tiled.StringProperty(m, "intro");
            var next := Tiled.StringProperty(m, "next_level");
            && (panicked <==> built.None?)
            && (built.None? ==> v' == v.(nextLevel := next) && pushed == [] && saves == [])
            && (built.Some? ==>
                  && v' == v.(grid := built.value, nextLevel := next, intro := intro, showIntro := |intro| > 0,
                              won := false, showMenu := false, currentLevel := mapName, msg := "")
                  && pushed == [Fade(FadeIn)] && saves == [Saved("current_level", mapName)]))
    case Fade(direction) =>
      var fade := FadeAction.FadeStep(v.fade, direction, dt);
      && !panicked && saves == [] && v' == v.(fade := fade)
      && pushed == (if fade == FadeAction.Target(direction) then [] else [Fade(direction)])
    case ShowMessage(lengthSec, msg) =>
      && !panicked && saves == []
      && (lengthSec - dt > 0.0 ==> v' == v.(msg := msg) && pushed == [ShowMessage(lengthSec - dt, msg)])
      && (lengthSec - dt <= 0.0 ==> v' == v.(msg := "") && pushed == [])
  }

  class TreasureHunter {
    var initialized: bool
    const state: State

    constructor (state: State)
      ensures this.state == state && !initialized
    {
      this.state := state;
      initialized := false;
    }

    /** `initialize`: the game counts as initialized once no asset is pending, and stays so. */
    method Initialize(assets: AssetStore.GAssets)
      modifies this
      ensures initialized <==> old(initialized) || assets.Pending() == 0
    {
      if !initialized && assets.Pending() == 0 {
        initialized := true;
      }
    }

    /** `push_action`: put an action on top of the stack. */
    method PushAction(a: Action)
      modifies state
      ensures state.View() == old(state.View()).(actions := old(state.actions) + [a])
    {
      state.actions := state.actions + [a];
    }

    /**
     * `process_game_input`: Escape toggles the menu whatever else holds;
     * then, if input is allowed (checked after the toggle), the keys'
     * command is pushed.
     */
    method ProcessGameInput(pressed: set<Key>)
      modifies state
      ensures var toggled := old(state.View()).(showMenu := old(state.showMenu) != (Escape in pressed));
              var allowed := toggled.fade == 0.0 && !toggled.showMenu && toggled.actions == [];
              state.View() == toggled.(actions := toggled.actions + (if allowed && Command(pressed).Some? then [Command(pressed).value] else []))
    {
      if Escape in pressed {
        var showMenu := state.showMenu;
        state.showMenu := !showMenu;
      }
      if !state.InputAllowed() {
        return;
      }
      var dx := 0;
      var dy := 0;
      if Space in pressed {
        PushAction(MoveMonsters);
        return;
      }
      if KeyA in pressed {
        dx := -1;
        dy := 0;
      }
      if KeyD in pressed {
        dx := 1;
        dy := 0;
      }
      if KeyW in pressed {
        dy := -1;
        dx := 0;
      }
      if KeyS in pressed {
        dy := 1;
        dx := 0;
      }
      assert (dx, dy) == Direction(pressed);
      var n := 1;
      while n <= 9
        invariant 1 <= n <= 10
        invariant LeastDigit(pressed, 1) == LeastDigit(pressed, n)
      {
        if Num(n) in pressed {
          PushAction(LoadMap(LevelName(n)));
          return;
        }
        n := n + 1;
      }
      if dx != 0 || dy != 0 {
        PushAction(MovePlayer((dx, dy)));
      }
    }

    /**
     * `process_actions`: pop the action on top of the stack, if any, run it,
     * and push the actions it pushed, in their order, so that the last one
     * pushed runs next. `ran` is the action run, `pushed` what it pushed,
     * `saves` the values it persisted; `panicked` reports a map whose
     * loading panics. What the run did to the rest of the state is `Ran`,
     * with `player` and `order` as there.
     */
    method ProcessActions(assets: AssetStore.GAssets, dt: real, search: Search)
        returns (ghost ran: Option<Action>, ghost pushed: seq<Action>, saves: seq<Saved>, panicked: bool,
                 ghost player: Option<Pos>, ghost order: seq<Pos>)
      modifies state
      ensures old(state.actions) == [] ==> ran.None? && pushed == [] && saves == [] && state.View() == old(state.View())
      ensures old(state.actions) != [] ==>
                && ran == Some(old(state.actions)[|old(state.actions)| - 1])
                && state.actions == old(state.actions)[..|old(state.actions)| - 1] + pushed
                && var rest := old(state.actions)[..|old(state.actions)| - 1];
                   Ran(ran.value, old(state.View()).(actions := rest), state.View().(actions := rest), pushed, saves,
                       panicked, assets.Model(), dt, search, player, order)
      ensures ran.Some? && ran.value == Lost ==>
                && pushed == [LoadMap(old(state.currentLevel)), Fade(FadeOut), ShowMessage(3.0, "You Died!"), Fade(FadeIn)]
                && state.View() == old(state.View()).(actions := state.actions)
      ensures panicked ==> ran.Some? && ran.value.LoadMap?
    {
      var ctx := new ActionContext(state, assets, dt);
      ran := None;
      panicked := false;
      player := None;
      order := [];
      if |state.actions| > 0 {
        var action := state.actions[|state.actions| - 1];
        state.actions := state.actions[..|state.actions| - 1];
        ran := Some(action);
        panicked, player, order := ExecAction(ctx, action, search);
      }
      pushed := ctx.newActions;
      saves := ctx.saves;
      PushAll(ctx.newActions);
    }

    /** The actions an action pushed go on the stack one by one, in push order. */
    method PushAll(pushed: seq<Action>)
      modifies state
      ensures state.View() == old(state.View()).(actions := old(state.actions) + pushed)
    {
      var i := 0;
      while i < |pushed|
        invariant 0 <= i <= |pushed|
        invariant state.View() == old(state.View()).(actions := old(state.actions) + pushed[..i])
      {
        assert pushed[..i + 1] == pushed[..i] + [pushed[i]];
        PushAction(pushed[i]);
        i := i + 1;
      }
      assert pushed[..i] == pushed;
    }

    /**
     * The dispatch of `action.exec`: runs the action's own `exec` on the
     * context, which starts with nothing pushed and nothing saved, and
     * leaves the stack itself alone; `Ran` states the outcome per action.
     * `player` is the player cell the move actions found and `order` the
     * order in which the monsters took turns.
     */
    method ExecAction(ctx: ActionContext, action: Action, search: Search)
        returns (panicked: bool, ghost player: Option<Pos>, ghost order: seq<Pos>)
      requires ctx.state == state && ctx.newActions == [] && ctx.saves == []
      modifies ctx, ctx.state
      ensures ctx.state.actions == old(ctx.state.actions)
      ensures panicked ==> action.LoadMap?
      ensures Ran(action, old(state.View()), state.View(), ctx.newActions, ctx.saves, panicked,
                  ctx.assets.Model(), ctx.dt, search, player, order)
    {
      panicked := false;
      player := None;
      order := [];
      match action {
        case MovePlayer(dir) =>
          player := MovePlayerAction.Exec(ctx, dir);
        case MoveMonsters =>
          player, order := MoveMonstersAction.Exec(ctx, search);
        case CollectTreasure =>
          CollectTreasureAction.Exec(ctx);
        case Finish =>
          FinishAction.Exec(ctx);
        case Lost =>
          LostAction.Exec(ctx);
        case LoadMap(mapName) =>
          panicked := LoadMapAction.Exec(ctx, mapName);
        case Fade(direction) =>
          FadeAction.Exec(ctx, direction);
        case ShowMessage(lengthSec, msg) =>
          ShowMessageAction.Exec(ctx, lengthSec, msg);
      }
    }

    /**
     * `play_sounds`: the queue of sound names is emptied; each name loaded
     * as a sound is played, in queue order, and the others are skipped.
     */
    method PlaySounds(assets: AssetStore.GAssets) returns (played: seq<AssetStore.SoundClip>)
      modifies state
      ensures state.View() == old(state.View()).(playSound := [])
      ensures played == SoundsFor(old(state.playSound), assets.Model())
    {
      var names := state.playSound;
      state.playSound := [];
      played := [];
      var i := 0;
      while i < |names|
        invariant 0 <= i <= |names|
        invariant played == SoundsFor(names[..i], assets.Model())
      {
        assert names[..i + 1][..i] == names[..i];
        var sound := assets.Get(AssetStore.Sound, names[i]);
        if sound.Some? && sound.value.data.SoundData? {
          played := played + [sound.value.data.sound];
        }
        i := i + 1;
      }
      assert names[..i] == names;
    }

    /**
     * `init`: the twelve loads, then the fade is set to black, the menu is
     * shown and the level is the persisted one (`saved`), or `""` when none
     * was persisted.
     */
    method Init(assets: AssetStore.GAssets, saved: Option<string>)
      requires assets.Valid()
      modifies assets, state
      ensures assets.Valid()
      ensures assets.Model() == AssetStore.LoadEach(old(assets.Model()), InitLoads())
      ensures state.View() == old(state.View()).(fade := 1.0, showMenu := true, currentLevel := saved.GetOr(""))
    {
      ghost var s0 := assets.Model();
      ghost var v0 := state.View();
      AssetStore.Issue(assets, s0, [], AssetStore.LoadCall(AssetStore.Atlas, "assets/basic_32x32.png", "basic"));
      ghost var s1 := assets.Model();
      LoadMaps(assets);
      ghost var s2 := assets.Model();
      AssetStore.Issue(assets, s2, [], AssetStore.LoadCall(AssetStore.Sound, "assets/sfx/coin.mp3", "pickup"));
      AssetStore.Issue(assets, s2, [SoundLoads()[0]], AssetStore.LoadCall(AssetStore.Sound, "assets/sfx/open.mp3", "open"));
      ChainInitLoads(s0, s1, s2, assets.Model());
      assert state.View() == v0;
      ShowTitle(saved);
    }

    /** The end of `init`: fade to black, show the menu, and restore the persisted level. */
    method ShowTitle(saved: Option<string>)
      modifies state
      ensures state.View() == old(state.View()).(fade := 1.0, showMenu := true, currentLevel := saved.GetOr(""))
    {
      state.fade := 1.0;
      state.showMenu := true;
      state.currentLevel := saved.GetOr("");
    }

    /** The `for i in 1..=9` loop of `init`: one map load per level. */
    method LoadMaps(assets: AssetStore.GAssets)
      requires assets.Valid()
      modifies assets
      ensures assets.Valid()
      ensures assets.Model() == AssetStore.LoadEach(old(assets.Model()), MapLoads(Levels))
    {
      ghost var s0 := assets.Model();
      var i := 1;
      while i <= 9
        invariant 1 <= i <= Levels + 1
        invariant assets.Valid()
        invariant assets.Model() == AssetStore.LoadEach(s0, MapLoads(i - 1))
      {
        var name := LevelName(i);
        AssetStore.Issue(assets, s0, MapLoads(i - 1), AssetStore.LoadCall(AssetStore.TiledMap, "assets/maps/" + name + ".tmx", name));
        assert MapLoads(i) == MapLoads(i - 1) + [MapLoad(i)];
        i := i + 1;
      }
    }
  }

  /** `init`'s three groups of loads, one after the other, are its twelve loads. */
  lemma ChainInitLoads(s0: AssetStore.Store, s1: AssetStore.Store, s2: AssetStore.Store, s3: AssetStore.Store)
    requires s1 == AssetStore.LoadEach(s0, [] + [AtlasLoads()[0]])
    requires s2 == AssetStore.LoadEach(s1, MapLoads(Levels))
    requires s3 == AssetStore.LoadEach(s2, [SoundLoads()[0]] + [SoundLoads()[1]])
    ensures s3 == AssetStore.LoadEach(s0, InitLoads())
  {
    assert [] + [AtlasLoads()[0]] == AtlasLoads();
    assert [SoundLoads()[0]] + [SoundLoads()[1]] == SoundLoads();
    AssetStore.LoadEachAppend(s0, AtlasLoads(), MapLoads(Levels));
    AssetStore.LoadEachAppend(s0, AtlasLoads() + MapLoads(Levels), SoundLoads());
  }
}
