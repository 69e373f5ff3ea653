# ggsdk: asset store, loaders, engine lifecycle and the treasure hunter game

This project models the core of ggsdk, a small Rust game SDK built on egui,
and of its example game, Treasure Hunter. It covers four parts.

- **The asset store.**
  - `TypedAssets<T>` is a registry per asset type. Its `pending` map is keyed by path and its `loaded` map by name.
  - `GAssets` is one registry per asset kind, plus the counters `total` and `pending`.
  - The atlas decoder reads the sprite grid (`<name>_<cols>x<rows>`) from the file name.
- **The two loading backends.**
  - The native `DiskLoader` is a FIFO queue with a single worker slot.
  - The browser `WebLoader` is a LIFO list of new requests plus a set of in-flight fetches.
- **The engine's frame lifecycle.** `Preinit` → `Init` → `Postinit`, with the asset store polled every frame.
- **The treasure hunter game.**
  - The grid of cells with things, walls and floors.
  - The action stack that runs one action per frame.
  - The actions themselves: player and monster moves, treasure collection, level finish, death, map loading, fades and messages.
  - The app's key mapping, its asset loads in `init`, and its sound playing.

Stateful parts keep their form:

- Registries, the store, the loaders, the engine, the game state, the action context and the app are classes.
- Their methods are proved against specification functions over the classes' abstract values (`Registry`, `Store`, `DiskState`, `StateView`, …).
- The properties are proved about those functions as lemmas.

What the environment supplies becomes a parameter:

- the events the backends return to a poll;
- what a finished worker thread or a fetch reports;
- the format decoders (UTF-8, TMX, audio);
- the A* search over the grid;
- the frame time `dt`;
- the keys pressed in a frame;
- the value `persist::load` returns.

`persist::save` calls are recorded in the action context's `saves` list, in call order.
A `panic!` while a map is loaded is an outcome of the model rather than an abort.

Where the code and its documentation differ, the model follows the code:

- A failed load counts down the store's `pending` just like a successful one.
- The asset kept under a name is the one whose load completed last, not the one requested last.
- Loading the same path twice counts two loads but leaves one pending entry. `pending` then never returns to zero.
- `LoadMapAction` sets `next_level` before it walks the layers, so a map that panics halfway has already changed it.
- A layer of an unknown class panics only when one of its tiles is visited. A layer without a width or height panics before any tile.

## Model

| member | source | states |
|---|---|---|
| AssetRegistry.PollStep | ggsdk_internal/src/assets/mod.rs:77-105 | no event, or an event for a path not pending, yields nothing and changes nothing; otherwise the path leaves `pending`, and a decoded `Load` files the asset under the pending name while a failure leaves `loaded` alone and reports `LoadFailed{name, path}` |
| AssetRegistry.LoadOneEntryPerPath | ggsdk_internal/src/assets/mod.rs:69-72 | after `load` the path maps to the new name, `pending` grows only for a path not already pending, and exactly one request goes to the backend |
| AssetRegistry.LoadIsNotVisible | ggsdk_internal/src/assets/mod.rs:69-76 | `load` does not change what `get` returns for any name |
| AssetRegistry.LookupIsLoaded | ggsdk_internal/src/assets/mod.rs:74-76 | `get` answers exactly for the loaded names, with the asset filed under that name |
| AssetRegistry.PollAccountsForOnePending | ggsdk_internal/src/assets/mod.rs:81-104 | every event `poll` reports removes exactly one pending path; no event removes none |
| AssetRegistry.PollKeepsLoaded | ggsdk_internal/src/assets/mod.rs:83-98 | `poll` never forgets a loaded name and keeps every asset under its own name |
| AssetRegistry.LastCompletionWins | ggsdk_internal/src/assets/mod.rs:83-92 | with two paths loaded under one name, the completion that arrives last decides the asset kept |
| AssetRegistry.DuplicateLoadReportsOnce | ggsdk_internal/src/assets/mod.rs:69-72 | a path loaded twice is requested twice but reported once, under the second name; the second completion is dropped |
| AssetRegistry.TypedAssets.constructor | ggsdk_internal/src/assets/mod.rs:108-121 | a new registry is empty |
| AssetRegistry.TypedAssets.Load | ggsdk_internal/src/assets/mod.rs:69-72 | the registry becomes `LoadStep` of the old one |
| AssetRegistry.TypedAssets.Poll | ggsdk_internal/src/assets/mod.rs:77-105 | the registry and the event are those of `PollStep` |
| AssetStore.Decode | ggsdk_internal/src/assets/mod.rs:136-239 | text, maps and sounds decode exactly when their decoder succeeds; an atlas always decodes, named after the load, with the grid its path announces, each count below 256 |
| AssetStore.GetAsset | ggsdk_internal/src/assets/mod.rs:273-282 | a kind never loaded yields nothing; otherwise an asset exactly for the loaded names |
| AssetStore.StorePoll | ggsdk_internal/src/assets/mod.rs:284-290 | `total` is kept, `pending` drops by the number of registries that reported an event, and the invariant `Σ pending paths ≤ pending ≤ total` is kept, so the decrement never underflows |
| AssetStore.FiresAtMostPending | ggsdk_internal/src/assets/mod.rs:284-290 | a registry fires at most once, and only while it has a pending path |
| AssetStore.FiredAmongAtMostOutstanding | ggsdk_internal/src/assets/mod.rs:284-290 | the registries that fire in one poll are no more than the paths pending |
| AssetStore.FiredAmongAddOne | ggsdk_internal/src/assets/mod.rs:285-289 | counting one more registry adds its own event |
| AssetStore.FiredAmongAll | ggsdk_internal/src/assets/mod.rs:285-289 | counting over every registry that exists counts every event |
| AssetStore.PartlyPolledStep | ggsdk_internal/src/assets/mod.rs:285-289 | polling one more registry, in any order, extends the partial poll |
| AssetStore.PolledEverywhere | ggsdk_internal/src/assets/mod.rs:285-289 | once every registry is polled, the registries are those of the full poll |
| AssetStore.PollOutstanding | ggsdk_internal/src/assets/mod.rs:284-290 | a poll removes as many pending paths as the events it counts down |
| AssetStore.EmptyStoreIsIdle | ggsdk_internal/src/assets/mod.rs:123-128 | a new store satisfies the invariant with nothing loaded and nothing stalled |
| AssetStore.LoadKeepsInv | ggsdk_internal/src/assets/mod.rs:251-271 | `load` keeps the invariant, for repeated paths and names too, and never unstalls a load |
| AssetStore.PollKeepsStalled | ggsdk_internal/src/assets/mod.rs:284-290 | a poll neither adds nor removes loads that can no longer be answered |
| AssetStore.LoadedNeverDecreases | ggsdk_internal/src/assets/mod.rs:251-302 | `loaded() = total - pending` is unchanged by `load` and grows by the events counted in `poll` |
| AssetStore.LoadIsInvisible | ggsdk_internal/src/assets/mod.rs:251-282 | `load` changes what `get` returns for no kind and no name |
| AssetStore.DuplicateLoadStalls | ggsdk_internal/src/assets/mod.rs:251-271 | loading one path twice leaves a load that is never answered, so `pending` stays above zero |
| AssetStore.GAssets.constructor | ggsdk_internal/src/assets/mod.rs:123-128 | a new store is empty and valid |
| AssetStore.GAssets.Load | ggsdk_internal/src/assets/mod.rs:251-271 | the store becomes `StoreLoad` of the old one: registry created on first use, both counters up by one, invariant kept |
| AssetStore.GAssets.PollRegistry | ggsdk_internal/src/assets/mod.rs:286-288 | one registry polled, and `pending` counted down exactly when it reported an event |
| AssetStore.GAssets.Poll | ggsdk_internal/src/assets/mod.rs:284-290 | the store becomes `StorePoll` of the old one, visiting the registries in any order, invariant kept |
| AtlasGrid.LastIndex | ggsdk_internal/src/assets/mod.rs:197-201 | the last occurrence of a separator, or none exactly when it is absent |
| AtlasGrid.FirstIndex | ggsdk_internal/src/assets/mod.rs:206-207 | the first occurrence of a separator, or none exactly when it is absent |
| AtlasGrid.AfterLast | ggsdk_internal/src/assets/mod.rs:200-201 | the last piece of a split: a separator-free suffix preceded by the separator unless it is the whole string |
| AtlasGrid.FirstTwoPieces | ggsdk_internal/src/assets/mod.rs:206-207 | the first two pieces of a split exist exactly when the separator occurs, and are separator-free |
| AtlasGrid.ParseU8 | ggsdk_internal/src/assets/mod.rs:208 | a parsed count is below 256 and starts with a digit or `+` |
| AtlasGrid.FileName | ggsdk_internal/src/assets/mod.rs:197-198 | the file name is free of `/` and never `.` or `..`: empty and `.` components are skipped, a final `..` means none |
| AtlasGrid.AtlasGrid | ggsdk_internal/src/assets/mod.rs:197-213 | the grid inferred from a path has both counts below 256 |
| AtlasGrid.GridOfSuffix | ggsdk_internal/src/assets/mod.rs:202-213 | the grid of a `<c>x<r>` suffix has both counts below 256 |
| AtlasGrid.DecimalValue | ggsdk_internal/src/assets/mod.rs:208 | the digits of a number denote that number |
| AtlasGrid.ParseDecimal | ggsdk_internal/src/assets/mod.rs:208 | a byte-sized number written in decimal parses back to itself |
| AtlasGrid.OversizedDecimal | ggsdk_internal/src/assets/mod.rs:208 | a number of 256 or more does not parse |
| AtlasGrid.LastIndexOfSeparator | ggsdk_internal/src/assets/mod.rs:198-201 | the last separator of `a + c + b`, with `b` free of it, is at `|a|` |
| AtlasGrid.FirstIndexOfSeparator | ggsdk_internal/src/assets/mod.rs:206-207 | the first separator of `a + c + b`, with `a` free of it, is at `|a|` |
| AtlasGrid.AfterLastSeparator | ggsdk_internal/src/assets/mod.rs:200-201 | the last piece of `a + c + b`, with `b` free of `c`, is `b` |
| AtlasGrid.AfterLastAbsent | ggsdk_internal/src/assets/mod.rs:200-201 | a string without the separator is its own last piece |
| AtlasGrid.FileNameInDirectory | ggsdk_internal/src/assets/mod.rs:197-198 | a directory prefix does not change the file name |
| AtlasGrid.TrailingSeparatorIgnored | ggsdk_internal/src/assets/mod.rs:197-198 | a trailing `/` or `/.` does not change the file name |
| AtlasGrid.TrailingSeparatorKeepsGrid | ggsdk_internal/src/assets/mod.rs:197-213 | a trailing `/` or `/.` does not change the grid |
| AtlasGrid.StemOfName | ggsdk_internal/src/assets/mod.rs:198 | the stem of `<stem>.<ext>` is `<stem>` |
| AtlasGrid.StemOfFile | ggsdk_internal/src/assets/mod.rs:197-199 | the stem of `<dir><stem>.<ext>` is `<stem>` |
| AtlasGrid.PiecesOfDigits | ggsdk_internal/src/assets/mod.rs:206-207 | `<c>x<r>` with digit strings splits into exactly `c` and `r` |
| AtlasGrid.NoUnderscoreInDigits | ggsdk_internal/src/assets/mod.rs:200-206 | a digit string holds none of the separators |
| AtlasGrid.GridOfDigits | ggsdk_internal/src/assets/mod.rs:205-213 | the suffix `<cols>x<rows>` gives `(cols, rows)` for byte-sized counts |
| AtlasGrid.SuffixAfterUnderscore | ggsdk_internal/src/assets/mod.rs:200-201 | the last `_` piece of `<base>_<c>x<r>` is `<c>x<r>` |
| AtlasGrid.SuffixOfFileName | ggsdk_internal/src/assets/mod.rs:197-201 | the `_`-suffix of the stem of `<dir><base>_<c>x<r>.<ext>` is `<c>x<r>` |
| AtlasGrid.GridFromFileName | ggsdk_internal/src/assets/mod.rs:197-213 | a file named `<dir><base>_<cols>x<rows>.<ext>` gives `(cols, rows)` for counts below 256 |
| AtlasGrid.OversizedGridIsOneCell | ggsdk_internal/src/assets/mod.rs:208-213 | a count of 256 or more makes the grid (1, 1) |
| AtlasGrid.BasicAtlasIs32By32 | ggsdk_internal/src/assets/mod.rs:197-213 | `assets/basic_32x32.png` is a 32 by 32 grid |
| AtlasGrid.StemWithoutGridIsOneCell | ggsdk_internal/src/assets/mod.rs:202-213 | a stem without `x` gives (1, 1) |
| AtlasGrid.PlainNameIsOneCell | ggsdk_internal/src/assets/mod.rs:202-213 | `sheet.png` gives (1, 1) |
| DiskLoader.WorkerEvent | ggsdk_internal/src/gassets/disk_loader.rs:23-43 | a running worker reports nothing; a finished one reports `Load(path, bytes)`, `LoadFailed(path)`, or `LoadFailed("unknown error")` when it panicked |
| DiskLoader.PollStep | ggsdk_internal/src/gassets/disk_loader.rs:20-51 | a poll reports or dispatches, never both; with a load in flight nothing is dispatched and the slot empties exactly when an event returns, naming the path unless the worker panicked; with the slot empty the queue's front is dispatched and nothing reported; an idle loader is left unchanged |
| DiskLoader.RunIsFifo | ggsdk_internal/src/gassets/disk_loader.rs:16-36 | over any run, the paths dispatched followed by those still queued are the queued and requested paths in order |
| DiskLoader.RunAnswersDispatches | ggsdk_internal/src/gassets/disk_loader.rs:20-51 | events reported plus the load in flight equal the loads in flight at the start plus the dispatches |
| DiskLoader.FreshRunDispatchesInRequestOrder | ggsdk_internal/src/gassets/disk_loader.rs:15-51 | from a new loader, the dispatches are a prefix of the requests and no more events come back than dispatches |
| DiskLoader.DiskLoader.constructor | ggsdk_internal/src/gassets/disk_loader.rs:9-13 | a new loader has an empty queue and an empty slot |
| DiskLoader.DiskLoader.Request | ggsdk_internal/src/gassets/disk_loader.rs:16-18 | the path is appended to the queue, the slot untouched |
| DiskLoader.DiskLoader.Poll | ggsdk_internal/src/gassets/disk_loader.rs:20-51 | state and event are those of `PollStep` |
| WebLoader.FetchEvent | ggsdk/src/gassets/web_loader.rs:24-56 | the event names the path; it is a `Load` with the body exactly when the fetch produced a body, `LoadFailed` otherwise |
| WebLoader.Received | ggsdk/src/gassets/web_loader.rs:82-96 | a waiting receiver yields nothing, a dropped sender yields `LoadFailed(path)`, a sent one the task's event for the path |
| WebLoader.FirstReady | ggsdk/src/gassets/web_loader.rs:82-97 | finds no path exactly when every receiver waits, otherwise an in-flight path whose receiver is ready |
| WebLoader.WebLoader.constructor | ggsdk/src/gassets/web_loader.rs:17-22 | a new loader has nothing in flight and no new requests |
| WebLoader.WebLoader.Request | ggsdk/src/gassets/web_loader.rs:68-70 | the path is only appended to the new requests |
| WebLoader.WebLoader.Poll | ggsdk/src/gassets/web_loader.rs:72-104 | the newest request is dispatched (a path already in flight stays once); then either nothing is ready and every in-flight path is kept, or one ready path is reported and removed |
| Engine.UserInputCount | ggsdk_internal/src/engine.rs:147-158 | the count of key, pointer-button and touch events is at most the number of events |
| Engine.UserInputCountPositive | ggsdk_internal/src/engine.rs:147-158 | the count is positive exactly when some event is a key, pointer button or touch |
| Engine.Step | ggsdk_internal/src/engine.rs:134-198 | `Preinit` moves to `Init` exactly when the frame has user input, and calls nothing; `Init` calls `init` and becomes `Postinit`; `Postinit` calls `update` and stays |
| Engine.RunCallbacks | ggsdk_internal/src/engine.rs:134-198 | over any run only the first callback can be `init`, a run from `Postinit` only updates, a run that ends before `Postinit` made no callback, and nothing leads back to `Preinit` |
| Engine.InitRunsAtMostOnce | ggsdk_internal/src/engine.rs:167-174 | from a new engine `init` runs at most once, as the first callback |
| Engine.InitAfterInput | ggsdk_internal/src/engine.rs:134-174 | from a new engine, `init` is called exactly when some frame with user input is followed by another frame |
| Engine.InitRunsOnce | ggsdk_internal/src/engine.rs:134-198 | from a new engine, once an input frame has been followed by another frame, `init` has run exactly once, as the first callback, every later one being `update`, and the engine is in `Postinit` |
| Engine.GGEngine.constructor | ggsdk_internal/src/engine.rs:25-42 | a new engine is in `Preinit` with no frames, no callbacks and an empty valid store |
| Engine.GGEngine.Update | ggsdk_internal/src/engine.rs:118-203 | the store is polled once per frame and once more before `update` in `Postinit`; the `load` calls `init` or `update` makes through the lent store follow, in order; the state and callbacks follow `Step`; `iterations` grows by one |
| GameState.State.constructor | examples/treasure_hunter/src/state.rs:34-48 | the default state: empty grid, strings, lists and flags, fade 0 |
| GameState.State.FindPlayer | examples/treasure_hunter/src/state.rs:51-63 | a cell that holds the player, or none exactly when no cell does |
| GameState.State.FindMonsters | examples/treasure_hunter/src/state.rs:65-78 | exactly the cells holding a monster, each once |
| GameState.State.PathFind | examples/treasure_hunter/src/state.rs:80-109 | the search's path, with the blocking rule, minus its first position; empty when none is found |
| GameState.State.InputAllowed | examples/treasure_hunter/src/state.rs:111-127 | true exactly when fade is 0, the menu is hidden and no action waits; `won` plays no part |
| GameState.MoveThing | examples/treasure_hunter/src/actions/move_player.rs:63-66 | the thing leaves `a` and replaces what `b` held; every other cell, and every wall and floor, is kept |
| GameState.SetThingCount | examples/treasure_hunter/src/actions/move_player.rs:44 | replacing one cell's thing changes the count of a kind by what left and what arrived |
| GameState.ClearOtherKind | examples/treasure_hunter/src/actions/move_player.rs:44 | emptying a cell of another kind keeps the cells of a kind |
| GameState.MoveThingCount | examples/treasure_hunter/src/actions/move_monsters.rs:45-55 | moving a thing from `a` to `b` frees `a`, adds `b` for the moved kind, and drops what `b` held |
| GameState.MoveKeepsKind | examples/treasure_hunter/src/actions/move_monsters.rs:45-55 | a move between cells of other kinds keeps the cells of a kind |
| GameState.MoveOfKind | examples/treasure_hunter/src/actions/move_monsters.rs:45-55 | moving a thing of a kind onto a cell of another keeps its count |
| GameState.MoveOntoKind | examples/treasure_hunter/src/actions/move_monsters.rs:45-55 | moving onto a cell of a kind removes that cell from the kind |
| MovePlayerAction.MoveFrom | examples/treasure_hunter/src/actions/move_player.rs:15-68 | a move keeps every cell other than the player's and the target's, and changes no field but the grid, the treasure count and the sounds |
| MovePlayerAction.MoveRules | examples/treasure_hunter/src/actions/move_player.rs:15-67 | the rule table per target: missing or walled cell, player or grate changes nothing; exit pushes only `Finish`; pit or monster removes the player and pushes `Lost`; empty cell carries the player and pushes `MoveMonsters`; treasure also counts one collected and pushes `CollectTreasure` first; door also queues "open" |
| MovePlayerAction.MoveOutcomes | examples/treasure_hunter/src/actions/move_player.rs:15-68 | the actions pushed are none, `Finish`, `Lost`, `MoveMonsters` or `CollectTreasure, MoveMonsters`; the state is unchanged exactly for none or `Finish`; with `MoveMonsters` the player stands on the target, which keeps its walls and floor; with `Lost` the player is removed and the target untouched |
| MovePlayerAction.MoveConserves | examples/treasure_hunter/src/actions/move_player.rs:15-68 | treasure on the grid plus treasure collected is kept, the monsters are kept, the player is never duplicated |
| MovePlayerAction.DieCounts | examples/treasure_hunter/src/actions/move_player.rs:42-55 | removing the player keeps treasure and monsters and loses one player cell |
| MovePlayerAction.CarryCounts | examples/treasure_hunter/src/actions/move_player.rs:63-66 | carrying the player loses only a treasure it stepped on, keeps monsters and the number of players |
| MovePlayerAction.Exec | examples/treasure_hunter/src/actions/move_player.rs:11-69 | no player changes nothing; otherwise state and pushed actions are those of `MoveFrom` from the player's cell |
| MovePlayerAction.Carry | examples/treasure_hunter/src/actions/move_player.rs:63-67 | the grid becomes `MoveThing` and `MoveMonsters` is pushed |
| MoveMonstersAction.Chase | examples/treasure_hunter/src/actions/move_monsters.rs:26-56 | a chase keeps the grid's positions |
| MoveMonstersAction.MonsterTurn | examples/treasure_hunter/src/actions/move_monsters.rs:13-56 | a turn keeps the grid's positions |
| MoveMonstersAction.MonsterTurnRules | examples/treasure_hunter/src/actions/move_monsters.rs:13-56 | only a monster takes a turn; it always thinks, acts only on an even count, moves only onto the path's first step when that cell exists and is empty or holds the player, and catches the player exactly when it steps onto it |
| MoveMonstersAction.MonsterTurnCounts | examples/treasure_hunter/src/actions/move_monsters.rs:13-56 | a turn keeps the number of monsters and the treasure, and loses a player cell exactly when it catches the player |
| MoveMonstersAction.ThinkCounts | examples/treasure_hunter/src/actions/move_monsters.rs:20-21 | thinking changes no cell's kind |
| MoveMonstersAction.StepCounts | examples/treasure_hunter/src/actions/move_monsters.rs:45-55 | a monster's step keeps the monsters and treasure and drops the player's cell it steps onto |
| MoveMonstersAction.TurnsUpTo | examples/treasure_hunter/src/actions/move_monsters.rs:12-57 | the turns keep the grid's positions |
| MoveMonstersAction.TurnsConserve | examples/treasure_hunter/src/actions/move_monsters.rs:12-57 | over all turns the monsters and treasure are kept, only `Lost` is pushed, once per player cell caught |
| MoveMonstersAction.Exec | examples/treasure_hunter/src/actions/move_monsters.rs:8-58 | no player changes nothing; otherwise every monster takes its turn once, in `find_monsters` order, and the state and pushes follow `TurnsUpTo` |
| MoveMonstersAction.TakeTurns | examples/treasure_hunter/src/actions/move_monsters.rs:12-57 | the loop leaves the grid and pushes of `TurnsUpTo` |
| MoveMonstersAction.TurnAt | examples/treasure_hunter/src/actions/move_monsters.rs:13-56 | one pass of the loop advances `TurnsUpTo` by one turn |
| MoveMonstersAction.Turn | examples/treasure_hunter/src/actions/move_monsters.rs:13-56 | the grid becomes that of `MonsterTurn`, and `Lost` is pushed exactly on a catch |
| MoveMonstersAction.ChaseStep | examples/treasure_hunter/src/actions/move_monsters.rs:26-56 | the grid becomes that of `Chase`, and `Lost` is pushed exactly on a catch |
| CollectTreasureAction.ClearGrates | examples/treasure_hunter/src/actions/collect_treasure.rs:17-23 | keeps the positions and leaves no grate |
| CollectTreasureAction.AfterCollect | examples/treasure_hunter/src/actions/collect_treasure.rs:8-24 | with treasure left the grid is unchanged; with none left no grate remains; every cell is unchanged or a grate emptied |
| CollectTreasureAction.CollectKeepsOthers | examples/treasure_hunter/src/actions/collect_treasure.rs:16-24 | players, monsters and treasure are untouched, and grates only disappear |
| CollectTreasureAction.CollectIdempotent | examples/treasure_hunter/src/actions/collect_treasure.rs:8-24 | collecting twice changes the grid as much as once |
| CollectTreasureAction.Exec | examples/treasure_hunter/src/actions/collect_treasure.rs:7-27 | the grid becomes `AfterCollect`, `"pickup"` is queued, nothing is pushed |
| CollectTreasureAction.CountTreasure | examples/treasure_hunter/src/actions/collect_treasure.rs:8-15 | counts exactly the cells holding treasure |
| CollectTreasureAction.ClearAllGrates | examples/treasure_hunter/src/actions/collect_treasure.rs:17-23 | the loop's grid is `ClearGrates` of the input |
| FinishAction.Exec | examples/treasure_hunter/src/actions/finish.rs:9-29 | no next level: won, "You Won!", level cleared and saved, one fade-out pushed; otherwise the state is kept and fade-in, load of the next level, fade-out are pushed in that order |
| LostAction.Exec | examples/treasure_hunter/src/actions/lost.rs:10-24 | pushes exactly load of the current level, fade-out, a 3-second "You Died!" message and fade-in, changing no state |
| FadeAction.Clamp01 | examples/treasure_hunter/src/actions/fade.rs:31 | the clamp lies in [0, 1] and keeps values already there |
| FadeAction.FadeInArrives | examples/treasure_hunter/src/actions/fade.rs:22-48 | after `n` fade-in frames covering the fade at speed 3 the screen is clear |
| FadeAction.FadeInStays | examples/treasure_hunter/src/actions/fade.rs:22-48 | a clear screen stays clear while fading in |
| FadeAction.FadeOutArrives | examples/treasure_hunter/src/actions/fade.rs:22-48 | after `n` fade-out frames covering the gap at speed 3 the screen is black |
| FadeAction.FadeOutStays | examples/treasure_hunter/src/actions/fade.rs:22-48 | a black screen stays black while fading out |
| FadeAction.Exec | examples/treasure_hunter/src/actions/fade.rs:22-48 | fade moves by `dt * 3` towards its target, clamped to [0, 1], and the action is pushed again until the target is reached |
| ShowMessageAction.Exec | examples/treasure_hunter/src/actions/show_msg.rs:8-20 | the message shows and is pushed again with `dt` less time while time remains; otherwise the message is cleared |
| Tiled.AsI32 | examples/treasure_hunter/src/actions/load_map.rs:42-43 | values below 2^31 keep their value, larger ones turn negative |
| Tiled.AsU16 | examples/treasure_hunter/src/actions/load_map.rs:58-64 | the result is below 2^16 and keeps values that fit |
| LoadMapAction.VariantOf | examples/treasure_hunter/src/actions/load_map.rs:67-76 | a variant exactly for the seven class names, a monster with `think = 0` |
| LoadMapAction.Placed | examples/treasure_hunter/src/actions/load_map.rs:56-84 | a floor tile sets the floor, a walls tile appends a wall, a things tile sets the thing from its class; nothing else changes |
| LoadMapAction.ApplyLayer | examples/treasure_hunter/src/actions/load_map.rs:37-87 | a layer panics exactly as the code does; otherwise it adds cells exactly where it has tiles and changes each cell as its tile says |
| LoadMapAction.BuildOutcome | examples/treasure_hunter/src/actions/load_map.rs:37-87 | building panics exactly when some layer does; otherwise cells exist exactly where some tile layer has a tile, each the result of its layers in order |
| LoadMapAction.WallsInOrder | examples/treasure_hunter/src/actions/load_map.rs:60-62 | a cell's walls are the wall tiles of its layers, in layer order |
| LoadMapAction.UncoveredKeeps | examples/treasure_hunter/src/actions/load_map.rs:56-84 | floor and thing are kept where no layer of that class has a tile |
| LoadMapAction.LastFloorWins | examples/treasure_hunter/src/actions/load_map.rs:57-59 | the floor is the last floor layer's tile |
| LoadMapAction.LastThingWins | examples/treasure_hunter/src/actions/load_map.rs:63-82 | the thing is the last things layer's tile |
| LoadMapAction.SkipStep | examples/treasure_hunter/src/actions/load_map.rs:46-48 | a position without a tile leaves the partial layer as it is |
| LoadMapAction.PlaceStep | examples/treasure_hunter/src/actions/load_map.rs:50-84 | placing a tile extends the partial layer by one position |
| LoadMapAction.RowDone | examples/treasure_hunter/src/actions/load_map.rs:44-45 | a finished row moves on to the next |
| LoadMapAction.LayerDone | examples/treasure_hunter/src/actions/load_map.rs:44-86 | a finished layer is `ApplyLayer` |
| LoadMapAction.OtherLayerKeeps | examples/treasure_hunter/src/actions/load_map.rs:39-41 | a layer that is not a tile layer leaves the grid alone |
| LoadMapAction.PlaceTile | examples/treasure_hunter/src/actions/load_map.rs:56-84 | panics exactly as the tile class rules say, otherwise gives `Placed` |
| LoadMapAction.PlaceLayer | examples/treasure_hunter/src/actions/load_map.rs:42-86 | the nested loops give `ApplyLayer` |
| LoadMapAction.BuildGrid | examples/treasure_hunter/src/actions/load_map.rs:17-87 | the layer loop gives `BuildFrom` on the empty grid |
| LoadMapAction.Exec | examples/treasure_hunter/src/actions/load_map.rs:12-100 | a map not loaded changes nothing; a panic changes only `next_level`; otherwise the grid, next level, intro, flags, level and message are set, one fade-in is pushed and the level saved |
| LoadMapAction.StartLevel | examples/treasure_hunter/src/actions/load_map.rs:89-95 | sets the fields of a started level and nothing else |
| GameAction.ActionContext.constructor | examples/treasure_hunter/src/app.rs:129-134 | a context over the state with nothing pushed or saved |
| GameAction.ActionContext.PushAction | examples/treasure_hunter/src/app.rs:138-139 | appends one action |
| GameAction.ActionContext.SaveCurrentLevel | examples/treasure_hunter/src/actions/load_map.rs:99 | records one save of `current_level` |
| TreasureHunterApp.LevelName | examples/treasure_hunter/src/app.rs:63-116 | `lvl0` followed by the digit |
| TreasureHunterApp.LevelNamesDiffer | examples/treasure_hunter/src/app.rs:63-116 | different digits name different levels |
| TreasureHunterApp.LeastDigitIsLeast | examples/treasure_hunter/src/app.rs:63-116 | the digit chosen is the least digit pressed, none exactly when no digit is |
| TreasureHunterApp.CommandRules | examples/treasure_hunter/src/app.rs:39-121 | Space gives `MoveMonsters`, and only Space does; else the least pressed digit loads its level, and a level load comes only from a pressed digit; else S, W, D or A, the first pressed in that order, moves the player down, up, right or left, and a move comes only that way; nothing exactly when none of these keys is pressed |
| TreasureHunterApp.SoundsForAppend | examples/treasure_hunter/src/app.rs:143-150 | the sounds of two queues are those of each, in order |
| TreasureHunterApp.SoundsForCount | examples/treasure_hunter/src/app.rs:143-150 | at most one clip per name, exactly one when every name is a loaded sound |
| TreasureHunterApp.MapLoads | examples/treasure_hunter/src/app.rs:320-323 | the `i`-th map load is `lvl0i` |
| TreasureHunterApp.InitLoads | examples/treasure_hunter/src/app.rs:319-325 | `init` issues twelve loads |
| AssetStore.LoadEachCounts | examples/treasure_hunter/src/app.rs:319-325 | each load counts once on both counters, keeps the invariant and makes nothing visible |
| AssetStore.LoadEachSnoc | examples/treasure_hunter/src/app.rs:319-325 | one more load follows the others |
| AssetStore.LoadEachAppend | examples/treasure_hunter/src/app.rs:319-325 | a run of loads splits at any point |
| TreasureHunterApp.InitCounts | examples/treasure_hunter/src/app.rs:319-325 | `init`'s loads raise `total` and `pending` by twelve and keep the invariant |
| TreasureHunterApp.ChainInitLoads | examples/treasure_hunter/src/app.rs:319-325 | the atlas, map and sound loads together are `init`'s loads |
| AssetStore.Issue | examples/treasure_hunter/src/app.rs:319-325 | one more load on the store |
| AssetStore.LoadAll | ggsdk_internal/src/engine.rs:167-196 | a run of `load` calls on the store leaves it as `LoadEach` of the calls, invariant kept |
| TreasureHunterApp.TreasureHunter.constructor | examples/treasure_hunter/src/app.rs:12-18 | a new app is not initialized |
| TreasureHunterApp.TreasureHunter.Initialize | examples/treasure_hunter/src/app.rs:21-25 | initialized once nothing is pending, and never cleared |
| TreasureHunterApp.TreasureHunter.PushAction | examples/treasure_hunter/src/app.rs:124-126 | appends to the action stack and changes nothing else |
| TreasureHunterApp.TreasureHunter.ProcessGameInput | examples/treasure_hunter/src/app.rs:27-122 | Escape toggles the menu regardless; then, only if input is allowed after the toggle, the keys' command is pushed |
| TreasureHunterApp.TreasureHunter.ProcessActions | examples/treasure_hunter/src/app.rs:128-141 | with an empty stack nothing happens; otherwise the top action is popped, its effect on the rest of the state, what it pushed and what it saved are those its own `exec` promises (`Ran`), and what it pushed is appended in push order; `Lost` pushes its four actions; only a map load can panic |
| TreasureHunterApp.TreasureHunter.PushAll | examples/treasure_hunter/src/app.rs:137-140 | the pushed actions go on top of the stack in push order, nothing else changes |
| TreasureHunterApp.TreasureHunter.ExecAction | examples/treasure_hunter/src/app.rs:135-137 | runs the action's own `exec`: per action, the new state, the actions pushed, the values saved and a panic are those `Ran` states (each move's rule table, the monsters' turns, collecting, finishing, dying, loading a map, fading, showing a message), and the stack is left alone |
| TreasureHunterApp.TreasureHunter.PlaySounds | examples/treasure_hunter/src/app.rs:143-150 | the sound queue is emptied and the loaded sounds are played in order, unknown names skipped |
| TreasureHunterApp.TreasureHunter.Init | examples/treasure_hunter/src/app.rs:314-330 | the store receives `init`'s twelve loads; fade is 1, the menu shows, the level is the persisted one or empty |
| TreasureHunterApp.TreasureHunter.ShowTitle | examples/treasure_hunter/src/app.rs:326-329 | fade 1, menu shown, level from the persisted value |
| TreasureHunterApp.TreasureHunter.LoadMaps | examples/treasure_hunter/src/app.rs:320-323 | the loop issues the nine map loads in order |

## Left out

- Rendering and UI are not modelled: `draw_game`, the egui menu in `update_ui` and its Continue and New Game buttons, the fonts, the preinit prompt, `gpainter.rs`, `gatlas.rs` and the raw GL example.
- `update_ui` and `update` are not composed into one frame step. Their parts (`process_game_input`, `process_actions`, `play_sounds`, `initialize`) are modelled one by one.
- The format decoders for UTF-8, TMX and audio are parameters. The atlas image is kept as bytes and is not decoded.
- AssetStore.Decode: an atlas always decodes. In the source, `GGAtlas::new` unwraps the image decoder's result, so bytes that are not an image make `poll` panic. The model stores such an atlas as loaded.
- Rust's `TypeId` downcasts in `GAssets` are replaced by the four asset kinds. The failed-downcast returns cannot happen there.
- A `TiledMap` asset whose data is not a map is read as "not loaded" by `LoadMapAction.LoadedMap`. The registry of that kind only ever holds maps.
- Threads, futures, channels, `fs::read` and `fetch` are not modelled. What a worker or a receiver reports is a parameter of each poll.
- The iteration order of hash maps and grid chunks is left open.
  - `find_player` may return any player cell.
  - `find_monsters` may list the monsters in any order.
  - `GAssets::poll` and `WebLoader::poll` visit their entries in any order.
- The A* search is a parameter `Search`. It is given the blocking rule. Paths are not checked for adjacency.
- `persist::save` is recorded and `persist::load` is a parameter. File and local-storage I/O and JSON are not modelled.
- The audio manager is left out. Its `play` calls are returned as the clips played. Re-creating it on the first input is left out.
- The scripting engine and `last_update`/`Instant` timing are left out. `dt` is a parameter.
- Floating point: `fade`, `dt` and message lengths are reals. f32 rounding is not modelled.
- A `panic!` in `LoadMapAction::exec` is an outcome (`panicked`), not an abort. So is an `unwrap` of a missing width, height or tile. What happens to the process after it is not modelled.
- `CollectTreasureAction.ClearAllGrates` computes the cleared grid as a value and then assigns it. The source empties grate cells in place, chunk by chunk. The result is the same.
- `LoadMapAction.PlaceLayer` builds the new grid as a value and `BuildGrid` threads it through the layers. The source mutates one grid in place.
- `GameState.State` counters are unbounded. `think` (u32), `treasure_collected` (u32), `iterations` (u64), `total` and `pending` (usize) cannot overflow in the model.
- MoveMonstersAction.Thought: does not model the u32 wrap-around of `think`. The source would panic in debug builds, or wrap in release builds, after about 4 billion turns of one monster.
- MovePlayerAction.MoveFrom: does not model the u32 wrap-around of `treasure_collected`.
- Engine.GGEngine.Update: of what the app's `init` and `update` do through the store they are lent, only their `load` calls are modelled, as a parameter. A `poll` the app might call itself is not modelled.
- `AssetRegistry.TypedAssets` is the registry as a class on its own. `GAssets` holds each registry as the value it denotes. It updates that value with the same `LoadStep` and `PollStep` that specify `TypedAssets.Load` and `TypedAssets.Poll`. Registry objects shared or aliased inside the store are not modelled.
- The engine's `run`, `is_web`, `load_script` and `load_atlas` are not modelled. They are platform setup and empty stubs.
