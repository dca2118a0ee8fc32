# Space invaders board model

A Dafny model of the deterministic core of a small Space-Invaders clone
built on the Bevy engine. It covers four parts:

- **The board builder** (`create_board`, `spawn_player`, `spawn_covers` and
  `spawn_aliens` in the board plugin). It picks the board's origin from the
  placement option and spawns 66 sprites under the board's root entity: a
  background, the tank, a row of 4 covers and a 5 by 12 grid of aliens. It
  then stores the board's bounds as the board resource. The spawn functions
  are methods that append to a `ChildBuilder` class. `spawn_covers` and
  `spawn_aliens` keep their loops, and each is proved against the recursive
  functions `Covers` or `AlienRow` and `Aliens`; `spawn_player` appends one tank.
  Lemmas give each child's index, kind, translation and size, the row-major
  order of the aliens, and the fact that no two aliens share a position.
- **The mouse mapping** (`Board::mouse_position`). It moves a window point
  to world space and rejects points outside the board. Otherwise it returns
  the point relative to the board's corner. Lemmas prove the round trip
  both ways and the bound on the result.
- **The placement options** (`BoardPosition`, `BoardOptions` and their
  defaults). With the defaults, the 500 by 800 board is centred on the world
  origin.
- **The game state** (`AppState`, `state_handler`, `setup_board`). A
  `GameState` class holds the current state and the transition queued by
  `set`. Key C leaves the game and key G enters it. The engine applies the
  queued transition at its next state stage, and entering `InGame` runs
  `create_board`.

Modules: `Wrappers` (Option), `Vectors` (Vec2, Vec3), `Bounds` (Bounds2 and
rectangle tests), `BoardOptions`, `BoardResource` (Board and
`MousePosition`), `BoardPlugin` (the builder) and `App` (the game state).

## Model

| member | source | states |
|---|---|---|
| BoardResource.WindowToWorld | board_plugin/src/resources/board.rs:17-18 | the world point is the pointer moved by minus half the window, so the window centre is the world origin |
| BoardResource.MousePosition | board_plugin/src/resources/board.rs:15-30 | the result is None exactly when the world point (pointer minus half the window) fails the bounds test; a Some result is the world point minus the board's corner |
| BoardResource.MousePositionRoundTrip | board_plugin/src/resources/board.rs:17-29 | adding the board's corner and half the window to a returned coordinate gives back the pointer position |
| BoardResource.MousePositionReaches | board_plugin/src/resources/board.rs:17-29 | every board-local point whose world point passes the bounds test is returned for the window point that shows it |
| BoardResource.MousePositionWithinBoard | board_plugin/src/resources/board.rs:21-29 | for any test between the open and the closed rectangle, a returned coordinate lies between 0 and the board's size on both axes |
| BoardResource.MousePositionAtWindowCentre | board_plugin/src/resources/board.rs:15-30 | the centre of a 700x800 window maps to (250, 400) on the default-placed board |
| BoardResource.MousePositionAtWindowCorner | board_plugin/src/resources/board.rs:15-30 | the window's corner maps to None on the default-placed board |
| BoardPlugin.Origin | board_plugin/src/lib.rs:50-61 | a centred board has its centre at the offset, so the origin is (-w/2, -h/2, 0) plus the offset; a custom board's origin is the given position |
| BoardOptions.DefaultPosition | board_plugin/src/resources/board_options.rs:21-27 | the default position is centred with a zero offset |
| BoardOptions.DefaultOptions | board_plugin/src/resources/board_options.rs:29-35 | the default options hold the default position |
| BoardPlugin.Covers | board_plugin/src/lib.rs:120-135 | `spawn_covers` spawns one cover per value of `1..count+1`, and none when count is below 1 |
| BoardPlugin.CoverAt | board_plugin/src/lib.rs:121-133 | element k of the covers is cover k+1, sized width x height, at (start_x * (k+1), start_y) |
| BoardPlugin.AlienRow | board_plugin/src/lib.rs:139-152 | one pass of the inner loop spawns one alien per column of `1..count_per_row+1` |
| BoardPlugin.AlienRowAt | board_plugin/src/lib.rs:139-151 | element k of a row is the alien in column k+1 of that row, at (start_x + 34(k+1), start_y + 30 row) |
| BoardPlugin.AliensLength | board_plugin/src/lib.rs:138-139 | the nested loops spawn rows x count_per_row aliens |
| BoardPlugin.AlienAt | board_plugin/src/lib.rs:138-151 | alien (col, row), both from 1, is element (row-1)·count_per_row + (col-1), placed by the alien formula |
| BoardPlugin.AliensRowMajor | board_plugin/src/lib.rs:138-151 | every element is an alien with indices in range at its formula position, and the sequence is strictly row-major (row outer, column inner) |
| BoardPlugin.AlienTranslationsDistinct | board_plugin/src/lib.rs:148 | no two aliens share a translation, since the steps 34 and 30 are positive |
| BoardPlugin.BoardChildren | board_plugin/src/lib.rs:67-93 | the `with_children` closure spawns 66 children, the background first and the tank second; `BoardChildrenShape`, `CoverChild` and `AlienChild` give the rest |
| BoardPlugin.Layout | board_plugin/src/lib.rs:49-103 | the result of `create_board`: the origin is `Origin` of the option, the children are `BoardChildren` of the board size (the same for every option), the resource's bounds start at the origin's x and y and have the board's size, its entity is the root, and 66 children hang under it |
| BoardPlugin.BoardChildrenShape | board_plugin/src/lib.rs:67-92 | 66 children: child 0 is the only background, sized (w, h) at (w/2, h/2); child 1 is the only tank, 50x25 at (w/2, h/5); children 2-5 are the covers and 6-65 the aliens |
| BoardPlugin.CoverChild | board_plugin/src/lib.rs:82-85 | cover i (1 to 4) is child i+1, 50x25, at ((-25 + w/4)·i, h/4) |
| BoardPlugin.AlienChild | board_plugin/src/lib.rs:87-92 | alien (col, row) is child 6 + (row-1)·12 + (col-1), 25x25, at (-12.5 + w/12 + 34·col, h/3 + 30·row) |
| BoardPlugin.LayoutBounds | board_plugin/src/lib.rs:96-102 | the board resource's corner is the origin's x and y, its size is 500x800 and its entity is the board's root |
| BoardPlugin.DefaultOptionsLayout | board_plugin/src/resources/board_options.rs:21-35 | the default options (centred, zero offset) give the origin (-250, -400, 0) and the bounds ((-250, -400), (500, 800)) |
| BoardPlugin.ChildBuilder.Spawn | board_plugin/src/lib.rs:106 | a spawned child comes after those already spawned |
| BoardPlugin.Resources.InsertBoard | board_plugin/src/lib.rs:96-102 | inserting the board replaces any earlier board |
| BoardPlugin.SpawnPlayer | board_plugin/src/lib.rs:105-118 | appends exactly one tank of the given size at the given position |
| BoardPlugin.SpawnCovers | board_plugin/src/lib.rs:120-135 | appends exactly the covers `Covers` describes, in order, and nothing else |
| BoardPlugin.SpawnAliens | board_plugin/src/lib.rs:137-154 | appends exactly the aliens `Aliens` describes, row by row, and nothing else |
| BoardPlugin.SpawnBoardChildren | board_plugin/src/lib.rs:67-93 | appends the background, the tank, the covers and the aliens with the layout's arguments |
| BoardPlugin.CreateBoard | board_plugin/src/lib.rs:49-103 | returns the layout's origin and children and leaves the layout's board in the board resource |
| App.Requested | src/main.rs:49-64 | Out is asked for exactly when C goes down in this frame during the game; InGame exactly when G goes down in this frame out of it; any request names the other state |
| App.After | src/main.rs:49-64 | the state after one frame differs from the old one exactly when a transition was asked for, and is then the other state |
| App.BothKeysToggleOnce | src/main.rs:50-63 | with both keys going down in the same frame the state flips exactly once, because both guards read the state of the frame's start |
| App.IdleKeyIgnored | src/main.rs:50-63 | G in the game, C out of it and no key going down at all change nothing |
| App.GameState.constructor | src/main.rs:32 | the game starts Out with nothing queued |
| App.GameState.Set | src/main.rs:54 | `set` queues the target and leaves the current state until the engine applies it |
| App.GameState.HandleKeys | src/main.rs:49-64 | queues exactly the transition `Requested` gives and leaves the current state unchanged |
| App.GameState.SetupBoard | src/main.rs:66-81 | the startup system queues InGame |
| App.GameState.ApplyQueued | src/main.rs:32-37 | applies the queued transition; entering InGame builds the board and its children through `CreateBoard`; otherwise the board resource is untouched |
| App.GameState.Frame | src/main.rs:49-64 | after one frame the state is `After` of the old state and the keys that went down in it; the board is rebuilt exactly when the frame enters the game |
| App.StartUp | src/main.rs:30-37 | assuming the options and assets resources are present, after start-up the game is InGame with nothing queued and the board laid out from the options |

## Left out

- Coordinates are exact reals. The source computes in 32-bit floats, and their rounding is not modelled.
- The integer loop counters (`i32`) never overflow here, since the counts are 4, 5 and 12. The products `i * 34` and `row * 30` are unbounded integers.
- `Bounds2::in_bounds`: bounds.rs is not part of this model. `MousePosition` takes the containment test as a parameter. Lemmas that need its shape require only that it accepts the open rectangle and stays inside the closed one.
- Child names (`"Cover {i}"`, `"Alien ({i}, {row})"`) are modelled by the kind and its indices, not as strings.
- Sprite colours and textures (board_assets.rs) are left out. The kind selects which material the source uses.
- The engine's commands, components and entity allocation are left out. The root entity's id is a parameter.
- The engine's `State` resource is reduced to the current state and one queued transition. The refusals of `set` (target already current, a transition already queued) appear only as preconditions that make `unwrap` succeed; the panic itself is not modelled. `state_handler` is assumed to run when no transition is queued, after the state stage has applied earlier requests; main.rs:37 does not order it against that stage.
- App.GameState.ApplyQueued: only the `on_enter(InGame)` system is modelled. The plugin's `on_update` system (input.rs) only logs, and no exit system is registered.
- App.StartUp, App.GameState.ApplyQueued and App.GameState.Frame assume that the `BoardOptions` and `BoardAssets` resources are present when the game enters `InGame`, and take the options as a parameter. `create_board` reads both (board_plugin/src/lib.rs:49), but main.rs as written inserts neither (its `BoardAssets` insertion at main.rs:72-78 is commented out) and the plugin's `build` does not either, so in the source as written `create_board` cannot obtain its resources when the game enters `InGame`, and the board is not built.
- Window and camera setup, plugin registration and the debug inspector are engine configuration with no behaviour to prove.
- Logging, and the serde derives on the options, are left out.
