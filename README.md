# Tile-map shooter: simulation step and tile map

A Dafny model of the simulation core of a small browser game (`src/game.js`).
The game has a player that moves on an 800 by 480 pixel stage and fires
bullets, plus a 50 by 30 tile map. The model covers the part that does not
draw or handle browser events:

- the button table the step polls (`btn`);
- the tile map record with `range`, `TileMap`, `getTile` and `setTile`;
- the initial world (`init`);
- the per-frame step (`update`).

Files and modules:

- `input.dfy` (`Input`): the five buttons and the button table.
  A button with no entry in the table counts as released.
- `tilemap.dfy` (`TileMaps`): tiles, `Range`, and row-major cell positions
  with their lemmas (in-range, injective, onto).
  Class `TileMap` keeps a fixed tile array and writes it in place.
- `rules.dfy` (`Rules`): what one step does, written as functions on values.
  It covers turn-or-move, the axis reset, the Fire press-edge, the spawned
  bullet, culling and advancing bullets, and the order-preserving filter.
  `Step` is the whole step. The lemmas relate these functions.
- `world.dfy` (`Game`): class `Player`, whose fields the step updates in
  place, and class `World`, which holds the player, the bullet list and the
  map. `World.Init` is `init`. `World.Update` is `update`, and it is proved to
  compute exactly `Rules.Step`.
- `scenarios.dfy` (`Scenarios`): multi-step consequences. These include
  turn-then-move, Up and Down pressed together, Fire held over three steps,
  the inclusive stage bounds and the idle step.

Directions use the game's own sign convention, stated once in
`Rules.HeadingX`/`HeadingY`: North is -y, South +y, East -x, West +x.
Moving, the spawn offset and the bullet velocity all follow it.

Three behaviours of the code that are easy to misread:

- Turning does not reset the velocity. A player facing South who presses Up
  turns North and keeps its entry `dy`. `dy` is 0 only if it was 0 before
  (`Scenarios.TurnThenMove`).
- With Up and Down both pressed, Down always turns the player South: from
  North, Up first sets `dy` to `-speed`, and from any other facing `dy` is
  unchanged. Up and Down together never *set* `dy` to `speed`, though a
  player already moving down keeps that speed
  (`Scenarios.UpDownTogether`, `Scenarios.UpDownKeepsDownward`).
- A bullet marked dead is removed by the filter at the end of the same step,
  not on the next one (`Scenarios.LeftOfStage`).

## Model

| member | source | states |
|---|---|---|
| `Input.Btn` | src/game.js:35 | a button with no entry in the table is not pressed; otherwise it is pressed exactly when its entry is set |
| `TileMaps.Range` | src/game.js:39 | the result has the requested length (0 for a negative one), and every element is the default value |
| `TileMaps.IndexInGrid` | src/game.js:66-72 | every in-range cell (0 <= x < w, 0 <= y < h) has its row-major position `y*w + x` inside the `w*h` cells |
| `TileMaps.IndexInjective` | src/game.js:66-72 | two distinct in-range cells never share a position, so they never alias |
| `TileMaps.IndexOnto` | src/game.js:61-68 | every position of the `w*h` cells is the position of the in-range cell `(i % w, i / w)` |
| `TileMaps.TileMap.constructor` | src/game.js:61-64 | a map of the given width and height whose array holds `w*h` cells, all equal to the default tile (Floor when none is given) |
| `TileMaps.TileMap.GetTile` | src/game.js:66-68 | the result is the tile at position `y*w + x` when that position lies in the array and nothing otherwise; an in-range cell of a well-formed map always yields its tile |
| `TileMaps.TileMap.SetTile` | src/game.js:70-72 | writes exactly position `y*w + x`; reading (x, y) back gives the written tile; every other in-range cell reads as before; the array length is unchanged |
| `Rules.Press` | src/game.js:77-104 | one pressed direction button: the player ends facing that direction; if it was not facing it, only the facing changes; if it was, the velocity on that axis becomes `speed` times the direction's heading |
| `Rules.Steer` | src/game.js:77-104 | the four buttons applied in the order Up, Down, Left, Right: only facing and velocity change; the final facing is that of the last pressed button in that order; on each axis only the first pressed button in the order can move the player, and only if it already faced that way; otherwise the axis keeps its velocity |
| `Rules.Resolve` | src/game.js:77-106 | steering followed by the axis reset: an axis with neither button pressed ends with velocity 0; an axis with a pressed button keeps the steered velocity |
| `Rules.Spawn` | src/game.js:111-124 | the spawned bullet starts at the player's position offset by its width (or height) along its facing, moves at speed 10 along the facing, and is live |
| `Rules.FireStep` | src/game.js:108-126 | exactly one bullet is appended, on a press-edge (Fire pressed while not already firing), and none otherwise; `firing` ends equal to whether Fire is pressed |
| `Rules.Cull` | src/game.js:128-137 | a bullet is marked dead exactly when it already was or its position before moving is off stage (bounds inclusive); it always advances by its velocity |
| `Rules.CullAll` | src/game.js:128-137 | every bullet of the list, in place and order, is updated by `Cull`; the length is kept |
| `Rules.Live` | src/game.js:142 | the kept bullets are not dead, all come from the list, and there are no more of them than before |
| `Rules.Step` | src/game.js:74-143 | one step never changes `w`, `h` or `speed`; `firing` follows the Fire button; no bullet in the result is dead; the list grows by at most one, and only on a press-edge |
| `Rules.LiveConcat` | src/game.js:142 | filtering distributes over concatenation, so the kept bullets stay in their original relative order |
| `Rules.LiveMember` | src/game.js:142 | a bullet is kept exactly when it is in the list and not dead |
| `Rules.LiveIdentity` | src/game.js:142 | a list with no dead bullet is kept whole |
| `Rules.CullAllConcat` | src/game.js:128-137 | updating the bullets one by one distributes over concatenation |
| `Rules.StepBullets` | src/game.js:108-142 | the list after a step is the surviving old bullets in order, then the bullet spawned this step with the final facing, if it survives |
| `Rules.StepPlayer` | src/game.js:77-140 | the player after a step has the resolved facing and velocity, moved once by that final velocity, with `firing` following the button |
| `Game.Player.constructor` | src/game.js:42-52 | the player object holds exactly the given field values |
| `Game.Player.TurnOrMove` | src/game.js:77-104 | the in-place version of one direction block, equal to `Rules.Press` on the old state |
| `Game.Player.ApplyDirections` | src/game.js:77-106 | the four direction blocks and the axis reset in place, equal to `Rules.Resolve` on the old state |
| `Game.Player.HandleFire` | src/game.js:108-126 | the Fire block in place: the new player and the extended list are those of `Rules.FireStep` on the old state |
| `Game.AdvanceBullets` | src/game.js:128-137 | the bullet loop: its result is `Rules.CullAll` of its input |
| `Game.World.Init` | src/game.js:41-55 | the player is at (20, 20) at rest, with width and height 10, speed 1.8, facing North and not firing; there are no bullets; the map is 50 by 30 cells, all Floor |
| `Game.World.Update` | src/game.js:74-143 | the new player and bullet list are exactly `Rules.Step` of the old ones; afterwards no bullet in the list is dead; the tile map is not touched |
| `Scenarios.UpDownTogether` | src/game.js:77-106 | Up and Down together: the player ends facing South, with `dy = -speed` if it faced North and the entry `dy` otherwise |
| `Scenarios.UpLeftFromSouth` | src/game.js:77-106 | Up and Left together from South: the player ends facing East and keeps its entry velocity |
| `Scenarios.TurnThenMove` | src/game.js:77-106 | holding only Up from South: the first step turns North and keeps `dy`; the second moves up by `speed` |
| `Scenarios.HoldFire` | src/game.js:108-126 | Fire held for three steps from a released state is a press-edge on the first step only |
| `Scenarios.ReleaseThenFire` | src/game.js:108-126 | after a step with Fire released, pressing Fire again is a press-edge |
| `Scenarios.UpDownKeepsDownward` | src/game.js:77-106 | a player facing South that pressed only Down keeps `dy = speed` when it then presses Up and Down together |
| `Scenarios.FireAppendsOne` | src/game.js:108-142 | on a press-edge with every bullet on stage, the list grows by exactly one |
| `Scenarios.LeftOfStage` | src/game.js:128-142 | a bullet left of the stage is marked dead, still advances once, and is filtered out |
| `Scenarios.EdgesStayLive` | src/game.js:128-142 | a live bullet anywhere on the stage, edges and corners included, is kept: the bounds are inclusive |
| `Scenarios.IdleStep` | src/game.js:74-143 | with no button pressed and no bullets, a step stops the player in place and clears `firing`; repeating it changes nothing |

## Left out

- Rendering (`clr`, `drawMap`, `drawPlayer`, `drawPlayerBullets`, `render`) and the canvas sizing. They only paint through the browser's canvas API.
- The frame loop (`loop`, `requestAnimationFrame`). It only schedules calls. The `dt` argument of `update` is never used, so the model's step has no time parameter.
- The keyboard listeners. They only set table entries. The model takes the button table as the step's input.
- `console.log('Pew!')`. It is output with no effect on state.
- Floating-point behaviour. Positions, velocities and the speed 1.8 are exact reals, so rounding in the sums is not modelled.
- The module-level `state` singleton. The world is an explicit `World` object.
- Tile colours. They are display attributes only, so a tile is just `Floor` or `Wall`.
- The default `def = 0` of `range`: `TileMaps.Range` always takes its element, since the only caller, `TileMap`, always passes one.
- Button names. The table is keyed by a closed `Button` type, not by strings, and its 0/1 entries are booleans. Any name outside the five therefore has no counterpart.
- TileMaps.TileMap.SetTile: requires the position `y*w + x` to lie inside the array. Out of range, the JavaScript assignment would grow the array or add a property, which the model's fixed array cannot express.
- TileMaps.TileMap.GetTile: returns `None` where JavaScript returns `undefined`. Coordinates and map sizes are integers; fractional JavaScript numbers are not modelled.
- Object identity of bullets. Bullets are values in a sequence, not shared objects. Nothing else holds a bullet, so no aliasing is lost. The step builds the new list in a local sequence and then stores it, where `update` pushes into the stored array before replacing it.
