# Hungry Homer — a verified model of the level simulation

Hungry Homer is a tile-grid arcade game. Homer walks a 32×24 grid of 20-pixel
cells, eats every piece of food, picks up the key that opens the gate, may
ring a bell for a few seconds of invincibility, and wins by entering the gate.
Two kinds of watcher patrol the level. A circular watcher keeps a wall on one
side. A linear watcher bounces between walls. A second bump from a watcher
makes Homer fall, fade out and restart the level.

This project models the per-level simulation in Dafny:

- the moving-object step and the `collides` / `overlaps` tests (`Entities`);
- Homer's update and collision rules (`Player`);
- the two watcher patrols (`Watchers`);
- the food, key and bell flags and the gate (`Items`);
- the passability rule `is_forbidden` and the direction table (`Grid`);
- the decoding of a level map into objects (`Setup`);
- one frame of `Level.update` as a pure function of the level's objects (`Frames`);
- the level itself as a class proved against that function (`Levels`);
- the clock's scheduled calls (`Clock`);
- the level menu's selection (`Menus`);
- the normalisation of a map file's lines into a padded 32×24 grid (`Maps`).

Objects whose fields the game updates in place are classes: `Mover`,
`Homer`, `Watcher`, `Collectible`, `Gate`, `Level`, `Menu` and `MenuItem`.
Each has a `State()` view as a datatype, and each method is proved equal to
a pure function of the old view (`Homer.Update` against `Updated`,
`Level.Update` against `Frame`). The properties are proved about those
functions.

Python's subclassing of `MovingObject` is modelled by composition: a Homer
and a watcher each own a `Mover` body. The two watcher classes are one
`Watcher` class with a `Patrol` tag (`Circular(side)` or `Linear`). Food,
key and bell are one `Collectible` class with a kind. The bell has the
`exists` flag of every object, so the removal pass treats it like the other
collectibles. Homer's `isinstance` dispatch becomes an `Other` value that the
level builds for each object it tests against.

The pyglet clock is modelled as deadlines counted in frames of 1/120 s:

- `Homer.invincibleUntil` for `end_invincibility`;
- `Collectible.stopRingingAt` for `stop_ringing`;
- `Level.completions` for `Level.complete`.

`Level.Tick` advances the frame counter and fires every call that is due.
Unscheduling the pending `end_invincibility` when the bell rings is an
overwrite of Homer's deadline.

Python's `%` and `//` with the positive cell size agree with Dafny's
Euclidean `%` and `/`, so positions below zero (a falling Homer) need no
special case. Integers are unbounded in both languages.

The Level class follows the code where it differs from the game's own
design notes. Pausing stops `Level.update` but not the game clock, so the
scheduled calls still fire while the game is paused.

## Model

| member | source | states |
|---|---|---|
| Grid.OppositeDirections | hungry_homer/game.py:18-24 | for each direction 0..3, the entry two steps on is its negation, and entry 4 (stay) is (0, 0) |
| Grid.IsForbidden | hungry_homer/states.py:221-235 | a move whose target cell lies outside the window is forbidden; inside, it is forbidden iff the target holds a brick `X`, padding `.`, or a gate `/` while the key is not held |
| Grid.OutsideIsForbidden | hungry_homer/states.py:221-234 | a move whose target cell is outside the 32×24 window is always forbidden |
| Grid.KeyNeverStricter | hungry_homer/states.py:221-235 | holding the key never forbids a move that is allowed without it; the two answers differ exactly when the target is a gate cell `/` inside the window |
| Grid.StayChecksOwnCell | hungry_homer/states.py:221-235 | with the default direction 4 the rule tests the object's own cell: forbidden iff that cell is outside the window or holds a blocking symbol |
| Entities.CollidesSymmetric | hungry_homer/objects.py:60-68 | `collides` is symmetric |
| Entities.CollidesCornerInclusive | hungry_homer/objects.py:60-68 | objects one cell apart in both axes (corners touching) collide; one pixel further apart they do not |
| Entities.OverlapsImpliesCollides | hungry_homer/objects.py:60-75 | `overlaps` is symmetric and implies `collides` |
| Entities.SpawnedAligned | hungry_homer/objects.py:38-50 | a new object sits on its cell: `in_place` holds and the pixel position is the cell times 20 |
| Entities.Collides | hungry_homer/objects.py:60-68 | two objects collide iff each coordinate of the other lies within one cell (20 pixels) of its own, bounds included |
| Entities.Overlaps | hungry_homer/objects.py:70-75 | two objects overlap iff they stand at the same pixel position, and overlapping objects collide |
| Entities.MovedKeepsAligned | hungry_homer/objects.py:120-141 | one step adds direction × speed to x and y; `in_place` is true iff both coordinates are multiples of 20; `map_position` changes only when in place and is then (x // 20, y // 20); the image turns to the direction when it is below 4 and stays otherwise; direction and speed are kept |
| Entities.RunDistance | hungry_homer/objects.py:120-130 | k steps in a fixed direction move the object by k × direction × speed |
| Entities.StraightRun | hungry_homer/objects.py:120-136 | starting on a cell with a speed dividing 20, the object is between cells for 20/speed − 1 steps and lands on the neighbouring cell in its direction at step 20/speed |
| Entities.Mover.constructor | hungry_homer/objects.py:112-118 | a moving object starts on its cell, facing up, with direction 4 or its given direction and speed 2 |
| Entities.Mover.Update | hungry_homer/objects.py:120-141 | the new state is the one-step function `Moved` of the old state |
| Player.FirstHeld | hungry_homer/objects.py:183-192 | the result is the first held key in the order Up, Right, Down, Left, or 4 when none is held |
| Player.ChosenDirection | hungry_homer/objects.py:183-214 | the direction is one of 0..4; in place it is the first held key or 4, and never a forbidden move unless 4; between cells it changes only to a held key below 4 that reverses the current direction |
| Player.Updated | hungry_homer/objects.py:159-217 | only the motion and opacity change; a won or lost Homer keeps its direction; a winner drifts at speed 1, a lost Homer keeps its falling speed, any other keeps its speed |
| Player.Collided | hungry_homer/objects.py:219-270 | the position is kept; the food count rises by one iff Homer covers a food item; `has_key`, `won` and `lost` are never cleared; `won` changes exactly when the completion is scheduled, and `has_key` exactly when Homer takes the key |
| Player.DirectionRule | hungry_homer/objects.py:194-214 | in place, the wanted direction is taken unless the move is forbidden, which gives 4; between cells only a reversal (a direction below 4 at distance 2) is taken; an adopted direction while in place is never forbidden |
| Player.StayToDownQuirk | hungry_homer/objects.py:205-214 | between cells with direction 4, holding Down is adopted because abs(4 − 2) == 2, while holding Left is not |
| Player.InputIgnoredWhenOver | hungry_homer/objects.py:177-181 | once Homer has won or lost, the held keys make no difference; a winner drifts on at speed 1 in its direction |
| Player.OpacityRule | hungry_homer/objects.py:162-175 | a lost Homer loses exactly 5 opacity per frame while above 0 and stays at 0 once faded; otherwise the opacity becomes 100 iff Homer is invincible and was at 255, and 255 in every other case |
| Player.UpdatePreservesOk | hungry_homer/objects.py:159-217 | an update keeps Homer's invariant: bump count 0 or 1, lost only after a bump, opacity a multiple of 5 in 0..255, a pending end of invincibility only while invincible |
| Player.Updates | hungry_homer/objects.py:159-217 | any number of frames keeps that invariant |
| Player.FadeOut | hungry_homer/objects.py:162-168 | after k ≤ opacity/5 frames a lost Homer is still lost with opacity reduced by 5k, and it asks for the restart exactly when k = opacity/5 |
| Player.BumpRule | hungry_homer/objects.py:222-238 | a watcher touching a Homer that is not invincible: from bump count 0 it becomes 1, Homer turns invincible and its end is due in one second; from 1 Homer is lost and falls down at speed 4; otherwise neither the counter, the lost flag nor the motion change |
| Player.PickupRule | hungry_homer/objects.py:240-270 | on full overlap, food adds one to the count, the key sets `has_key`, the gate wins only when the food count equals the level's total and Homer has not won yet, and an unrung bell makes Homer invincible for three seconds from now; without overlap nothing changes |
| Player.WinsOnce | hungry_homer/objects.py:247-259 | once entering the gate has scheduled the completion, no later collision schedules it again |
| Player.CollisionPreservesOk | hungry_homer/objects.py:219-270 | every collision keeps Homer's invariant |
| Player.Homer.constructor | hungry_homer/objects.py:147-157 | a new Homer stands still on its cell, opaque, with no food, no key, no bump and no flag set |
| Player.Homer.Update | hungry_homer/objects.py:159-217 | the new state is `Updated` of the old one, and the restart is requested exactly when Homer is lost and fully faded |
| Player.Homer.HandleCollision | hungry_homer/objects.py:219-270 | the new state is `Collided` of the old one; the completion is scheduled exactly when Homer wins at the gate; the gate opens exactly when Homer takes the key |
| Player.Homer.EndInvincibility | hungry_homer/objects.py:272-274 | Homer is no longer invincible and no end is pending |
| Watchers.CircularHeading | hungry_homer/objects.py:296-314 | a circular watcher's new direction is always one of 0..3 |
| Watchers.LinearHeading | hungry_homer/objects.py:332-344 | a linear watcher's new direction is always one of 0..3 |
| Watchers.CircularHeadingRule | hungry_homer/objects.py:296-314 | on a cell, the watcher turns to (d + side) % 4 when that is open, else keeps d if open, else rotates by −side up to three times, stopping at the first open direction or after the third rotation |
| Watchers.CircularBlockedOnlyIfEnclosed | hungry_homer/objects.py:303-314 | the chosen direction is blocked iff all four neighbouring cells are forbidden, and then the loop's `i <= 2` guard leaves it at (d + side) % 4 |
| Watchers.FirstAllowed | hungry_homer/objects.py:296-314 | the turn-or-rotate rule picks a blocked direction only when all four are blocked |
| Watchers.ThreeTurns | hungry_homer/objects.py:306-314 | the rotation loop tries d, then d − side, d − 2·side and stops at d − 3·side |
| Watchers.TurnsCover | hungry_homer/objects.py:306-314 | the three rotations visit all four directions, the last being (d + side) % 4 |
| Watchers.LinearHeadingRule | hungry_homer/objects.py:332-340 | between cells the direction is kept; on a cell it reverses exactly when the cell ahead is forbidden; it ends up blocked only if both ways are blocked |
| Watchers.TurnedAroundInvolution | hungry_homer/objects.py:342-344 | turning around twice restores the direction, and the turned direction is the opposite step |
| Watchers.CollidedTwice | hungry_homer/objects.py:317-350 | a watcher collision reverses the direction (and negates a circular watcher's side), so two collisions with the same watcher restore the state |
| Watchers.WatcherUpdatedOk | hungry_homer/objects.py:290-340 | an update keeps the direction in 0..3 and the patrol, and between cells it only moves |
| Watchers.WatcherUpdated | hungry_homer/objects.py:290-340 | the patrol and speed are kept, the new direction is in 0..3, and between cells the watcher only takes a step |
| Watchers.Watcher.constructor | hungry_homer/objects.py:284-330 | a new watcher sits on its cell with the decoded direction and patrol |
| Watchers.Watcher.Update | hungry_homer/objects.py:290-340 | the new state is `WatcherUpdated` of the old one |
| Watchers.Watcher.KeepWall | hungry_homer/objects.py:296-314 | on a cell, the direction becomes `CircularHeading` and nothing else changes |
| Watchers.Watcher.TurnAround | hungry_homer/objects.py:342-344 | the direction becomes (d + 2) % 4 and nothing else changes |
| Watchers.Watcher.HandleCollision | hungry_homer/objects.py:317-350 | the new state is `WatcherCollided` with the other watcher's position |
| Items.TouchedFlags | hungry_homer/objects.py:356-400 | touching keeps kind and position; food and key disappear exactly when Homer covers them; a bell never disappears; `rung` only goes from false to true, exactly when Homer covers an unrung bell |
| Items.Touched | hungry_homer/objects.py:356-400 | kind and position are kept; without overlap nothing changes; an item stays present iff it was and is a bell or not covered; `rung` holds iff it did or Homer covers a bell |
| Items.BellRingsOnce | hungry_homer/objects.py:389-400 | once a bell has rung, later touches leave it as it is |
| Items.GateOpenedIdempotent | hungry_homer/objects.py:98-105 | the gate is open iff it was open or Homer has the key; opening twice is opening once; an open gate stays open |
| Items.GateOpened | hungry_homer/objects.py:98-105 | the gate is open iff it was open or Homer holds the key; its position is kept |
| Items.Collectible.constructor | hungry_homer/objects.py:38-50 | a new collectible sits on its cell, present, unrung, not ringing, with nothing pending |
| Items.Collectible.HandleCollision | hungry_homer/objects.py:356-400 | the new state is `Touched` of the old one at Homer's position |
| Items.Collectible.StopRinging | hungry_homer/objects.py:402-404 | the bell stops ringing, stays rung, and no stop is pending |
| Items.Gate.constructor | hungry_homer/objects.py:92-96 | a new gate sits on its cell, closed |
| Items.Gate.Open | hungry_homer/objects.py:98-105 | the new state is `GateOpened` of the old one |
| Setup.IndexOf | hungry_homer/states.py:203-211 | the index returned is the first occurrence of the symbol |
| Setup.DecodeWatcherSymbol | hungry_homer/states.py:202-211 | every direction and patrol has a watcher symbol, and decoding it gives them back |
| Setup.EncodeDecodedWatcher | hungry_homer/states.py:202-211 | each of `urdlURDL^>v<` decodes to a direction in 0..3 (index mod 4), side +1 for lower case and −1 for upper case, and encodes back to itself |
| Setup.AddedGroups | hungry_homer/states.py:153-214 | one cell adds a Homer for `H`, a gate for `/` and a brick for `X` at map position (j, i), and nothing else to those groups |
| Setup.AddedItems | hungry_homer/states.py:174-193 | one cell adds a collectible for `*`, `_` and `b` (the bell too), a watcher for a watcher symbol, and one to the food total exactly for `*` |
| Setup.PopulatedHomers | hungry_homer/states.py:153-214 | the Homers are the `H` cells in scanning order |
| Setup.PopulatedGates | hungry_homer/states.py:153-214 | the gates are the `/` cells in scanning order |
| Setup.PopulatedBricks | hungry_homer/states.py:153-214 | the bricks are the `X` cells in scanning order |
| Setup.PopulatedWatchers | hungry_homer/states.py:153-214 | the watchers are the watcher-symbol cells in scanning order, each with its decoded direction and patrol |
| Setup.PopulatedCollectibles | hungry_homer/states.py:153-214 | the collectibles are the `*`, `_` and `b` cells in scanning order, each of its kind |
| Setup.PopulatedFood | hungry_homer/states.py:153-214 | the food total equals the number of `*` cells and the number of food collectibles |
| Setup.Populate | hungry_homer/states.py:136-214 | a playable map yields at least one Homer and one gate, a food total equal to the `*` cells of the map, and every collectible present and unrung |
| Setup.RowAddedPopulated | hungry_homer/states.py:154-214 | scanning a row cell by cell gives the objects of those placements |
| Setup.RowsAddedPopulated | hungry_homer/states.py:153-214 | scanning the first n rows gives the objects of their placements |
| Setup.RowsAddedPopulate | hungry_homer/states.py:153-214 | scanning all rows gives `Populate` of the map |
| Frames.TouchItemsStep | hungry_homer/states.py:260-264 | the collectible pass over one more collectible is the pass so far followed by Homer then that collectible |
| Frames.Collide | hungry_homer/states.py:256-283 | the collision pass keeps the number of Homers, gates and watchers, the bricks and the food total; it never adds collectibles; it schedules the completion only when Homer has won |
| Frames.Frame | hungry_homer/states.py:244-283 | a frame leaves at least one Homer and one gate and only present collectibles; without a restart it keeps the bricks, the food total and the watchers' number; after a restart the food total is the map's `*` count again; the completion is scheduled only when Homer has won |
| Frames.PreparedReady | hungry_homer/states.py:250-253 | moving every object, or setting the level up again, leaves a level ready for the collision pass |
| Frames.PrunedFilter | hungry_homer/states.py:274-283 | the kept collectibles are exactly those still present, never more than before, and all of them when none was taken |
| Frames.PrunedAppend | hungry_homer/states.py:274-283 | the removal keeps the original order: pruning a concatenation is the concatenation of the pruned parts |
| Frames.BumpedOnce | hungry_homer/states.py:257-259 | the watcher pass bumps Homer at most once a frame: exactly when some watcher touches it and it was not invincible |
| Frames.TouchItemsKeepsHomer | hungry_homer/states.py:260-264 | the collectible pass keeps Homer's invariant, position and `won` flag |
| Frames.TouchItemsFood | hungry_homer/states.py:260-283 | food eaten by Homer plus food left after removal is unchanged by the collectible pass |
| Frames.TouchOneFood | hungry_homer/states.py:261-264 | the same for one collectible |
| Frames.BumpParity | hungry_homer/states.py:268-272 | over the ordered pairs, a watcher is reversed (and its side flipped) iff an odd number of other watchers touch it |
| Frames.LoneWatcher | hungry_homer/states.py:268-272 | a watcher is never tested against itself: a lone watcher is unchanged |
| Frames.WatchersCollidedOk | hungry_homer/states.py:268-272 | the watcher pass keeps directions in 0..3 and changes nothing but the direction and side |
| Frames.PopulateBalanced | hungry_homer/states.py:136-214 | a fresh level is ready and balanced: all collectibles present and Homer's food count plus the food items equals the total |
| Frames.FramePreservesFood | hungry_homer/states.py:244-283 | a frame keeps the level ready and balanced, so food removed in one frame is never counted again |
| Frames.CollideKeepsBalance | hungry_homer/states.py:257-283 | the collision pass keeps the level ready and balanced |
| Frames.WinNeedsAllFood | hungry_homer/states.py:244-283 | a frame schedules the completion only when Homer has won and no food is left |
| Frames.MoveAllReady | hungry_homer/states.py:250-253 | the update loop keeps every Homer and watcher well formed |
| Frames.CollideWin | hungry_homer/states.py:257-266 | the collision pass schedules the completion only when Homer has won with no food left |
| Clock.HomerTicked | hungry_homer/objects.py:272-274 | a due end of invincibility clears invincibility and its deadline; without one Homer is unchanged; motion, counters and `won` never change |
| Clock.Ticked | hungry_homer/objects.py:272-274 | a tick keeps watchers, gates, bricks, food total and every group's size; each Homer keeps its motion and food count, each collectible its kind and presence; afterwards no end of invincibility and no stop of ringing is due |
| Clock.ItemTicked | hungry_homer/objects.py:402-404 | a due stop of ringing ends the ringing and its deadline; kind, presence, `rung` and position never change |
| Clock.PendingSplit | hungry_homer/states.py:216-219 | at a tick every scheduled completion either fires or stays pending, and the pending ones are exactly those of a later frame |
| Clock.DueCountAll | hungry_homer/states.py:216-219 | when every completion is due, all of them fire and none stays pending |
| Clock.TickedKeepsLevel | hungry_homer/objects.py:272-274 | a tick keeps the level ready and balanced, moves nothing, and leaves no call due |
| Clock.TickedSettles | hungry_homer/objects.py:272-274 | a second tick at the same frame fires nothing |
| Levels.Scheduled | hungry_homer/objects.py:257-259 | the completion joins the pending calls, one second later, exactly when Homer wins at the gate |
| Levels.Level.constructor | hungry_homer/states.py:108-134 | a new level holds `Populate` of its map, is ready and balanced, not paused, with no completion pending |
| Levels.Level.Update | hungry_homer/states.py:244-283 | a paused level changes nothing; otherwise the objects become `Frame` of the old ones and the completion it schedules is appended; the level stays valid |
| Levels.Level.Run | hungry_homer/states.py:250-283 | one frame of a running level and the completion it schedules |
| Levels.Level.ScheduleCompletion | hungry_homer/objects.py:257-259 | a completion due one second from now is appended and nothing else changes |
| Levels.Level.OnKeyPress | hungry_homer/states.py:237-242 | P toggles the pause, so two presses restore it; Escape asks to leave for the menu; other keys do nothing |
| Levels.Level.Complete | hungry_homer/states.py:216-219 | the menu selects the next item, or stays on the last one |
| Levels.Level.Tick | hungry_homer/objects.py:272-274 | the frame counter advances by one; due ends of invincibility and of ringing run; due completions each move the menu down one item and the others stay pending |
| Levels.Level.FireDueCalls | hungry_homer/objects.py:272-274 | the calls due at the current frame, first on the objects, then the completions |
| Levels.Level.TickObjects | hungry_homer/objects.py:402-404 | the objects become `Ticked` of the old ones, and the menu is untouched |
| Levels.Level.TickHomers | hungry_homer/objects.py:272-274 | each Homer whose end of invincibility is due runs it; the other groups keep their states |
| Levels.Level.TickItems | hungry_homer/objects.py:402-404 | each bell whose stop of ringing is due runs it; the other groups keep their states |
| Levels.Level.FireCompletions | hungry_homer/states.py:216-219 | the due completions run on the menu, the later ones stay pending, and the objects are untouched |
| Levels.Level.FireDue | hungry_homer/states.py:216-219 | each due completion, in scheduling order, selects the next menu item; the rest are returned in order |
| Levels.Level.Step | hungry_homer/states.py:249-283 | the objects become `Frame` of the old ones and the level stays valid |
| Levels.Level.MoveOrRestart | hungry_homer/states.py:250-253 | the objects become `Prepared`: set up again from the map if a Homer asked for it, otherwise all moved |
| Levels.Level.MoveObjects | hungry_homer/states.py:250-253 | every Homer, then every watcher, moves one step; the restart request is raised iff some Homer asked for it |
| Levels.Level.SetupObjects | hungry_homer/states.py:136-214 | the groups become exactly `Populate` of the map, with fresh objects |
| Levels.Level.Clear | hungry_homer/states.py:139-147 | every group is empty and the food total is 0 |
| Levels.Level.SetupRow | hungry_homer/states.py:154-214 | the objects of one row join their groups in scanning order |
| Levels.Level.AddCell | hungry_homer/states.py:154-214 | the objects of one more cell join their groups |
| Levels.Level.AddObject | hungry_homer/states.py:155-214 | the object of one cell joins its group, as `Added` says |
| Levels.Level.AddHomer | hungry_homer/states.py:181-183 | a new Homer on the cell is appended |
| Levels.Level.AddWatcher | hungry_homer/states.py:168-173 | a new watcher with the decoded direction and patrol is appended |
| Levels.Level.AddBrick | hungry_homer/states.py:174-176 | the cell is appended to the bricks |
| Levels.Level.AddGate | hungry_homer/states.py:187-189 | a new gate on the cell is appended |
| Levels.Level.AddCollectible | hungry_homer/states.py:177-193 | a new collectible of the cell's kind is appended, and food adds one to the total |
| Levels.Level.MoveHomers | hungry_homer/states.py:250-253 | every Homer takes one update and the restart request is raised iff one of them asked for it |
| Levels.Level.MoveHomer | hungry_homer/states.py:250-253 | one Homer takes one update; the others keep their states |
| Levels.Level.MoveWatchers | hungry_homer/states.py:250-253 | every watcher takes one update |
| Levels.Level.HitHomer | hungry_homer/states.py:257-259 | the first Homer is tested against every watcher in order |
| Levels.Level.TouchCollectibles | hungry_homer/states.py:260-264 | for each collectible in order, Homer is tested against it and then it against Homer |
| Levels.Level.TouchNext | hungry_homer/states.py:260-264 | one more collectible of that loop |
| Levels.Level.TouchCollectible | hungry_homer/states.py:261-264 | one collectible of that loop; the others keep their states |
| Levels.Level.EnterGate | hungry_homer/states.py:265-266 | Homer is tested against the first gate, scheduling the completion when Homer wins |
| Levels.Level.HomerCollisions | hungry_homer/states.py:257-266 | Homer against the watchers, the collectibles and the gate, with the other objects unchanged |
| Levels.Level.HomerPassSteps | hungry_homer/states.py:257-266 | the same three steps as `HomerPass` |
| Levels.Level.CollectAndEnterGate | hungry_homer/states.py:260-266 | the collectible loop followed by the gate |
| Levels.Level.HandleCollisions | hungry_homer/states.py:256-283 | the objects become `Collide` of the old ones and the completion flag is the one it reports |
| Levels.Level.CollideAndPrune | hungry_homer/states.py:268-283 | the watcher pass, then the removal of taken collectibles |
| Levels.Level.CollideWatchers | hungry_homer/states.py:268-272 | every ordered pair of distinct watchers is tested, first against second |
| Levels.Level.CollideWatcher | hungry_homer/states.py:268-272 | one watcher against every other one |
| Levels.Level.BumpWatcher | hungry_homer/states.py:270-272 | one ordered pair of watchers |
| Levels.Level.RemoveTaken | hungry_homer/states.py:274-283 | the collectibles become exactly the old ones still present, in their order |
| Maps.RStrip | hungry_homer/game.py:78 | the result is a prefix without trailing white space, as Python's `str.isspace` defines it (Latin-1 and the other Unicode spaces), and only white space was removed |
| Maps.Widest | hungry_homer/game.py:84 | the result is the length of a longest row, and 0 for no rows |
| Maps.Rows | hungry_homer/game.py:78-80 | row k is the stripped line k from the end of the file |
| Maps.ReadMap | hungry_homer/game.py:78-104 | an empty file is an error; a map taller than 24 rows or wider than 32 cells is rejected with its size; otherwise the result is the reversed rows placed in the padded 32×24 grid |
| Maps.Reverse | hungry_homer/game.py:80 | the rows are reversed in place |
| Maps.WidestOf | hungry_homer/game.py:84 | the loop returns `Widest` of the rows |
| Maps.Pad | hungry_homer/game.py:91-104 | the padded grid has 24 rows of 32 cells, row k starts at the padding row count + k and the padding column count, and every other cell is `.` |
| Maps.PlacedRows | hungry_homer/game.py:91-104 | in a placed grid, cell j of row k sits at the padding row count + k and the padding column count + j |
| Maps.PaddingIsImpassable | hungry_homer/game.py:91-104 | every padding cell is forbidden for every object, key or not |
| Maps.RowsCentred | hungry_homer/game.py:91-104 | the rows are centred: there are as many padding rows below as above, or one fewer |
| Menus.LabelShowsCaption | hungry_homer/states.py:34-39 | a selected item shows `> caption <`, any other its caption, and the two differ |
| Menus.DecimalRoundTrip | hungry_homer/states.py:69 | the decimal text of a level number reads back as that number |
| Menus.CaptionsDiffer | hungry_homer/states.py:64-75 | distinct levels get distinct captions `Level n` |
| Menus.SelectStaysOnMenu | hungry_homer/states.py:88-97 | the selection stays on the menu, and a move that happened is undone by the opposite one |
| Menus.SelectedDownStops | hungry_homer/states.py:216-219 | k completed levels move the selection down k items, stopping at the last |
| Menus.MenuItem.constructor | hungry_homer/states.py:26-32 | a new item holds its caption and selection flag and shows its caption |
| Menus.MenuItem.Update | hungry_homer/states.py:34-39 | the item shows its label and keeps its flag |
| Menus.Menu.constructor | hungry_homer/states.py:56-76 | one item per level, captioned `Level n`, exactly the first one selected |
| Menus.Menu.Select | hungry_homer/states.py:88-97 | the index moves only when the new one is on the menu, and exactly the item at the index is selected |
| Menus.Menu.Update | hungry_homer/states.py:99-102 | every item shows its label |

## Left out

- Sprites, images, animations, batches, ordered groups and fonts. The bell's ring animation is the `ringing` flag; an image is kept only as the orientation index.
- The window, the draw and event loop and the 1/120 s update interval. A frame is one call of `Level.Update`, and the clock is the frame counter `now`.
- The pyglet clock's float seconds: delays are whole frames (1.0 s = 120 frames). Due calls of one tick fire objects first, then completions, instead of in time order; they touch disjoint state.
- Assigning `game.state`: `Level.complete` and Escape switch the game to the menu. `Complete` models only the menu selection. `OnKeyPress` returns a `leave` flag for Escape.
- `Menu.on_key_press`, `MenuItem.action` and the positions and fonts of the menu items: they are input and layout, not simulation.
- Finding the map files and reading them: `Maps.ReadMap` takes the lines of one file. Python's `max` over an empty file raises `ValueError`; the model returns `Err(EmptyMap)`.
- `Levels.Level.constructor`: requires a playable map, meaning a 32×24 grid of recognised symbols with at least one `H` and one `/`. For other maps the source fails. An unknown symbol raises an exception in `setup_objects`: `UnboundLocalError`, `TypeError` or `KeyError`, depending on the symbol scanned before it. A missing Homer or gate gives an `IndexError` in `update`.
- Levels.Level.MoveOrRestart: when Homer asks for a restart in the middle of the update loop, the source swaps in new objects at once. It goes on updating the old ones, which are then discarded. The model moves every old object, then sets the level up again. The observable state is the same.
- Levels.Level.Tick: calls scheduled on objects discarded by a restart are dropped. In the source they still fire, but on objects nobody sees.
- Levels.Level.Tick: the game keeps ticking while paused; the model follows that.
- Player.Homer.HandleCollision: takes the gate as a parameter instead of looking it up through the level. The only call site passes the first gate.
- Items.Collectible.HandleCollision: takes Homer's position instead of the Homer object. Its only call site passes the first Homer, so the `isinstance(other, Homer)` test always holds.
- Watchers.Watcher.HandleCollision: the `isinstance(other, Watcher)` test is the type of the parameter. The only call site passes a watcher.
