# Perlenspiel puzzle games: a verified model of their game logic

This project models, in Dafny, the game logic of five small Perlenspiel games.

- **casual-critique** (module `Critique`): the laser puzzle. A square grid holds blocks, boulders, emitters, mirrors and laser segments.
  - Emitters and lit mirrors grow beams of laser segments.
  - A beam that strikes a block of its own colour makes the block fade and vanish.
  - Every so many ticks a gravity pass drops objects one row.
  - The player swaps adjacent objects by touching them.
  - A level is won when no block is left, and the next level follows.
- **casual-prototype** (module `Prototype`): the first version of the same puzzle. A source lays one segment per emit, a matching block is destroyed at once, and there are no boulders, no win counter and no "hit ended" notification.
- **samplegame2** (module `Sample`): a 23 x 23 maze.
  - The actor follows a route from the pathfinder, collects gold, and escapes through an exit that opens once all the gold is found.
  - The drawn maze turns a quarter before every fifth step.
  - Touches are turned back into map coordinates.
- **mod-vcmiller** (module `Miller`): a 21 x 21 maze with a monster that steps towards the actor on every other move. Arrow keys move the actor and the space bar restarts.
- **mod-alsensiba** (module `Sensiba`): a 21 x 21 maze where every gold piece plays a note one degree higher on a pentatonic scale. The open exit flashes, and escaping plays a three-note chord.

Two shared modules support them:
- `Board`: vectors, the four directions, row-major grids and the closed form of a beam.
- `MazeMap`: counting cells of a flat map.

How the model is built:
- Each game's mutable state is a class whose methods update its fields in place.
- Laser-puzzle objects live in an arena `objs` indexed by id. A grid cell holds the id of the object standing on it, and the `child` and `hitting` references of a beam source are ids.
- The pathfinder is outside the model: its result is an argument (`line` for a touch, `mp` for the monster's route).
- Level tables and maze maps are constructor arguments.

## Model

| member | source | states |
|---|---|---|
| Board.DirIndex | casual-critique/game.js:42 | every direction sits at its own index of the direction table |
| Board.ToDir | casual-critique/game.js:543-550 | toDir returns the index whose direction equals the offset, or -1 exactly when no direction has that offset |
| Board.Set | casual-critique/game.js:552-562 | setData: the written cell reads back the new value, and every other cell and the grid's shape are kept; getData is `Board.Get` and inBounds is `Board.InBounds`, the tests every grid access in the model is guarded by |
| Board.FreeRun | casual-critique/game.js:308-321 | a beam is never longer than the run of in-bounds cells from its first cell to the edge of the grid, so emit's recursion is bounded by the grid size |
| Board.FreeRunCells | casual-critique/game.js:312-321 | the cells a beam fills are in bounds and empty, and the cell after the last one is off the grid or occupied |
| Board.FreeRunSetOff | casual-critique/game.js:316-319 | writing a cell off the ray leaves the length of the ray's free run unchanged |
| Board.PaintCell | casual-critique/game.js:316-319 | after a beam of k segments is laid, the i-th cell along the direction holds segment base + i, and every other cell is kept |
| MazeMap.CountNext | mod-alsensiba/game.js:282-296 | scanning one more cell adds one to the count exactly when that cell holds the code |
| MazeMap.CountPrefix | mod-alsensiba/game.js:282-296 | a prefix of the map holds no more cells of a code than the whole map |
| MazeMap.CountTake | mod-alsensiba/game.js:179-188 | turning one gold cell to floor removes exactly one gold cell from the map |
| MazeMap.CountAgree | samplegame2/game.js:287-331 | maps that agree on which cells hold a code hold equally many of them |
| MazeMap.CountCells | mod-alsensiba/game.js:281-299 | init's nested row/column scan counts exactly the cells of the map holding the code |
| Critique.DecodeEncode | casual-critique/game.js:585-607 | loadObject's code arithmetic, `Critique.Decode`, decodes the code of every encodable object back to that object: a block, or an emitter or mirror of any colour 0..2 and direction |
| Critique.EncodeDecode | casual-critique/game.js:76-117 | every code from CLR to BMD, and BLD, decodes to an object whose code is that code again |
| Critique.UnknownCodesEmpty | casual-critique/game.js:585-607 | CLR, the bomb, dog and splitter codes and codes past BLD place nothing |
| Critique.BlockCodes | casual-critique/game.js:590-592 | a code places a block exactly when it lies in RBL..BBL |
| Critique.SpawnFresh | casual-critique/game.js:585-607 | an object built by `Critique.Spawn` from a decoded code stands on its cell, unlinked and not destroyed; it is a block exactly when its code is a block code |
| Critique.Hit | casual-critique/game.js:448-510 | onHit: a block starts fading (and loses gravity) exactly on a same-colour hit while not yet fading; a dark mirror lights; any other hit changes nothing |
| Critique.HitOnce | casual-critique/game.js:448-510 | an object that reacted to a hit does not react to a second hit |
| Critique.HitSwappable | casual-critique/game.js:472-510 | after a hit a block is `Critique.Swappable` (swappable, lines 263, 378, 472 and 528) exactly when it was swappable and the beam's colour differs from its own; others keep their swappability |
| Critique.MarkConsistent | casual-critique/game.js:265-271 | destroy flags the object and empties its cell, which keeps grid and objects in agreement |
| Critique.DownstreamKinds | casual-critique/game.js:339-344 | the chain downstream of a source depends only on the objects' kinds and links |
| Critique.DownstreamDestroyed | casual-critique/game.js:339-344 | once a source's child link is cut by the cascade, every segment downstream of it is destroyed |
| Critique.RetractsKeepBlocks | casual-critique/game.js:339-344 | the onMove cascade never touches a block |
| Critique.EmittedKeepsFading | casual-critique/game.js:308-327 | an emit leaves every fading block other than its source unchanged and removes no object |
| Critique.Scene.Destroy | casual-critique/game.js:265-271 | destroy: a destroyed object is left alone; otherwise it is flagged and its cell emptied, its whole downstream beam is destroyed, and a block lowers the block count, setting the win time when it reaches zero; for a block or boulder exactly those two changes are made |
| Critique.Scene.OnMove | casual-critique/game.js:339-344 | a moved or destroyed source destroys its whole downstream beam, lets go of its target (a struck mirror goes dark), and ends with no child and no target; a mirror resets its hit time |
| Critique.Scene.DropBeam | casual-critique/game.js:340-341 | the child branch of onMove: the beam is destroyed segment by segment and the child reference cleared |
| Critique.Scene.Emit | casual-critique/game.js:308-327 | emit does nothing while the child lives; otherwise it fills the whole free run along the direction with linked segments of the source's direction and colour; when the next cell is taken, only a first emit strikes its occupant |
| Critique.Scene.Extend | casual-critique/game.js:316-321 | laying a segment and recursing yields the full beam over the free run |
| Critique.Scene.Strike | casual-critique/game.js:322-325 | a first emit calls the occupant's onHit and records it as the source's target |
| Critique.Scene.Place | casual-critique/game.js:273-279 | move's grid part: the old cell is emptied only when it still holds the object, then the object stands on its new cell |
| Critique.Scene.Move | casual-critique/game.js:273-281 | the object stands on the target cell and its old cell is empty; its onMove has run: the whole beam downstream of it is destroyed, it has no child and no target, and a mirror is dark again |
| Critique.Scene.DoGravity | casual-critique/game.js:273-296 | an object falls one row exactly when the cell below is in bounds and empty or holds a laser segment; on a fall the segment below and the whole chain downstream of it are destroyed (287-289), the faller moves (293, into move at 273-281) and its onMove (339-344, 459-462) runs: its links are cut, every segment of its beam is destroyed and a mirror goes dark, and the rest of the change is a cascade retraction; when it cannot fall nothing changes |
| Critique.FallUnlinks | casual-critique/game.js:339-344 | once a moved source's links are cut and the cascade has settled, every segment downstream of it in the state before the move is destroyed |
| Critique.Scene.Gravity | casual-critique/game.js:738-747 | the gravity pass, columns left to right and rows bottom-up, leaves each object in place or one row lower, and only objects with gravity fall |
| Critique.FellSettled | casual-critique/game.js:738-747 | a pass that visited every cell leaves every object where it was or one row lower |
| Critique.StaysSettled | casual-critique/game.js:729-747 | an object pass that moves nothing followed by a gravity pass leaves every object where it was or one row lower |
| Critique.Scene.Swap | casual-critique/game.js:765-775 | two swappable objects trade cells; the whole beam downstream of each is destroyed, both lose child and target, a moved mirror goes dark; timeSinceMove is reset and the move counted; otherwise nothing changes |
| Critique.Scene.Exchange | casual-critique/game.js:769-771 | the two objects trade positions and grid cells |
| Critique.Scene.MovedHooks | casual-critique/game.js:770-771 | after both onMove hooks both objects are unlinked, every segment downstream of either is destroyed, and a moved mirror is dark; no block is touched |
| Critique.ExchangeConsistent | casual-critique/game.js:765-775 | exchanging two live objects keeps grid and objects in agreement |
| Critique.Scene.TickObject | casual-critique/game.js:372-502 | an object that is not due (`Critique.Due`, the conditions of the four tick methods at lines 373, 406, 443 and 499) changes nothing; a due fading block is flagged destroyed and its cell emptied, and nothing else (block count down, win time set when it reaches zero); a due beam source emits as a first emit: its free run is filled with linked segments and the occupant beyond is struck; no other due block changes |
| Critique.Scene.TickObjects | casual-critique/game.js:729-736 | the object pass moves no existing object, destroys every block that was due to vanish, sets the win time only from zero or below, and changes nothing when no object is due; every source that was due, had no live beam and faced an empty cell on the grid ends the pass with a live laser segment in that cell |
| Critique.Scene.TickAt | casual-critique/game.js:730-734 | one visit of the pass: the object on the cell, if any, ticks; the pass moves on one cell (`Progress`), no object moves, and an idle board is unchanged |
| Critique.PaintSpares | casual-critique/game.js:308-321 | an emit that lays a beam keeps every live segment in its cell, fills only empty cells and only with live segments, leaves every other source as it was, and puts a live segment in the cell ahead of its source |
| Critique.StruckSpares | casual-critique/game.js:312-325 | an emit that only strikes the occupant changes no cell, keeps every live segment, and leaves every other due source as it was (a due mirror is already lit, so the hit changes nothing) |
| Critique.VanishSpares | casual-critique/game.js:497-502 | a block that vanishes keeps every live segment in its cell and leaves every source and every empty cell as it was |
| Critique.TickSpares | casual-critique/game.js:372-502 | any tick, as TickObject states it, spares the other sources and beams; a due source with no live beam and an empty or lit cell ahead has a live segment there afterwards |
| Critique.TickStep | casual-critique/game.js:729-736 | a visit to a cell holding an object: sources visited before keep the segment ahead, the source standing there gets one, and the sources still to come wait unchanged |
| Critique.EmptyStep | casual-critique/game.js:729-736 | a visit to an empty cell changes nothing for any source |
| Critique.FadeStep | casual-critique/game.js:729-736 | after each visit every due block behind the pass is destroyed and every due block ahead of it is unchanged |
| Critique.VisitStep | casual-critique/game.js:729-736 | one visit, to an empty cell or to an object as TickObject leaves it, moves `Progress` on by one cell |
| Critique.ProgressStart | casual-critique/game.js:729-736 | the pass starts with no object behind it |
| Critique.ProgressColumn | casual-critique/game.js:729-730 | the end of a column is the start of the next, since every object stands above the last row |
| Critique.ProgressDone | casual-critique/game.js:729-736 | after the last column every due block is destroyed and every source that was ready has a live segment ahead |
| Critique.Scene.TickBoard | casual-critique/game.js:729-747 | the object pass, then the gravity pass on every laser time since the last swap: outside it no object moves, an idle board is unchanged, and every ready source has a live segment ahead; on it every object stays or falls one row |
| Critique.Scene.constructor | casual-critique/game.js:788-793 | init loads the start level with the clock at zero and nothing selected |
| Critique.Scene.LoadObject | casual-critique/game.js:585-607 | the cell's code gives its object or nothing, and the block count rises exactly for block codes |
| Critique.Scene.LoadLevel | casual-critique/game.js:609-633 | loadLevel decodes the level cell by cell into a consistent grid and resets its clocks, win time and move count |
| Critique.Scene.LoadRows | casual-critique/game.js:623-631 | every cell of the level holds the object its code decodes to, and the block count equals the number of block codes |
| Critique.Scene.LoadRow | casual-critique/game.js:623-631 | one row decoded: each cell holds its decoded object, and the block count rises by the row's block codes |
| Critique.Scene.LoadCell | casual-critique/game.js:628 | one cell decoded and appended, with the block count kept equal to the blocks on the board |
| Critique.LoadedConsistent | casual-critique/game.js:609-633 | a loaded level is consistent, every cell holds what its code decodes to, and every object is fresh |
| Critique.LiveBlocksZero | casual-critique/game.js:512-520 | the block count is zero exactly when no block is left on the board |
| Critique.Scene.ClearLevel | casual-critique/game.js:635-641 | clearLevel empties every cell of the grid |
| Critique.Scene.Advance | casual-critique/game.js:755-762 | once won, the next level is loaded, or after the last level the grid is cleared; before a win nothing changes |
| Critique.Scene.Tick | casual-critique/game.js:721-763 | tick advances the clock by one and drops a selection that is no longer swappable; before the advance delay after a win it keeps level and moves, advances both other clocks, moves nothing off a gravity tick (where every ready source gets a live segment ahead) and lets objects fall at most one row on one; after the delay it loads the next level, or after the last empties the board |
| Critique.Scene.DropSelection | casual-critique/game.js:722-727 | the selection is dropped exactly when its cell no longer holds a swappable object |
| Critique.Scene.HudTouch | casual-critique/game.js:686-704 | the HUD's buttons: reset reloads the level, skip loads the next one, back the previous one; any other touch changes nothing |
| Critique.Scene.Touch | casual-critique/game.js:795-818 | touch selects a swappable cell, deselects it when touched again, and changes nothing else in either case; next to a selected cell it clears the selection and has the full effect of a swap: the two cells traded, both beams destroyed and both objects unlinked, mirrors dark, the move clock reset and the move counted (casual-critique/game.js:765-775); anything else on the grid changes nothing; on the HUD row the last cell reloads the level, the one before skips ahead, the one before that goes back, and any other cell changes nothing |
| Critique.OnMoveAsWritten | casual-critique/game.js:339-344 | onMove with the target notified before the reference is cleared; a call that returns leaves the mover with no target |
| Critique.FacingMirrorsNeverReturn | casual-critique/game.js:339-344 | two mirrors striking each other make onMove recurse without end, at any stack depth |
| Prototype.DecodeEncode | casual-prototype/game.js:358-377 | loadObject's code arithmetic, `Prototype.Decode`, decodes every encodable object back from its code |
| Prototype.EncodeDecode | casual-prototype/game.js:46-80 | every code from CLR to BMD decodes to an object whose code is that code again |
| Prototype.UnknownCodesEmpty | casual-prototype/game.js:358-377 | CLR and every code past BMD place nothing |
| Prototype.SpawnFresh | casual-prototype/game.js:358-377 | an object built by `Prototype.Spawn` from a decoded code is fresh and stands on its cell; blocks, emitters and mirrors keep their code's colour and direction |
| Prototype.Hit | casual-prototype/game.js:293-297 | only a dark mirror reacts to a hit, recording the time; nothing else changes |
| Prototype.HitOnce | casual-prototype/game.js:293-297 | only the first hit sets a mirror's hit time |
| Prototype.Retired | casual-prototype/game.js:132-138 | destroy with onDestroy: the object is flagged destroyed and a source forgets its child |
| Prototype.Unhooked | casual-prototype/game.js:195-198 | onMove: a source forgets its child, and a mirror's hit time resets to -1 |
| Prototype.ChainLasers | casual-prototype/game.js:174-188 | everything downstream of a source is a laser segment |
| Prototype.ChainKinds | casual-prototype/game.js:195-198 | the chain from an object depends only on the objects' kinds and destroyed flags, not on their positions |
| Prototype.ChainClosed | casual-prototype/game.js:132-138 | the chain of any segment of a chain lies inside that chain |
| Prototype.ChainAfter | casual-prototype/game.js:195-198 | retiring a closed set of segments shrinks a later chain by at most that set |
| Prototype.BeamsRetired | casual-prototype/game.js:455-457 | two onMove calls in a row retire both beams as they stood before the first call, and empty exactly their cells |
| Prototype.SwapRetired | casual-prototype/game.js:451-460 | trading places changes no link, so the beams retired after the exchange are the ones the objects had before it |
| Prototype.DestroyStep | casual-prototype/game.js:132-138 | destroying an object and then its beam retires exactly the object's chain and empties exactly its cells |
| Prototype.Scene.Destroy | casual-prototype/game.js:132-138 | destroy retires the object and its whole downstream chain and empties exactly their cells |
| Prototype.Scene.OnMove | casual-prototype/game.js:195-198 | onMove retires the source's whole beam and clears its child |
| Prototype.Scene.Emit | casual-prototype/game.js:174-188 | with no live child and the next cell free, exactly one segment of the source's direction and colour is placed there and linked; an occupied next cell gets onHit on every call (a block that `Prototype.Matches` the colour, lines 326-327, is destroyed); otherwise nothing changes |
| Prototype.FreshSegmentWaits | casual-prototype/game.js:225-229 | by `Prototype.Due`, the tick conditions at lines 226, 259 and 288, a segment made at time t emits only once the time exceeds t plus the laser time |
| Prototype.DarkMirrorWaits | casual-prototype/game.js:287-291 | a mirror that was never hit does not emit |
| Prototype.Scene.Place | casual-prototype/game.js:140-147 | move's grid part: the old cell is emptied only when it still holds the object |
| Prototype.Scene.Move | casual-prototype/game.js:140-148 | the object stands on its target, its old cell is empty, and its beam is retired and its cells cleared, and nothing else changes |
| Prototype.Scene.DoGravity | casual-prototype/game.js:150-163 | the object falls one row exactly when the cell below is in bounds and empty or a segment; then the segment below and its whole chain are retired and their cells emptied (154-157), the faller is unhooked and its own beam retired and emptied (159-161), and nothing else changes; otherwise nothing changes |
| Prototype.FallRetired | casual-prototype/game.js:150-163 | destroying the segment below and then moving the faller retires exactly the chain below and the faller's beam, and empties exactly their cells |
| Prototype.FallObjects | casual-prototype/game.js:154-161 | the arena half of FallRetired: after the destroy and the move, exactly the two chains are retired and the faller stands one row lower |
| Prototype.FallCells | casual-prototype/game.js:154-161 | the grid half of FallRetired: after the destroy and the move, exactly the cells of the two chains are empty and the faller holds the cell below |
| Prototype.RetiredKept | casual-prototype/game.js:150-163 | a fall moves only the faller and destroys only laser segments |
| Prototype.Scene.Gravity | casual-prototype/game.js:433-442 | the gravity pass leaves each object in place or one row lower, only live objects with gravity (`Prototype.HasGravity`, lines 121 and 205) fall, and only laser segments are destroyed |
| Prototype.FellSettled | casual-prototype/game.js:433-442 | a pass over every cell leaves every object where it was or one row lower |
| Prototype.Scene.TickObject | casual-prototype/game.js:225-291 | an object that is not due changes nothing; a due one emits: with no live child the next free cell gets one linked segment, an occupant gets onHit (a matching block is retired and its cell emptied); no existing object moves |
| Prototype.Scene.TickObjects | casual-prototype/game.js:424-431 | the object pass moves no existing object and changes nothing when no object is due; every source that was due, had no live beam and faced an empty cell on the grid ends the pass with a live laser segment in that cell |
| Prototype.EmittedKeeps | casual-prototype/game.js:174-188 | an emit keeps every live segment in its cell, fills an empty cell only with a live segment, leaves every other due source as it was, and gives its own source, with no live beam and an empty or lit cell ahead, a segment there |
| Prototype.TickStep | casual-prototype/game.js:424-431 | a visit to a cell holding an object: sources visited before keep the segment ahead, the source standing there gets one, and the sources still to come wait unchanged |
| Prototype.EmptyStep | casual-prototype/game.js:424-431 | a visit to an empty cell changes nothing for any source |
| Prototype.StaysSettled | casual-prototype/game.js:423-442 | an object pass that moves nothing followed by a gravity pass leaves every object where it was or one row lower |
| Prototype.Scene.Tick | casual-prototype/game.js:423-449 | the clocks advance by one; on a gravity tick (timeSinceMove a positive multiple of the laser time, line 433) every object stays or falls one row; otherwise no object moves, an idle board is unchanged, and every ready source has a live segment ahead |
| Prototype.Scene.Swap | casual-prototype/game.js:451-460 | two `Prototype.Swappable` objects (lines 130 and 231) trade cells and are unhooked; every segment of both beams as they were before the swap is retired and its cell emptied, and nothing else changes; timeSinceMove is reset; otherwise nothing changes |
| Prototype.Scene.Exchange | casual-prototype/game.js:455-457 | the two objects trade positions and each one's id is written to the other's cell |
| Prototype.Scene.MovedHooks | casual-prototype/game.js:455-457 | after both onMove hooks both objects are unhooked, nothing has moved, and exactly the segments of both beams are retired and their cells emptied |
| Prototype.ExchangeConsistent | casual-prototype/game.js:451-460 | exchanging two live objects keeps grid and objects in agreement |
| Prototype.Scene.constructor | casual-prototype/game.js:463-468 | init loads level 0 with the clock at zero and nothing selected |
| Prototype.Scene.LoadObject | casual-prototype/game.js:358-377 | the cell's code gives its decoded object or nothing |
| Prototype.Scene.Load | casual-prototype/game.js:379-396 | load decodes the level into a consistent grid |
| Prototype.Scene.LoadRows | casual-prototype/game.js:388-395 | every cell of the level holds the object its code decodes to |
| Prototype.Scene.LoadRow | casual-prototype/game.js:388-395 | one row decoded, each cell holding its decoded object |
| Prototype.LoadedConsistent | casual-prototype/game.js:379-396 | a loaded level is consistent and every cell holds what its code decodes to |
| Prototype.Scene.Touch | casual-prototype/game.js:470-488 | touch selects or deselects and changes nothing else in either case; next to a selected cell it clears the selection and has the full effect of a swap: the two cells traded, both objects unhooked, both beams retired and their cells emptied, nothing else changed, and the move clock reset (casual-prototype/game.js:458); anything else changes nothing |
| Sample.DoRotate | samplegame2/game.js:128-137 | matrix 0 leaves every point in place |
| Sample.UnrotateMatrix | samplegame2/game.js:144-150 | _unrotate picks the matrix that completes the rotation to a whole turn |
| Sample.DoRotateTurns | samplegame2/game.js:114-137 | each matrix turns a point about the centre cell by its number of quarter turns |
| Sample.RotateCompose | samplegame2/game.js:128-137 | rotating by a and then by b is rotating by a + b quarter turns |
| Sample.UnrotateRotate | samplegame2/game.js:140-150 | `Sample.Unrotate` (_unrotate) undoes _rotate for every rotation |
| Sample.RotateUnrotate | samplegame2/game.js:140-150 | _rotate undoes _unrotate, so a touched bead maps back to the map cell drawn there |
| Sample.RotateInjective | samplegame2/game.js:128-137 | distinct cells rotate to distinct cells |
| Sample.RotateInBounds | samplegame2/game.js:152-156 | a cell is on the 23 x 23 grid exactly when its rotation is |
| Sample.Clean | samplegame2/game.js:308-329 | the scan rewrites actor and exit cells to floor and keeps gold cells gold |
| Sample.ScanCell | samplegame2/game.js:292-329 | one cell of the scan: it stops only on a map the scan refuses, and otherwise extends the count, positions and cleaned data by that cell |
| Sample.ScanMap | samplegame2/game.js:287-331 | the scan completes exactly when there are at most 10 gold pieces, at most one actor and at most one exit; then it counts the gold, locates actor and exit, and rewrites their cells to floor |
| Sample.Maze.constructor | samplegame2/game.js:273-357 | init: the timer starts exactly when the scan completes, with rotation 0, no route and no gold found |
| Sample.Maze.Tick | samplegame2/game.js:178-263 | no route: nothing changes; standing on the next point: the route is dropped; otherwise the actor walks there |
| Sample.Maze.Walk | samplegame2/game.js:202-262 | before every fifth step the maze turns a quarter; the actor moves and collects, and unless it won the step advances and the route is dropped when it runs out |
| Sample.Maze.Collect | samplegame2/game.js:215-253 | gold turns to floor and counts exactly one, opening the exit once all gold is found; otherwise the open exit wins and stops the timer |
| Sample.Maze.Move | samplegame2/game.js:362-395 | after a win input is ignored; otherwise the touch is unrotated into map coordinates and a non-empty route replaces the old one from step 0 |
| Miller.CellAt | mod-vcmiller/game.js:192 | reading the map gives the cell's code, or nothing (undefined) outside the array |
| Miller.BlockedCases | mod-vcmiller/game.js:189-193 | `Miller.Blocked`, movePlayer's refusal, holds exactly for the targets `Miller.OffLimits` puts off its literal limits and for the wall cells, so it admits column and row 21 |
| Miller.GoldScale | mod-vcmiller/game.js:178 | the pulsing gold scale always lies between 50 and 90 |
| Miller.GoldScalePulse | mod-vcmiller/game.js:178 | the scale repeats every 8 ticks, from 90 at the top to 50 at the bottom |
| Miller.ArrowTarget | mod-vcmiller/game.js:428-440 | exactly the four arrow keys give a target, one step from the actor |
| Miller.Game.constructor | mod-vcmiller/game.js:294-383 | the declarations and init: play starts exactly when the actor's and exit's cells are floor, with the exit closed |
| Miller.Game.Init | mod-vcmiller/game.js:294-383 | init (with the exit closed again) restarts from a copy of the initial map, with the gold counted and none found, when actor and exit stand on floor |
| Miller.Game.InitAsWritten | mod-vcmiller/game.js:294-383 | init as written keeps the exit's state, so a restart after the exit opened starts with the exit open and no gold found |
| Miller.Game.Reset | mod-vcmiller/game.js:297-311 | init's first part: actor and monster back at their starts, the map copied, the game not won |
| Miller.Game.Begin | mod-vcmiller/game.js:344-382 | init's last part: the gold counted, none found, no route, the timer running |
| Miller.Game.MovePlayer | mod-vcmiller/game.js:189-249 | a blocked target changes nothing; otherwise the monster steps on even moves, the actor moves, meeting the monster ends the game before any gold or exit, and otherwise the actor collects |
| Miller.Game.Collect | mod-vcmiller/game.js:213-248 | gold turns to floor and counts exactly one, opening the exit once all is found; reaching the open exit wins and stops the timer |
| Miller.Game.UpdateMonster | mod-vcmiller/game.js:134-158 | the monster moves only on an even move count, and then to the first point of its route |
| Miller.Game.CheckMonsterCollision | mod-vcmiller/game.js:160-169 | monster and actor on one cell end the game and stop the timer; otherwise nothing changes |
| Miller.Game.Tick | mod-vcmiller/game.js:251-283 | the clock advances; no route changes nothing else; standing on the next point drops the route; otherwise movePlayer runs and the step advances |
| Miller.Game.Move | mod-vcmiller/game.js:388-414 | after a win input is ignored; otherwise a non-empty route replaces the old one from step 0 |
| Miller.Game.KeyDown | mod-vcmiller/game.js:416-441 | space restarts through the corrected init (stopping the timer first); after a win other keys change nothing; an arrow drops the route and moves the actor one step |
| Sensiba.Note | mod-alsensiba/game.js:200 | a note exists for every scale degree from 0 up and is at least 13; with JavaScript's remainder a negative degree that is not a multiple of 5 has none |
| Sensiba.NoteStep | mod-alsensiba/game.js:200 | one degree higher is a higher note |
| Sensiba.NoteIncreasing | mod-alsensiba/game.js:200-212 | the note rises strictly with every gold piece found |
| Sensiba.ChordDefined | mod-alsensiba/game.js:218-226 | every note of the exit chord exists exactly when the map holds at least three gold pieces; the chord then rises and ends on the last piece's note |
| Sensiba.Chord | mod-alsensiba/game.js:218-226 | the exit chord is three notes, those of the last three gold pieces |
| Sensiba.Toggle | mod-alsensiba/game.js:133-141 | _flash always changes the exit's colour, to the exit or the actor colour |
| Sensiba.ToggleTwice | mod-alsensiba/game.js:133-141 | two flashes restore either colour |
| Sensiba.Game.constructor | mod-alsensiba/game.js:246-320 | play starts exactly when actor and exit stand on floor, with the gold counted, none found and the exit closed |
| Sensiba.Game.Init | mod-alsensiba/game.js:246-320 | init refuses a non-floor actor or exit cell, and otherwise counts the gold and starts the timer |
| Sensiba.Game.Tick | mod-alsensiba/game.js:143-235 | no route: nothing changes; standing on the next point drops the route; otherwise the actor moves and collects and the step advances unless it won |
| Sensiba.Game.Collect | mod-alsensiba/game.js:177-226 | gold turns to floor, counts exactly one and plays its note; the flash timer starts only as the exit opens; the open exit wins with the chord |
| Sensiba.Game.Flash | mod-alsensiba/game.js:133-141 | the exit's colour toggles |
| Sensiba.Game.Move | mod-alsensiba/game.js:325-351 | after a win input is ignored; otherwise a non-empty route replaces the old one from step 0 |

## Left out

- Drawing, HUD painting, status text, sprites, fades and glyphs are not modelled. This includes `draw`, `drawHud`, `drawButton`, `clear`, `redraw`, `glowColor`, `lerpColor` and updateGold's bead painting (only its scale expression is kept). They are rendering, and partly floating point.
- Audio is not modelled. The two harpsichord games' notes are returned as the values played.
- Timers are flags (`timer`, the flash timer count), and database telemetry, click timing with `Date` and `G.shutdown` are left out: they are host side effects.
- The pathfinder (`PS.pathMap`, `PS.pathFind`) is not modelled: its result is an argument.
- The story-prototype, story-critique and story-final games are not part of this model. They are real-time and floating point.
- Level tables and maze layouts are not copied: they are constructor arguments, and the laser scene takes its grid size as an argument.
- The laser grid is a sequence of rows that the methods reassign, not a mutable 2-D array. JavaScript object references are arena ids.
- Critique.Scene.OnMove: clears the target reference before notifying the target, the corrected order (see Findings). In every other case the final state is the same as the source's.
- Critique.Scene.Swap: places both objects on the grid before running the two onMove hooks, where the source runs one whole `move` after the other. The hooks only destroy laser segments and cut references, so the final state is the same.
- Critique.Scene.Move: requires that the object is not a laser segment. Segments are never moved: they are not swappable and do not fall.
- Critique.Scene.ClearLevel: requires a won level, its only caller's situation. It also empties the object arena, since the cleared objects are unreachable afterwards.
- Prototype.Scene.Load: starts a fresh object arena; the source's old objects become unreachable.
- Sample.Maze.Tick: requires a running timer, since only the timer calls it. Miller.Game.Tick and Sensiba.Game.Tick do the same.
- Sample.ScanMap: a refused map leaves the maze without a running timer, and the model does not state what the partly scanned map data holds.
- Miller.Game.KeyDown: space runs the corrected Miller.Game.Init, which closes the exit again, not the source's init (see Findings).
- Critique.Scene.constructor: requires every level to have the scene's width and height. The source instead resizes the grid to each level's own size when it loads it (casual-critique/game.js:613). Every shipped level is 6 x 6.
- Prototype.Scene.constructor: requires every level to have the scene's width and height. The source resizes the grid on load (casual-prototype/game.js:383), and its shipped level is 6 x 6.
- Prototype.Scene.Gravity: states that each object stays or falls one row, that only objects with gravity fall and that only laser segments are destroyed, not that every object with an open cell below it falls. A pass that moved nothing would also meet the contract. Prototype.Scene.DoGravity states the exact effect of each fall.
- Prototype.Scene.Swap: places both objects before running the two onMove hooks, where the source runs one whole `move` after the other. The hooks only retire laser segments and clear child links, so the final state is the same.
- Critique.Scene.DoGravity: what a fall destroys beyond the two chains it names is bounded only by the cascade retraction (only laser segments are destroyed, links are only cut, mirrors only go dark), not pinned to the exact set the cascade reaches, because a mirror released by the fall can itself retract further beams.
- Critique.Scene.Gravity: states that each object stays or falls one row, not that every object with an open cell below it falls. A pass that moved nothing would also meet the contract.
- Miller.Game.Init: requires a stopped timer. Its callers (the constructor, and space in keyDown) stop it first.
- Sensiba.Game.Init: requires the declared start state, since the source runs init once.
- Miller.Game.Tick: updateGold's per-bead drawing is left out; only the clock it advances is kept.

## Findings

| source | as written | input that shows it | evidently intended | confidence | as-written member | corrected member |
|---|---|---|---|---|---|---|
| casual-critique/game.js:339-344 | onMove calls `hitting.onHitEnd(this)` before clearing `hitting`, and a mirror's onHitEnd is its own onMove | two lit mirrors in adjacent cells facing each other, each striking the other; swapping one away runs A's onMove, then B's, then A's again, without end | clear the reference before notifying the target, so each mirror is released once | not executed; high | Critique.OnMoveAsWritten | Critique.Scene.OnMove |
| mod-vcmiller/game.js:294-383 | init resets the win flag and the gold found, but not `_exit_ready` | collect all gold so the exit opens, get caught by the monster, press space: the new game has the exit open with no gold found, and walking to (19, 19) wins at once | a restart closes the exit again | not executed; high | Miller.Game.InitAsWritten | Miller.Game.Init |
