# A platformer's physics, collisions and level builder in Dafny

The game is a small pygame platformer. Every object on screen is an entity of one of nine classes:
Player, Box, Brick, GrassBrick, SlidingBrick, SlidingBrickBouncer, Lava, Goal and Enemy. Each
entity has an integer rectangle, a velocity, an acceleration and a mass. Once per frame an entity
runs `update`:

- it pushes itself (keys, friction, gravity) and moves by its new velocity;
- it runs a collision pass, `handle_collisions`, against a view of the world.

The pass classifies each overlap by axis and direction. For a bouncing item it snaps the entity
out of the item: a side hit reflects its horizontal speed and pushes the item, a top or bottom hit
zeroes its vertical speed. Then it calls the entity's reaction hook `handle_collision`. For a
bouncing item it also marks the pair on both sides and calls the item's hook once, mirrored, so a
bouncing pair is handled once per pass. A non-bouncing item is neither marked nor notified.

`reset(level)` builds a level from a grid of characters. Adjacent bricks, lava and platforms merge
into larger rectangles. The game loop moves the player first. A flagged player restarts the level,
and a player who touched the goal starts the next one. Otherwise every world item moves against the
player and the world, and the items that survive form the next world.

The model has these parts:

- **Entities.** Entities are `Ent` values in an entity store (`seq<Ent>`), addressed by handle
  (the index). The player is handle 0. Python's object identity (`item is self`,
  `item in self.collided`, `self.ground = item`) becomes handle comparison.
- **Pure functions.** The collision pass (`Collisions`), the per-class updates (`Updates`) and the
  level builder (`Levels`) are pure functions.
- **Hook log.** Every reaction hook that fires is logged as a `Hook`, so "fires once, mirrored" can
  be stated.
- **Imperative game state.** The globals of `main.py` are the class `GameLoop.Game`. Its methods
  are proved against the functions, with the loops the source has: the collision loop, the
  update-and-filter loop of a frame, and the nested loops of the grid scan.

Quirks of the code that the model keeps as written:

- When the player is in the air, `Player.update` clears a misspelled attribute (`groud`). So the
  player's `ground` is never cleared once set. `PlayerLemmas.GroundNeverCleared` proves this.
- The Player's hook for an Enemy reads `on_ground` as the previous pass left it. The current pass
  only writes it at the end.
- The axis test is `h - w > 2` for a side hit and `w - h > 2` for a top or bottom hit. An overlap of
  width 3 and height 10 is therefore a side (x-axis) hit.
- A pair with a non-bouncing side (a SlidingBrickBouncer, a Goal or an Enemy) is never marked, so
  it is engaged again in the non-bouncing item's own pass against `[player, *world]`. There the
  bouncing side is the item and its hook fires a second time, mirrored. For example, an airborne
  Player overlapping an Enemy runs `Player.handle_collision` in its own pass and again in the
  Enemy's pass. If the player landed on a brick in its own pass, `on_ground` is true by the second
  call, so the player stomps the enemy and is flagged itself in the same frame. The model keeps
  this: `PassLemmas.PassContract` marks only bouncing items, and each entity's pass is its own.
- Levels are looked up with `LEVELS[level-1]`, so level 0 and negative levels index from the end
  (`Levels.PyIndex`).
- The frame's filter tests each item right after that item's own update. An item flagged by a
  *later* item's update therefore still stays in the new world for this frame
  (`Frames.KeptExactly`).
- `reset` raises an `IndexError` in four cases: a missing level, an empty layout (`LAYOUT[0]`), a
  row longer than the first, or more `S` cells than sign texts. It raises `ZeroDivisionError` when
  the first row is empty (`WIDTH/len(LAYOUT[0])`). The model returns these as `BuildError`s. Once
  one is raised, the `Game` is `crashed` and does nothing more.

## Model

| member | source | states |
|---|---|---|
| Vectors.ScaleInverse | components.py:7-8 | scaling by `m` then by `1/m` gives the vector back, so a force of `g·mass` divided by the mass is `g` (used by `UpdateLemmas.GravityMassFree`) |
| Vectors.ScaleAdd | components.py:5-8 | `mul_vectors` distributes over `add_vectors` |
| Entities.Mirror | components.py:94-101 | the hook the item receives has the same overlap and axis and is always bouncing; its direction is the opposite one (left/right and top/bottom swapped), and a corner stays a corner |
| Entities.MirrorInvolutive | components.py:87-93 | `opposite_dirs` is an involution, so mirroring twice gives back the collision |
| Geometry.Clip | components.py:41-43 | the overlap has non-negative size and, when non-empty, lies inside both rectangles |
| Geometry.ClipContains | components.py:41 | a unit cell is in the overlap iff it is in both rectangles |
| Geometry.ClipNonEmptyIff | components.py:41-43 | the overlap is non-empty iff the rectangles share a cell |
| Geometry.ClipSymmetric | components.py:41 | the overlap is symmetric, and its size is symmetric even when empty |
| Behaviours.Anchor | components.py:261-264 | a Brick's hook puts it at its spawn point at rest, touching nothing else |
| Behaviours.PlayerReact | components.py:186-194 | against an Enemy, an airborne player stomps it (the enemy is flagged, the player's vertical speed becomes −JUMP_STRENGTH) and a grounded one is flagged itself; against anything else a top contact makes the other entity the player's ground; nothing else changes on either side |
| Behaviours.SlidingReact | components.py:283-294 | against a bouncer the platform reverses, sets `switched` and is placed flush against the bouncer's near side; otherwise it reverses exactly on a bouncing x-axis contact and keeps its position; nothing else changes |
| Behaviours.EnemyReact | components.py:358-367 | an Enemy ignores all but exact Brick and GrassBrick; on top of one it turns round iff it sticks out past either edge, and any other contact with one turns it round; its position never changes |
| Behaviours.LavaReact | components.py:334-337 | Lava stays anchored at spawn; a Player touching it is flagged for removal and nothing else about either changes |
| Behaviours.GoalReact | components.py:346-350 | touching a Player, the goal flags itself for removal and the player for the next level; anything else is ignored; nothing else changes on either side |
| Behaviours.React | components.py:186-367 | for every class: the hook keeps its entity's body, never clears `remove` and only sets `ground`; it changes the other entity in its flags only; Bricks end at spawn, platforms on their row, and every other class keeps its position |
| Behaviours.HookFlags | components.py:186-350 | only a Goal sends a Player to the next level; only Lava touching a Player, or an airborne Player on an Enemy, removes the other entity; only a grounded Player meeting an Enemy, or a Goal reached by a Player, removes itself |
| Behaviours.BouncerSeparates | components.py:286-292 | a platform put flush against a bouncer no longer overlaps it |
| Collisions.AxisOf | components.py:54-82 | the axis is x iff `h-w > 2`, y iff `w-h > 2`, and a corner iff the difference is within 2 |
| Collisions.Resolve | components.py:40-82 | the collision data, the direction per axis, when `new_on_ground` is set, what a non-bouncing or corner contact leaves untouched; a bouncing side hit adds `vel.x·mass` to the item's acceleration, negates `vel.x` and snaps the entity to the item's near side; a bouncing top or bottom hit zeroes `vel.y` and snaps above or below the item, with no impulse; a bouncing side or top hit leaves no overlap |
| Collisions.HandleCollisions | components.py:33-102 | the pass keeps the store's size (its meaning is in `PassLemmas.PassContract`) |
| Collisions.Step | components.py:38-101 | one iteration of the collision loop keeps the store's size (what it does is in `PassLemmas.StepFacts`, `StepMarks`, `StepGrounds` and `StepGrouped`) |
| Collisions.Sweep | components.py:36-101 | the collision loop over the view keeps the store's size (its meaning is in `PassLemmas.SweepMarks`, `SweepGrounds`, `SweepGrouped` and `SweepKeeps`) |
| PassLemmas.StepFacts | components.py:36-101 | one loop iteration skips a skipped or non-overlapping item, and otherwise changes only the two entities, marks both when bouncing, logs one or two hooks and keeps every body |
| PassLemmas.SweepBodies | components.py:36-101 | the whole loop keeps every entity's body |
| PassLemmas.StepMarks | components.py:38-86 | one iteration keeps the pair-marking invariant |
| PassLemmas.SweepMarks | components.py:34-101 | over the sweep, `s`'s `collided` list is exactly its bouncing items, with no repeats and without `s`; each had not marked `s` before and now has `s` appended once |
| PassLemmas.StepKeeps | components.py:36-101 | one iteration keeps the store well formed, Bricks at spawn and platforms sliding, and every entity other than the driver stays where it was, except that a platform may slide along its row |
| PassLemmas.SweepKeeps | components.py:36-101 | the same for the whole loop |
| PassLemmas.StepGrounds | components.py:69-74 | one iteration keeps "`new_on_ground` iff some landing hook was logged" |
| PassLemmas.SweepGrounds | components.py:35-101 | `new_on_ground` is true iff some hook of the sweep was a bouncing top contact of `s` |
| PassLemmas.StepGrouped | components.py:83-101 | one iteration appends a driver hook, followed by the mirrored hook exactly when the item bounces |
| PassLemmas.SweepGrouped | components.py:83-101 | the hook log of a sweep is a sequence of such groups |
| PassLemmas.PassContract | components.py:33-102 | for the whole pass: `on_ground` iff a landing, `collided` exactly the bouncing items, each once, nobody else marked, and the hooks in driver/mirror groups |
| PassLemmas.PassKeeps | components.py:33-102 | the pass keeps the pass invariants (a platform that drives the pass may be snapped off its row) and every body |
| PassLemmas.StepPersists | components.py:188-196 | one iteration never clears a `ground` or a `remove` flag and leaves the jump state alone |
| PassLemmas.SweepPersists | components.py:36-101 | the same for the whole loop |
| PassLemmas.PassPersists | components.py:33-102 | the same for the whole pass |
| Updates.Integrate | components.py:114-119 | `vel += acc/mass`, only the downward speed clamped at TERMINAL_VEL, then the position moved by the new velocity through the Rect's conversion; body, acceleration, bookkeeping and every flag (`remove`, `nextLevel`, `switched`, `jumping`, `onGround`, `ground`, `lastOnGround`) kept |
| Updates.AddGravity | components.py:103-110 | gravity only adds to the downward acceleration of a positive mass and touches nothing else (the amount is in `UpdateLemmas.GravityMassFree`) |
| Updates.BaseUpdate | components.py:112-121 | `Entity.update` keeps the store's size and leaves the acceleration zero |
| UpdateLemmas.GravityMassFree | components.py:103-116 | gravity changes the speed by GRAVITY, or GRAVITY_JUMPING while rising, whatever the mass |
| UpdateLemmas.TerminalVelocity | components.py:116-117 | after gravity and integration, before the collision pass, the downward speed is at most TERMINAL_VEL, and a body already falling that fast without an upward push stays at it (a landing in the pass may still zero it) |
| UpdateLemmas.BaseUpdateKeeps | components.py:112-121 | `Entity.update` of a non-Brick keeps the pass invariants and every body, and every other entity stays where it was, a platform but for sliding along its row |
| UpdateLemmas.PlayerUpdateKeeps | components.py:201-226 | `Player.update` keeps the pass invariants and every other entity stays where it was, a platform but for sliding |
| UpdateLemmas.BoxUpdateKeeps | components.py:250-252 | `Box.update` keeps the pass invariants and every other entity stays where it was, a platform but for sliding |
| UpdateLemmas.BrickUpdateKeeps | components.py:265-269 | the update of the Brick classes keeps the pass invariants and every other entity stays where it was, a platform but for sliding |
| UpdateLemmas.SlidingUpdateKeeps | components.py:295-305 | `SlidingBrick.update` keeps the store invariants, and the platform ends on its row, sliding at speed one with no acceleration |
| UpdateLemmas.UpdatePhysical | components.py:201-305 | every class's update keeps the pass invariants, and a platform ends on its row |
| UpdateLemmas.UpdateKeeps | components.py:201-305 | every class's update keeps all store invariants and every body |
| UpdateLemmas.BrickStaysPut | components.py:265-269 | after its update a Brick is at its spawn point at rest, whatever pushed it before |
| UpdateLemmas.BaseUpdatePersists | components.py:112-121 | `Entity.update` never clears a ground or a removal flag |
| UpdateLemmas.PlayerUnrevived | components.py:201-226 | `Player.update` clears no removal flag |
| UpdateLemmas.UpdateNeverRevives | components.py:201-367 | no class's update clears any entity's removal flag |
| Updates.PlayerUpdate | components.py:201-226 | keeps the store's size (its meaning is in the PlayerLemmas and UpdateLemmas rows) |
| Updates.BrickUpdate | components.py:265-269 | keeps the store's size (see `UpdateLemmas.BrickStaysPut`) |
| Updates.SlidingUpdate | components.py:295-305 | keeps the store's size (see `UpdateLemmas.SlidingUpdateKeeps`) |
| Updates.Update | components.py:201-305 | the per-class dispatch keeps the store's size |
| Updates.HandleKeys | components.py:228-243 | the keys change only `acc`, `jumping` and `last_on_ground`; opposite or no arrows leave `acc.x` alone; a jump once started is not ended here; a take-off needs space within COYOTE frames and overwrites `acc.y` with −JUMP_STRENGTH·mass; without space `acc.y` and `jumping` are kept, and a release mid-jump closes the long-jump window (`PlayerLemmas.ArrowPush` and `LiftingMeans` give the amounts) |
| Updates.TargetVel | components.py:207-210 | the speed friction aims at: the ground's horizontal speed, or zero with no ground |
| Updates.PlayerDrive | components.py:201-211 | after the keys, friction changes only `acc.x`, and a player already at the target speed with no arrow push gets none (`PlayerLemmas.DriveAcc` gives the term) |
| Updates.Settle | components.py:215-226 | landing resets `last_on_ground` to 0 and ends the jump; in the air the counter grows by one and the jump state stays; nothing else changes, `ground` included |
| Updates.BoxDrive | components.py:250-252 | Box friction only changes `acc.x`, against the direction of motion, and not at all at rest (`PlayerLemmas.BoxSlowsDown` gives the rate) |
| Updates.SlidingDrive | components.py:298-303 | the platform moves at speed one in the direction it had (left when its speed is negative), with no vertical speed and no acceleration; nothing else changes |
| PlayerLemmas.FrictionPullsToGround | components.py:204-211 | with no arrow held, ground friction closes 30% of the gap to the ground's speed in the integrated velocity, before collisions (a bounce in the pass may still change it) |
| PlayerLemmas.WalkingSpeed | components.py:204-233 | holding one arrow, the speed that friction balances is the ground's speed plus PLAYER_SPEED / MOVING_FRICT |
| PlayerLemmas.ArrowPush | components.py:228-233 | the arrows add ±PLAYER_SPEED·mass to the horizontal acceleration |
| PlayerLemmas.DriveAcc | components.py:202-211 | friction adds the pull towards the target speed, with GROUND_FRICT iff there is no horizontal acceleration |
| PlayerLemmas.BoxSlowsDown | components.py:250-252 | a Box loses 30% of its horizontal speed to friction in the integrated velocity, before collisions (a side bounce in the pass may still negate it) |
| PlayerLemmas.LiftingMeans | components.py:234-241 | the keys push the player up exactly on a take-off within COYOTE frames or a long-jump boost within LONG_JUMP frames, with the full or 1/15 strength |
| PlayerLemmas.PlayerJumpState | components.py:201-243 | one update's effect on `jumping` and `last_on_ground` is the key handling followed by the landing bookkeeping |
| PlayerLemmas.JumpFrameOf | components.py:215-226 | landing resets the counter and ends the jump; otherwise the counter grows by one |
| PlayerLemmas.GroundNeverCleared | components.py:208-226 | once set, the player's ground reference survives every update |
| PlayerLemmas.JumpingNoLaunch | components.py:237-239 | while airborne, a jump under way prevents a fresh one |
| PlayerLemmas.AtMostOneJump | components.py:234-243 | without landing there is at most one take-off: no double jump |
| PlayerLemmas.LiftsBounded | components.py:234-243 | without landing, jump force is applied on at most LONG_JUMP − `last_on_ground` frames |
| PlayerLemmas.ReleaseEndsLift | components.py:242-243 | releasing space mid-jump ends the long-jump boost until the next landing |
| PlayerLemmas.LandingRearms | components.py:215-239 | after landing, space starts a fresh jump |
| Levels.Spawned | components.py:11-19 | a new entity of a class sits at `(x, y)` with its class's size and mass, at rest, except that Enemies and platforms move left |
| Levels.NewPlayer | main.py:17-18 | a fresh Player on the given level at the default spawn point, at rest, unflagged, not jumping and with no ground |
| Levels.TileOf | settings.py:102-138 | `LAYOUT_KEY`: a spawning symbol never spawns a Player, and it merges exactly when its class is one of the merging classes (GrassBrick, Brick, Lava, SlidingBrick) |
| Levels.RowMerge | main.py:38 | the row merge test: the last same-symbol entity of the row ends at `x` and is one cell high (its effect is in `LevelLemmas.SpawnEffects`) |
| Levels.ColMerge | main.py:40 | the column merge test: the last same-symbol entity of the column ends at `y` and is one cell wide (its effect is in `LevelLemmas.SpawnEffects`) |
| Levels.Widen | main.py:39 | widening moves only the entity's right edge, by the cell width, and leaves every other entity alone |
| Levels.Deepen | main.py:41 | deepening moves only the entity's bottom edge, by the cell height, and leaves every other entity alone |
| Levels.PyIndex | main.py:16 | Python indexing: defined iff `-len <= i < len`, the element `s[i]` for a non-negative index and `s[len + i]` for a negative one |
| Levels.CellStep | main.py:31-60 | one cell fails iff its column is past the first row's width or it is an `S` with no text left; otherwise the builder stays tracked |
| Levels.ScanRow | main.py:30-60 | scanning the rest of a row keeps the builder tracked and the player at handle 0 |
| Levels.ScanGrid | main.py:26-60 | the same for the remaining rows |
| Levels.BuildLevel | main.py:14-60 | a missing level, an empty layout and an empty first row fail with their own errors, exactly when they occur; a grid failure is a ragged row or a missing sign; a built level has the player at handle 0 |
| LevelLemmas.SpawnedGood | components.py:11-19 | a freshly spawned entity keeps the store invariants |
| LevelLemmas.AppendWorld | main.py:53-54 | appending a non-merged entity keeps the world exact and merged entities first |
| LevelLemmas.PrependWorld | main.py:47-52 | inserting a merged entity at the front keeps the same |
| LevelLemmas.CellSound | main.py:31-60 | one cell keeps the scan invariant |
| LevelLemmas.RowSound | main.py:30-60 | one row keeps the scan invariant |
| LevelLemmas.GridSound | main.py:26-60 | the rest of the grid keeps the scan invariant |
| LevelLemmas.BuildSound | main.py:14-60 | a built level satisfies the store invariants, its world holds every entity but the player exactly once with merged ones first, merged rectangles are strips, and the n-th sign shows the n-th text |
| LevelLemmas.SpawnEffects | main.py:33-54 | the row merge widens, the column merge deepens, and otherwise a new entity goes at the front of `world`; a non-merging symbol is appended (the step's cases spelled out one by one; the builder's invariants are in BuildSound) |
| LevelLemmas.MarkerEffects | main.py:55-60 | `@` moves the player, `U` sets the score position, the n-th `S` takes the n-th text or fails, and other characters change nothing (the step's cases spelled out one by one) |
| Frames.MoveLawful | main.py:96-97 | each item update keeps the store's size, every class and every removal flag |
| Frames.ItemsKeep | main.py:96-99 | the whole loop keeps the same |
| Frames.ItemsNext | main.py:96-99 | one more turn of the loop: the item moves and is appended to the kept list iff it survives |
| Frames.PlayerMoved | main.py:86 | moving the player keeps the store invariants and every body |
| Frames.KeptInWorld | main.py:96-99 | every kept handle is an item of the world, and not a player |
| Frames.KeptSubsequence | main.py:94-100 | the new world is a subsequence of the old one: order is kept |
| Frames.KeptExactly | main.py:96-99 | with no repeated handle, an item is kept iff it is not a player and its own update left it unflagged |
| Frames.AliveKept | main.py:96-99 | an item still alive after the loop, and not a player, was kept |
| Frames.KeptNoDup | main.py:94-100 | the new world has no repeated handle |
| Frames.FrameRestarts | main.py:87-93 | a frame restarts iff the moved player is flagged; a removed player restarts its own level, which takes precedence over the goal, and a player on the goal starts the next level |
| Frames.FrameKeeps | main.py:94-100 | a frame that does not restart keeps the store invariants and classes, and the new world is distinct non-player handles in old order |
| Frames.FrameStep | main.py:85-100 | one frame of the loop; it has no contract of its own, and its promises are `Frames.FrameRestarts`, `FrameKeeps`, `KeptExactly` and `KeptSubsequence` |
| GameLoop.Build | main.py:14-60 | the nested-loop scan returns exactly `BuildLevel` |
| GameLoop.Game.constructor | main.py:61-65 | empty globals, then `reset(1)`: the level-1 state, or the crash with the empty state |
| GameLoop.Game.Reset | main.py:14-60 | the new state is the built level, or on failure the old state with `crashed` set; the invariant is kept |
| GameLoop.Game.Collide | components.py:33-102 | the collision loop computes `HandleCollisions` and changes nothing else |
| GameLoop.Game.Integrated | components.py:112-121 | the method computes `BaseUpdate` |
| GameLoop.Game.PlayerStep | components.py:201-226 | the method computes `PlayerUpdate` |
| GameLoop.Game.SlidingStep | components.py:297-305 | the method computes `SlidingUpdate` |
| GameLoop.Game.UpdateEntity | components.py:112-305 | the class dispatch computes `Update` |
| GameLoop.Game.MoveItem | main.py:96-99 | one turn of the filter loop advances the store and the kept list as `Items` does, keeping the invariants |
| GameLoop.Game.MoveItems | main.py:94-100 | the loop leaves the store and the new world that `Items` gives for the whole world |
| GameLoop.Game.MovePlayer | main.py:86 | the player's move computes `PlayerMoved` against the current world and leaves the other globals alone |
| GameLoop.Game.MoveWorld | main.py:94-100 | when the player is not flagged, the world items move and the survivors become the world, as `FrameStep` gives |
| GameLoop.Game.Frame | main.py:85-100 | a crashed game does nothing; otherwise the frame restarts the right level or continues with the filtered world, keeping `Valid()` |

## Left out

- Rendering and I/O are left out: sprites, `set_animation`, `resize_sprite`, `rotate_animation`,
  `render`, the Lava frames, fonts, signs drawn on screen, and the keyboard and window events of
  the loop's first part.
- `Player.update_time` and `dt` are left out. They only drive animation timing.
- The keys held in a frame are a parameter (`Updates.Keys`). Quitting and the `r` key's restart
  are not modelled.
- Resizing the window is not modelled. It resets to level 1 with a new width and height.
- Every grid cell has the same integer size (`Config.cellW`, `Config.cellH`). `reset` rebinds
  `BRICK_W`/`BRICK_H` in main.py as float quotients. components.py imported its own copies from
  settings.py, so Brick constructors do not see the new values. The two sizes agree only when the
  layout has the size of the first level. The model uses one cell size for both.
- Masses are a parameter (`Config.mass`), one per class. The source computes
  `log(w*h/100) + 1` from the constructor size; the model only requires that they are positive.
- Floats are exact reals. Rounding is not modelled.
- pygame's float-to-int conversion in a `Rect` is the abstract function `Config.conv`. The 32-bit
  limit of a `Rect` coordinate is not modelled.
- The exception `reset` raises is modelled by the `crashed` state, with the old globals kept. In the
  source it ends the program, after `player` may already have been rebound.
- Updates.Update and the other per-class update functions state only the store's size in their own
  contract. What they do is stated by the lemmas about them (UpdateLemmas, PlayerLemmas).
- PlayerLemmas.LiftsBounded: counts the frames on which jump force is applied, not the height of
  the jump.
- GameLoop.Game.Frame: covers one frame. The loop's repetition is the caller's.
- Sprites that flip with the direction of motion are not modelled (rendering).
