# jgame core in Dafny

This project models the core of *jgame*, a small tile-based platformer
written in Java with a map editor beside it, and proves properties of the model.
It covers these parts:

- **Rooms and tiles.** A room is a grid of tiles of 16×16 pixels, held by `RoomMap`. Each cell has a
  collision type, an image number and a tile sheet. `TileManager` holds the sheets and finds a tile's
  cell, or one quarter of it, on a sheet of 32 columns.
- **The animation clock.** `Animation` is a list of frames, a delay counter and a once or loop flag.
- **Map objects.** `MapObject` covers the tile-probing collision with its four corner probes, the screen
  limits, the spawn point, kill, and the hit box and `touches`. Its variants are `Player`, `Mushroom`,
  `SpikeBlock`, `SparklyBoss`, `Bullet`, `SlowFall`, `Door` and `Key`. Each variant has its own
  acceleration, jumping, turning, shooting, death and removal timers.
- **The level.** A level tick moves every object and fires bullets. Objects then interact: they are
  picked up, hurt the player or teleport. Next comes combat between bullets and enemies, and finally the
  dead are swept out. This covers the screen shake, the text fonts and the score. `StateLevel1`,
  `StateLevel2` and `StateLevel6` each build their rooms and objects.
- **The state manager.** `GameStateManager` keeps its registry of states, creates levels lazily and
  switches between them. `PlayerSave` holds the score and the owned items, with saving and loading them.
- **The other screens and the game loop.** These are the main menu, the end screen, and `Game`/`GameMain`.
  `Game`/`GameMain` cover the window scale, the frame wait and the input routing.
- **The editor and file format.** The map editor has its input modes, cursor, tile and type painting,
  room creation, naming and the console. The level file format of `IoManager` maps a room's fields to
  the record attributes and back.

The file I/O layer is modelled only as far as its field mapping. A saved room loads back as the same room
when its numbers are ints and it is no taller than wide; a taller room loses its lower cells, and a
lemma shows one. Clocks, randomness and trigonometry are parameters of the
model. Images are numbers. Rendering is modelled only for the state it changes, such as the animation
ticks, the hit flashes and the muzzle flash.

Where the Java has an evident slip, the model keeps it as written and a lemma states its effect. Examples
are the bounds guards in `RoomMap` that compare the row with the column count, and the jump
cutoff in `Player`.

Dafny's `int` and `real` are unbounded and exact. Java's `(int)` cast truncates toward zero and its `%`
keeps the dividend's sign; both are written out in `java.dfy`. The player's counters wrap around
as 32-bit ints; elsewhere `int` overflow and `double` rounding are not modelled.

## Model

| member | source | states |
|---|---|---|
| Backgrounds.ScrollStaysInBand | src/background/Background.java:52-75 | a position inside [0, w] stays inside it after one scroll step by at most one period, and moves by exactly the velocity unless it wraps by one period |
| Backgrounds.StillBackground | src/background/Background.java:52-75 | with zero velocity the background does not move |
| Backgrounds.Background.constructor | src/background/Background.java:26-33 | a new background sits at the origin with zero velocity |
| Backgrounds.Background.SetPos | src/background/Background.java:41-44 | the position is reduced by the window size with Java's sign-keeping remainder, so it lies strictly inside (-W, W) × (-H, H); the velocity is unchanged |
| Backgrounds.Background.SetVec | src/background/Background.java:46-49 | the velocity is reduced the same way; the position is unchanged |
| Backgrounds.Background.Update | src/background/Background.java:52-75 | each axis moves by its velocity and wraps once by the level width in pixels (the vertical axis also wraps by the width) |
| TileMap.GridExt | src/tileMap/RoomMap.java:61-72 | two rooms of the same size whose cells agree are the same room |
| TileMap.EmptyGrid | src/tileMap/RoomMap.java:61-72 | the constructor's grid has the requested size and every cell is type 0, image 0, sheet 0 |
| TileMap.Update | src/tileMap/RoomMap.java:150-156 | writing one existing cell changes that cell only |
| TileMap.TypeAtPixel | src/tileMap/RoomMap.java:127-131 | the type under a pixel is the type of the cell found by truncating the pixel position divided by 16 |
| TileMap.WithType | src/tileMap/RoomMap.java:150-156 | setType raises IndexOutOfBounds exactly when its guard (x ≤ columns, y < columns) admits a cell the array lacks; otherwise it sets the type of an existing cell in a row below the column count and changes no other cell |
| TileMap.WithImageId | src/tileMap/RoomMap.java:185-191 | setImageId uses the same guard with the same exception cases and changes only the image number |
| TileMap.WithSet | src/tileMap/RoomMap.java:203-205 | setSet raises exactly for a cell outside the array and otherwise sets that cell's sheet |
| TileMap.WithTile | src/tileMap/RoomMap.java:115-118 | setTile raises exactly when its setImageId does, and otherwise sets both the image and the type of a guarded cell |
| TileMap.ImageIdAt | src/tileMap/RoomMap.java:170-177 | getImageId raises exactly for a row at or past the row count but below the column count, gives the cell's image inside, and 0 outside the guard |
| TileMap.SheetAt | src/tileMap/RoomMap.java:193-201 | getSet raises exactly outside the array and otherwise gives the cell's sheet |
| TileMap.TypeReadBack | src/tileMap/RoomMap.java:133-156 | a type written to an existing cell in a row below the column count reads back, and every other cell reads as before |
| TileMap.TypeDroppedBelowColumnCount | src/tileMap/RoomMap.java:150-156 | in a room with more rows than columns, a type written to a row at or past the column count is silently dropped |
| TileMap.RoomMap.Snapshot | src/tileMap/RoomMap.java:54-72 | the room's array, read as a well-formed grid of its own size |
| TileMap.RoomMap.Value | src/tileMap/RoomMap.java:54-88 | the room's name, description and grid as one value |
| TileMap.RoomMap.constructor | src/tileMap/RoomMap.java:61-72 | a new room has the given name, size and description and a fresh array of blank cells |
| TileMap.RoomMap.GetType | src/tileMap/RoomMap.java:133-142 | the type of an existing cell, 0 for any cell outside the room |
| TileMap.RoomMap.GetTypeAtPixel | src/tileMap/RoomMap.java:127-131 | the type of the cell under a pixel position |
| TileMap.RoomMap.GetImageId | src/tileMap/RoomMap.java:170-177 | the image number as ImageIdAt gives it, including the exception case |
| TileMap.RoomMap.GetImageIdAtPixel | src/tileMap/RoomMap.java:160-164 | the image number of the cell under a pixel position |
| TileMap.RoomMap.GetSet | src/tileMap/RoomMap.java:193-201 | the sheet number as SheetAt gives it |
| TileMap.RoomMap.Put | src/tileMap/RoomMap.java:154 | an in-place write of one cell changes the grid as Update does |
| TileMap.RoomMap.SetType | src/tileMap/RoomMap.java:146-156 | the array afterwards is WithType of the array before, or is unchanged and the status says IndexOutOfBounds |
| TileMap.RoomMap.SetImageId | src/tileMap/RoomMap.java:181-191 | the array afterwards is WithImageId of the array before, or the exception |
| TileMap.RoomMap.SetSet | src/tileMap/RoomMap.java:203-205 | the array afterwards is WithSet of the array before, or the exception |
| TileMap.RoomMap.SetTile | src/tileMap/RoomMap.java:115-118 | the array afterwards is WithTile of the array before, or the exception |
| TileMap.RoomMap.SetName | src/tileMap/RoomMap.java:78-80 | the name is replaced |
| TileMap.RoomMap.SetInfo | src/tileMap/RoomMap.java:86-88 | the description is replaced |
| TileSheets.SheetCellNumbers | src/tileManager/TileManager.java:93-98 | for a non-negative tile number, the remainder and quotient by the width give a cell on the sheet's width whose row-major number is that number |
| TileSheets.SheetCellOfNumber | src/tileManager/TileManager.java:93-98 | numbering a cell row by row and converting the number back gives the same cell |
| TileSheets.QuarterOffset | src/tileManager/TileManager.java:109-126 | a quarter's offset is 0 or half a tile on each axis, and any quarter number outside 1–3 picks the top-left corner |
| TileSheets.QuartersDistinct | src/tileManager/TileManager.java:100-126 | quarters 0 to 3 are four different corners |
| TileSheets.TileManager.constructor | src/tileManager/TileManager.java:28-43 | no sheet is loaded, the current sheet is 0 and the counts are 0 |
| TileSheets.TileManager.Load | src/tileManager/TileManager.java:53-76 | the sheet's tile counts become the manager's column and row counts, and the sheet is stored under its id, replacing any sheet already there |
| TileSheets.TileManager.Init | src/tileManager/TileManager.java:46-50 | sheets 0 and 1 are loaded in that order, so the counts are those of sheet 1 |
| TileSheets.TileManager.CellOf | src/tileManager/TileManager.java:78-91 | a missing sheet is a null dereference; a cell inside the manager's counts is used as is, any other becomes cell (1, 0); a result always lies on the sheet |
| TileSheets.TileManager.GetTileImage | src/tileManager/TileManager.java:78-91 | the image of the cell CellOf picks, failing exactly when CellOf does |
| TileSheets.TileManager.GetTileImageByNumber | src/tileManager/TileManager.java:93-98 | a width of 0 divides by zero; otherwise the image is on the sheet asked for and numbers back to the tile number, or is the default cell (1, 0) |
| TileSheets.TileManager.GetQuarterTileImage | src/tileManager/TileManager.java:103-137 | the half-tile image at the quarter's offset inside the cell CellOf picks |
| TileSheets.TileManager.GetQuarterTileImageByNumber | src/tileManager/TileManager.java:139-144 | a width of 0 divides by zero; otherwise the quarter image of the cell that the number names |
| TileSheets.TileManager.GetCurrentTileImage | src/tileManager/TileManager.java:147-149 | the lookup on the current sheet |
| TileSheets.TileManager.GetCurrentTileImageByNumber | src/tileManager/TileManager.java:151-156 | the lookup by number on the current sheet |
| TileSheets.TileManager.GetCurrentQuarterTileImageByNumber | src/tileManager/TileManager.java:166-171 | the quarter lookup by number on the current sheet |
| TileSheets.TileManager.SetTileSet | src/tileManager/TileManager.java:174-178 | the current sheet changes exactly when the new sheet number is below the number of sheets loaded |
| TileSheets.TileManager.GetNumSheets | src/tileManager/TileManager.java:184-186 | the number of sheets loaded |
| TileSheets.TileManager.GetTileSet | src/tileManager/TileManager.java:180-182 | the current sheet, the one SetTileSet last accepted |
| Animations.NewClip | src/mapObject/Animation.java:16-22 | a new clip loops, starts on its first frame with a cleared counter and the default delay limit of 20, and can be drawn when it has a frame |
| Animations.FrameRange | src/mapObject/Animation.java:24-36 | the range constructor's frames are n consecutive tile numbers starting at the first |
| Animations.Reloaded | src/mapObject/Animation.java:50-55 | loading frames returns to the first frame and the default delay limit but keeps the delay counter, the loop flag and playedOnce |
| Animations.Rewound | src/mapObject/Animation.java:95-97 | reset goes back to the first frame and clears nothing else |
| Animations.Advance | src/mapObject/Animation.java:75-89 | below the limit a tick only counts; at the limit the counter restarts; the clip stays drawable; playedOnce is never cleared, and it is only set by a play-once clip leaving its last frame |
| Animations.Drawn | src/mapObject/Animation.java:70-73 | getFrame ticks first and then returns a frame of the clip, the one the ticked clock points at |
| Animations.Iterate | src/mapObject/Animation.java:70-89 | k ticks keep the frames, the loop flag and the delay limit |
| Animations.LoopingClock | src/mapObject/Animation.java:75-89 | from a fresh start with delay limit d, a looping clip shows frame (k / d) mod n after k ticks, and its counter is k mod d |
| Animations.PlayOnceClock | src/mapObject/Animation.java:75-89 | from a fresh start, a play-once clip shows frame min(k / d, n - 1) after k ticks and has played once exactly when k / d ≥ n |
| Animations.Animation.Value | src/mapObject/Animation.java:4-11 | the object's fields as a clip value whose frame count is the array length |
| Animations.Animation.FromArray | src/mapObject/Animation.java:16-22 | the new object holds NewClip of the frames |
| Animations.Animation.FromRange | src/mapObject/Animation.java:24-36 | the loop fills a new array so that the object holds the range clip |
| Animations.Animation.PlayOnce | src/mapObject/Animation.java:38-40 | only the loop flag changes, to false |
| Animations.Animation.PlayLoop | src/mapObject/Animation.java:42-44 | only the loop flag changes, to true |
| Animations.Animation.SetDelayLimit | src/mapObject/Animation.java:46-48 | only the delay limit changes |
| Animations.Animation.LoadFrames | src/mapObject/Animation.java:50-55 | the object afterwards holds Reloaded of its old clip |
| Animations.Animation.LoadRange | src/mapObject/Animation.java:57-68 | the loop fills a new array so that the object holds Reloaded of its old clip with the range |
| Animations.Animation.NextFrame | src/mapObject/Animation.java:75-89 | the object afterwards holds Advance of its old clip |
| Animations.Animation.GetFrame | src/mapObject/Animation.java:70-73 | the object afterwards and the frame returned are Drawn of the old clip |
| Animations.Animation.HasPlayedOnce | src/mapObject/Animation.java:91-93 | the played-once flag of the clip, set for good once the clip has run past its last frame (Advance, PlayOnceClock) |
| Animations.Animation.Reset | src/mapObject/Animation.java:95-97 | the object afterwards holds Rewound of its old clip |
| Bodies.TuningOf | src/mapObject/Player.java:46-58 | the speed settings the constructors assign, one table per kind; the accelerations, speed limits, jump and fall speeds are never negative |
| Bodies.HitSize | src/mapObject/MapObject.java:38-40 | each kind's object-versus-object hit box, 16×16 unless its constructor resizes it, always of positive size |
| Bodies.EdgeTileIsJava | src/mapObject/MapObject.java:280-288 | the probe's edge tile is the pixel cast to int and then divided by 16 as an int |
| Bodies.EdgeTileNearZero | src/mapObject/MapObject.java:280-288 | because both roundings go toward zero, every edge pixel in (-16, 16) reads tile 0 |
| Bodies.EdgeTileBand | src/mapObject/MapObject.java:280-288 | on non-negative pixels the edge tile is the 16-pixel band that holds the pixel |
| Bodies.CentreProbesOwnTile | src/mapObject/MapObject.java:280-299 | at a tile centre both the west and the east edge read the centre's own tile |
| Bodies.CentreStaysInTile | src/mapObject/MapObject.java:308-314 | a position snapped to a tile centre maps back to that tile, so snapping again changes nothing |
| Bodies.PassXCases | src/mapObject/MapObject.java:192-226 | the horizontal pass snaps to the column centre and stops when the probed west or east corner is solid, moves the full velocity when free, and does nothing when no enabled direction is moving |
| Bodies.PassYCases | src/mapObject/MapObject.java:228-264 | the vertical pass likewise; landing on a solid tile also ends a fall |
| Bodies.Collide | src/mapObject/MapObject.java:173-275 | checkTileMapCollision writes only the temporary position, the destination, the velocity, the falling flag and the corners, and the destination is the position plus the velocity |
| Bodies.CollideHorizontal | src/mapObject/MapObject.java:192-226 | on the x axis a blocked move stops at the centre of the current column, a free one goes the full velocity, and an axis without a move stays put |
| Bodies.CollideVertical | src/mapObject/MapObject.java:228-270 | the same on the y axis, and the object falls afterwards exactly when the ground one pixel below is clear or it was falling and did not land |
| Bodies.Clamp | src/mapObject/MapObject.java:320-330 | a coordinate is clamped into [0, hi]: unchanged inside, hi above, 0 below |
| Bodies.LimitToScreen | src/mapObject/MapObject.java:316-333 | limitToScreen clamps only the temporary position, into [0, 304] × [0, 240] |
| Bodies.SetPos | src/mapObject/MapObject.java:116-119 | setPos changes only the position, reduces it strictly inside the window with the sign-keeping remainder, and keeps a position already inside |
| Bodies.ClampedCommit | src/mapObject/MapObject.java:125-131 | a temporary position clamped by limitToScreen is committed by setPos unchanged |
| Bodies.StopXMovement | src/mapObject/MapObject.java:335-349 | friction moves only the horizontal velocity toward 0 by v on the facing side without crossing 0, and never increases its size |
| Bodies.BaseKill | src/mapObject/MapObject.java:363-373 | kill costs one hit point; it reports a kill exactly when at most one was left, and then the object is dead; otherwise it is marked as hit |
| Bodies.KillAgain | src/mapObject/MapObject.java:363-373 | once a kill has succeeded, every later kill succeeds too and the object stays dead |
| Bodies.HitBox | src/mapObject/MapObject.java:162-168 | the hit box has the kind's size and is centred, by integer halving, on the position cast to int |
| Bodies.TouchesSymmetric | src/mapObject/MapObject.java:151-153 | intersect is symmetric |
| Bodies.TouchesByDistance | src/mapObject/MapObject.java:151-168 | two objects touch exactly when, on each axis, the distance between their box corners is less than the width of the box that lies first |
| Bodies.SetSpawnPoint | src/mapObject/MapObject.java:103-110 | setSpawnPoint puts both the spawn point and the position at the centre of the given tile and changes nothing else |
| Entities.RewindClips | src/mapObject/Player.java:166-186 | exactly the clips below the death clip other than the shown one are rewound; the rest are kept |
| Entities.Show | src/mapObject/Mushroom.java:113-125 | showing a clip changes only the current clip index and rewinds the other walking clips |
| Entities.Decay | src/mapObject/Player.java:151-163 | with no key held the speed moves toward 0 by the stop acceleration, never crossing 0 and keeping its sign |
| Entities.Accelerate | src/mapObject/Player.java:141-163 | the plus key wins over the minus key and adds the acceleration or hits the high cap; the minus key subtracts or hits the low cap; with neither key the speed decays |
| Entities.AccelerateCapped | src/mapObject/Player.java:141-163 | with caps at ±max, a speed within the cap stays within it |
| Entities.PlayerMove | src/mapObject/Player.java:137-188 | Player.move changes only the horizontal speed, by the integrator, and the clips; a speed within the cap of 2 stays within it |
| Entities.PlayerMoveClip | src/mapObject/Player.java:166-186 | the shown clip is walking right exactly when right is held, walking left exactly when only left is, otherwise standing in the facing direction; the other walking clips are rewound |
| Entities.MushroomMove | src/mapObject/Mushroom.java:85-127 | Mushroom.move uses the same integrator and keeps a speed within 2 within it |
| Entities.MushroomMoveClip | src/mapObject/Mushroom.java:113-125 | the mushroom's clip follows the sign of its new speed, not the keys, and the other walking clips are rewound |
| Entities.FallStep | src/mapObject/Player.java:217-237 | the falling speed never exceeds fallSpeedMax; an upward speed is slowed by jumpStopSpeed; with slow fall the downward speed is fallSlow, capped |
| Entities.Jump | src/mapObject/Player.java:190-239 | jump changes only the vertical speed and the jump fields; standing with jump released changes nothing; a fall follows FallStep and stays a fall; the jump start height is recorded exactly when a jump starts; a jump never stays under way past the tick it starts |
| Entities.JumpImpulse | src/mapObject/Player.java:204-215 | because the height test holds on the first tick, a started jump turns into a fall at once with speed -5.6 for the player and -4.8 for the mushroom |
| Entities.Shooting | src/mapObject/Player.java:122-135 | with fire held and the cooldown over, a shot is latched, the flash count becomes 2 and recoil is due; otherwise nothing changes |
| Entities.DidShoot | src/mapObject/Player.java:89-93 | didShoot reports the latched shot and clears it, changing nothing else |
| Entities.DidShootOnce | src/mapObject/Player.java:89-93 | two calls in a row never both report a shot |
| Entities.Recoil | src/mapObject/Player.java:245-299 | the recoil pass changes only the motion and always clears the recoil flag |
| Entities.RecoilFrame | src/mapObject/Player.java:259-298 | the recoil pass moves only the temporary x, records the pushed destination x and the corners probed there |
| Entities.RecoilHeld | src/mapObject/Player.java:247-291 | with no recoil due, or the key against the push held, the temporary position does not move |
| Entities.RecoilWest | src/mapObject/Player.java:269-279 | facing right the recoil pushes 2 pixels west, or snaps to the column centre when the west corners are solid |
| Entities.RecoilEast | src/mapObject/Player.java:281-291 | facing left it pushes 2 pixels east, or snaps on a solid east corner |
| Entities.Expire | src/mapObject/Player.java:113-117 | a dead object shows its death clip, its timer counts down, and it is flagged for removal once the timer is below 0 and, where the kind waits for it, the death clip has played once |
| Entities.Commit | src/mapObject/Player.java:106-107 | limitToScreen then setPos leaves the position equal to the clamped temporary position, inside [0, 304] × [0, 240] |
| Entities.PlayerUpdate | src/mapObject/Player.java:95-119 | alive, the player ends on screen with recoil cleared, life unchanged and no jump under way unless one already was; dead, it shows the death clip, counts down, and is removed once the clip has played and the timer is below 0 |
| Entities.PlayerLive | src/mapObject/Player.java:97-108 | the alive branch keeps the player on screen, clears recoil and keeps life |
| Entities.PlayerDying | src/mapObject/Player.java:109-118 | the dead branch shows the death clip, counts down and removes the player after the clip and the timer |
| Entities.MushroomCollide | src/mapObject/Mushroom.java:177-256 | the override resolves the motion exactly as the base collision does and changes nothing but the motion, the keys and the facing |
| Entities.MushroomTurns | src/mapObject/Mushroom.java:195-223 | blocked on the left the mushroom holds right, releases left and faces right; blocked on the right, the mirror image; not blocked, only the motion changes |
| Entities.MushroomUpdate | src/mapObject/Mushroom.java:63-83 | alive, it ends on screen with life unchanged; dead, the death clip, the countdown, and removal after the clip has played and the timer is below 0 |
| Entities.MushroomLive | src/mapObject/Mushroom.java:65-71 | the alive branch keeps the mushroom on screen and its life unchanged |
| Entities.MushroomDying | src/mapObject/Mushroom.java:72-81 | the dead branch shows the death clip, counts down, and removes after the clip and the timer |
| Entities.SpikeCollide | src/mapObject/SpikeBlock.java:79-118 | the override keeps x and the horizontal speed and resolves only the vertical move |
| Entities.SpikeCollideIsBase | src/mapObject/SpikeBlock.java:79-118 | the spike block's collision equals the base collision with only the down axis enabled |
| Entities.SpikeMove | src/mapObject/SpikeBlock.java:70-74 | SpikeBlock.move shows the standby clip and rewinds exactly the left and right clips |
| Entities.SpikeUpdate | src/mapObject/SpikeBlock.java:49-68 | the horizontal speed changes only by the death friction; alive it ends on screen; dead, the death clip, the countdown and the gated removal |
| Entities.SpikeStaysPut | src/mapObject/SpikeBlock.java:49-56 | a spike block at rest on screen stays exactly where it is |
| Entities.BossMove | src/mapObject/SparklyBoss.java:98-164 | the boss's speed follows the integrator with acceleration 0.2 and its sinusoidal caps, the counter steps by 1, the standby clip is shown, and the move goes to the temporary position with no tile check |
| Entities.BossSpeedBounded | src/mapObject/SparklyBoss.java:105-154 | with sine and cosine in [-1, 1], the speed stays within 3.5 horizontally and 6 vertically |
| Entities.BossLimitX | src/mapObject/SparklyBoss.java:74-82 | past x = 306 the horizontal speed reverses and the boss heads left; below 14 it reverses and heads right (the facing ends up right in both cases, because keyRight is called second); otherwise nothing changes |
| Entities.BossLimitY | src/mapObject/SparklyBoss.java:84-92 | past y = 242 the vertical speed reverses and up is held; below 14 it reverses and down is held; otherwise nothing changes |
| Entities.BossLimit | src/mapObject/SparklyBoss.java:66-96 | the bounce changes only the speed, the keys and the facing, one axis at a time as above, and never clamps the position |
| Entities.BossUpdate | src/mapObject/SparklyBoss.java:48-64 | alive, the boss keeps its life and steps its counter; dead, it commits its temporary position, shows the death clip and is removed once the timer is below 0, whether or not the clip has played |
| Entities.DeadBossStill | src/mapObject/SparklyBoss.java:55-62 | a dead boss whose position is its committed temporary position does not move |
| Entities.BulletLimit | src/mapObject/Bullet.java:66-82 | only x is checked: a bullet off either side is clamped and is killed and flagged for removal; one inside is unchanged |
| Entities.BulletUpdate | src/mapObject/Bullet.java:43-64 | an alive bullet moves by its speed with no tile check, and it stays alive exactly when its new x is on screen; a dead bullet is flagged for removal |
| Entities.Kill | src/mapObject/SlowFall.java:28-33 | pickups are only flagged for removal and report a kill; every other kind loses a hit point as BaseKill says; nothing else changes |
| Entities.BulletDiesAtOnce | src/mapObject/Bullet.java:14-41 | a bullet has no hit points, so one kill always succeeds and leaves it dead |
| Entities.KeyRight | src/mapObject/Player.java:344-350 | keyRight sets the key; the player turns right unless fire is held, the mushroom and the boss always turn, others keep their facing |
| Entities.KeyLeft | src/mapObject/Player.java:352-358 | keyLeft is the mirror image of keyRight |
| Entities.KeyUp | src/mapObject/MapObject.java:395-397 | only the up key changes |
| Entities.KeyDown | src/mapObject/MapObject.java:399-401 | only the down key changes |
| Entities.KeyJump | src/mapObject/MapObject.java:407-409 | only the jump key changes |
| Entities.KeyFire | src/mapObject/MapObject.java:403-405 | only the fire key changes |
| Entities.Update | src/mapObject/MapObject.java:125-131 | update keeps the object drawable and its kind; doors, pickups and keys do nothing; nothing comes back to life |
| Entities.Tick | src/mapObject/Animation.java:70-73 | k getFrame calls advance only the current clip, by k ticks |
| Entities.IterateValid | src/mapObject/Animation.java:75-89 | any number of ticks keeps a clip drawable |
| Entities.Render | src/mapObject/SparklyBoss.java:166-187 | render ticks the current clip once (nine times for the boss's 3×3 tiles); the mushroom, spike block and boss clear their hit flash; the player counts its muzzle flash down to 0; nothing else changes |
| Entities.Fresh | src/mapObject/MapObject.java:92-96 | the base constructor leaves the object alive, not removed, on its first clip |
| Entities.NewPlayer | src/mapObject/Player.java:34-87 | a new player faces right, spawns at (24, 232), has a death timer of 50, and only its death clip plays once |
| Entities.NewMushroom | src/mapObject/Mushroom.java:16-61 | a new mushroom has 4 hit points, is worth 10000, has a death timer of 100 and spawns at (50, 50) |
| Entities.NewSpikeBlock | src/mapObject/SpikeBlock.java:16-47 | a new spike block has 50 hit points, is worth 25, has a death timer of 100, spawns at (50, 50) and stands still |
| Entities.NewBoss | src/mapObject/SparklyBoss.java:15-46 | a new boss has 40 hit points, is worth 1000000, has a death timer of 200, and its death clip loops |
| Entities.NewBullet | src/mapObject/Bullet.java:14-41 | a new bullet spawns at the given point with speed 5 in the facing direction and a vertical aim in [-0.13, 0.07) for a random draw in [0, 1) |
| Entities.NewSlowFall | src/mapObject/SlowFall.java:12-22 | a new slow-fall pickup sits at (50, 50) |
| Entities.NewDoor | src/mapObject/Door.java:11-21 | a new door sits at (50, 50) |
| Entities.NewKey | src/gameState/StateLevel2.java:63-65 | a new key pickup sits at (50, 50); Key.java is not part of this model, so it is built like the slow-fall pickup |
| Entities.Placed | src/gameState/StateLevel1.java:58-62 | a placed object sits at the centre of its tile with its collision action and teleport target set, and stays drawable |
| Objects.MapObject.constructor | src/mapObject/MapObject.java:92-96 | the new object holds exactly the state its subclass constructor builds |
| Objects.MapObject.CheckHitBoxCorners | src/mapObject/MapObject.java:280-299 | only the four corner flags change, to the solidity of the four probed tiles |
| Objects.MapObject.HorizontalPass | src/mapObject/MapObject.java:192-226 | the new x and x speed are PassX of the old state; only the corner flags change on the object |
| Objects.MapObject.VerticalPass | src/mapObject/MapObject.java:228-264 | the new y, y speed and falling flag are PassY of the old state |
| Objects.MapObject.CheckTileMapCollision | src/mapObject/MapObject.java:173-275 | the motion afterwards is Collide of the motion before |
| Objects.MapObject.GroundPass | src/mapObject/MapObject.java:265-270 | the ground probe one pixel below the destination sets the falling flag when neither south corner is solid |
| Objects.MapObject.LimitToScreen | src/mapObject/MapObject.java:316-333 | the motion afterwards is LimitToScreen of the motion before |
| Objects.MapObject.SetPos | src/mapObject/MapObject.java:116-119 | the motion afterwards is SetPos of the motion before |
| Objects.MapObject.StopXMovement | src/mapObject/MapObject.java:335-349 | the motion afterwards is StopXMovement for the object's facing |
| Objects.MapObject.SetSpawnPoint | src/mapObject/MapObject.java:103-110 | the motion afterwards is SetSpawnPoint of the motion before |
| Objects.MapObject.SetSpawnPos | src/mapObject/MapObject.java:98-101 | the spawn point and the position both become the point given, and nothing else changes |
| Objects.MapObject.SetActionOnCollision | src/mapObject/MapObject.java:141-143 | only the collision action changes |
| Objects.MapObject.GetHitBox | src/mapObject/MapObject.java:162-168 | a box of the kind's hit size centred, by integer halving, on the truncated position |
| Objects.MapObject.Intersect | src/mapObject/MapObject.java:151-153 | two objects intersect exactly when their bodies touch (Bodies.Touches), and the test is symmetric |
| Objects.MapObject.SetTeleport | src/mapObject/MapObject.java:145-147 | only the teleport target changes |
| Objects.MapObject.RemoveMe | src/mapObject/MapObject.java:375-377 | only the removal flag changes, to true |
| Objects.MapObject.Kill | src/mapObject/MapObject.java:363-373 | the state afterwards and the result are Entities.Kill of the state before |
| Objects.MapObject.KeyRight | src/mapObject/MapObject.java:387-389 | the state afterwards is Entities.KeyRight, with each subclass's override |
| Objects.MapObject.KeyLeft | src/mapObject/MapObject.java:391-393 | the state afterwards is Entities.KeyLeft, with each subclass's override |
| Objects.MapObject.KeyUp | src/mapObject/MapObject.java:395-397 | the state afterwards is Entities.KeyUp |
| Objects.MapObject.KeyDown | src/mapObject/MapObject.java:399-401 | the state afterwards is Entities.KeyDown |
| Objects.MapObject.KeyJump | src/mapObject/MapObject.java:407-409 | the state afterwards is Entities.KeyJump |
| Objects.MapObject.KeyFire | src/mapObject/MapObject.java:403-405 | the state afterwards is Entities.KeyFire |
| Objects.MapObject.ResetClip | src/mapObject/Animation.java:95-97 | only the chosen clip is rewound |
| Objects.MapObject.Integrate | src/mapObject/Player.java:141-163 | the loop-free integrator computes Entities.Accelerate |
| Objects.MapObject.PlayerMove | src/mapObject/Player.java:137-188 | the state afterwards is Entities.PlayerMove of the state before |
| Objects.MapObject.ShowPlayerClip | src/mapObject/Player.java:166-186 | the current clip is PlayerClip of the keys and the facing, and the other walking clips are rewound |
| Objects.MapObject.MushroomMove | src/mapObject/Mushroom.java:85-127 | the state afterwards is Entities.MushroomMove |
| Objects.MapObject.ShowWalkerClip | src/mapObject/Mushroom.java:113-125 | the current clip follows the sign of the speed, and the other walking clips are rewound |
| Objects.MapObject.SpikeMove | src/mapObject/SpikeBlock.java:70-74 | the state afterwards is Entities.SpikeMove |
| Objects.MapObject.Jump | src/mapObject/Player.java:190-239 | the state afterwards is Entities.Jump |
| Objects.MapObject.Shooting | src/mapObject/Player.java:122-135 | the state afterwards is Entities.Shooting |
| Objects.MapObject.DidShoot | src/mapObject/Player.java:89-93 | the state afterwards and the result are Entities.DidShoot |
| Objects.MapObject.Recoil | src/mapObject/Player.java:245-299 | the state afterwards is Entities.Recoil |
| Objects.MapObject.RecoilPass | src/mapObject/Player.java:259-291 | the recoil's tile test gives the new temporary x, and only the corner flags change |
| Objects.MapObject.MushroomCollision | src/mapObject/Mushroom.java:177-256 | the state afterwards is Entities.MushroomCollide |
| Objects.MapObject.SpikeCollision | src/mapObject/SpikeBlock.java:79-118 | the motion afterwards is Entities.SpikeCollide |
| Objects.MapObject.BossMove | src/mapObject/SparklyBoss.java:98-164 | the state afterwards is Entities.BossMove |
| Objects.MapObject.BossLimit | src/mapObject/SparklyBoss.java:66-96 | the state afterwards is Entities.BossLimit |
| Objects.MapObject.BounceX | src/mapObject/SparklyBoss.java:74-82 | the state afterwards is Entities.BossLimitX |
| Objects.MapObject.BounceY | src/mapObject/SparklyBoss.java:84-92 | the state afterwards is Entities.BossLimitY |
| Objects.MapObject.BulletMovement | src/mapObject/Bullet.java:54-64 | only the temporary position changes, to the position plus the speed |
| Objects.MapObject.BulletLimit | src/mapObject/Bullet.java:66-82 | the state afterwards is Entities.BulletLimit |
| Objects.MapObject.Expire | src/mapObject/Player.java:113-117 | the state afterwards is Entities.Expire |
| Objects.MapObject.PlayerUpdate | src/mapObject/Player.java:95-119 | the state afterwards is Entities.PlayerUpdate |
| Objects.MapObject.PlayerLive | src/mapObject/Player.java:97-108 | the state afterwards is Entities.PlayerLive |
| Objects.MapObject.PlayerDying | src/mapObject/Player.java:109-118 | the state afterwards is Entities.PlayerDying |
| Objects.MapObject.MushroomUpdate | src/mapObject/Mushroom.java:63-83 | the state afterwards is Entities.MushroomUpdate |
| Objects.MapObject.MushroomLive | src/mapObject/Mushroom.java:65-71 | the state afterwards is Entities.MushroomLive |
| Objects.MapObject.MushroomDying | src/mapObject/Mushroom.java:72-81 | the state afterwards is Entities.MushroomDying |
| Objects.MapObject.SpikeUpdate | src/mapObject/SpikeBlock.java:49-68 | the state afterwards is Entities.SpikeUpdate |
| Objects.MapObject.BossUpdate | src/mapObject/SparklyBoss.java:48-64 | the state afterwards is Entities.BossUpdate |
| Objects.MapObject.BulletUpdate | src/mapObject/Bullet.java:43-52 | the state afterwards is Entities.BulletUpdate |
| Objects.MapObject.Update | src/mapObject/MapObject.java:125-131 | the state afterwards is Entities.Update, dispatched on the kind, and stays drawable |
| Objects.MapObject.GetFrame | src/mapObject/Animation.java:70-73 | only the current clip ticks once, and the frame returned is its current frame afterwards |
| Objects.MapObject.DrawTiles | src/mapObject/SparklyBoss.java:171-183 | the nested loop ticks the current clip exactly nine times |
| Objects.MapObject.DrawHit | src/mapObject/MapObject.java:449-460 | the hit flag is cleared, and nothing else changes |
| Objects.MapObject.Render | src/mapObject/Player.java:301-342 | the state afterwards is Entities.Render |
| Objects.CollideParts | src/mapObject/MapObject.java:173-275 | Collide is the horizontal pass, the vertical pass and the ground probe put together |
| Objects.RecoilParts | src/mapObject/Player.java:245-299 | Recoil is the recoil pass's new x written into the temporary position |
| Objects.NewObject | src/gameState/StateLevel1.java:58-71 | a new object of a kind is fresh and holds that kind's constructor state |
| Objects.New | src/mapObject/Mushroom.java:16-61 | the constructor state of each kind is drawable and of that kind |
| Objects.NewBulletObject | src/mapObject/Bullet.java:14-41 | a new bullet object is fresh and holds NewBullet's state |
| Scenes.Interaction | src/gameState/GameState.java:152-202 | only a touching object acts; the store's counters are untouched; the object and the player are either unchanged or killed |
| Scenes.InteractionApart | src/gameState/GameState.java:152-155 | an object that does not touch the player changes nothing and takes no door |
| Scenes.DoorNeedsKey | src/gameState/GameState.java:160-189 | a door is taken if and only if the player touches it holding up and owns the key; it leads to the door's target and leaves the store alone |
| Scenes.PickupCollected | src/gameState/GameState.java:163-198 | a touched key or slow-fall pickup, with up held, is owned afterwards and its object is killed and flagged for removal; the player is unchanged |
| Scenes.DamageUnlessUp | src/gameState/GameState.java:156-159 | a damaging object kills the player unless up is held, counts no death, and is itself unchanged |
| Scenes.ObjectTurn | src/gameState/GameState.java:207-210 | one interactable's turn changes only that interactable, the player and the inventory, and takes at most one door |
| Scenes.Interactions | src/gameState/GameState.java:206-211 | the first loop over n interactables leaves the later ones, the enemies and the bullets alone, and takes at most n doors |
| Scenes.InteractionsStep | src/gameState/GameState.java:206-211 | one more turn of the first loop is the next interactable's turn on the state so far, its door appended |
| Scenes.UpdateAll | src/gameState/GameState.java:213-222 | updating a list keeps its length and kinds and never revives a dead object |
| Scenes.Spawn | src/gameState/GameState.java:224-234 | didShoot() is asked once; a latched shot appends exactly one bullet and nothing else but the player and the bullets changes |
| Scenes.SpawnedBullet | src/gameState/GameState.java:224-234 | the new bullet is alive, starts 4 px ahead on the facing side and 2 px down, and flies the way the player faces |
| Scenes.DoorAndKey | src/gameState/StateLevel6.java:156-169 | the boss leaves a door to the end screen and a key |
| Scenes.Credit | src/gameState/GameState.java:245-246 | a kill adds one to the kill count and the enemy's score to the score, in 32-bit arithmetic, and leaves deaths and inventory alone |
| Scenes.Shot | src/gameState/GameState.java:238-250 | a bullet-enemy pair changes only that bullet and that enemy, the store, and may only append interactables |
| Scenes.ShotHits | src/gameState/GameState.java:238-250 | a live touching pair kills the bullet and hurts the enemy; the kill is credited exactly when the enemy's kill succeeds, and on the boss level the door and key appear |
| Scenes.ShotMisses | src/gameState/GameState.java:240-241 | a pair with a dead side or not touching changes nothing |
| Scenes.BulletHitsOnce | src/gameState/GameState.java:238-250 | a bullet is dead after its first hit and hits no second enemy |
| Scenes.EnemyCreditedOnce | src/gameState/GameState.java:238-250 | an enemy whose kill succeeded is not credited by a later bullet |
| Scenes.Shots | src/gameState/GameState.java:239-250 | the inner combat loop changes only enemy j among the enemies and keeps the list lengths |
| Scenes.ShotsStep | src/gameState/GameState.java:239-250 | one more bullet of the inner loop is one more Shot |
| Scenes.Clash | src/gameState/GameState.java:252-256 | a player-enemy clash changes only the player and the counters |
| Scenes.DeathCountedOnce | src/gameState/GameState.java:252-256 | a touching live player dies, one death is counted, and a further clash changes nothing |
| Scenes.Combat | src/gameState/GameState.java:237-257 | the combat loop keeps the enemy and bullet lists' lengths and every object updatable |
| Scenes.CombatStep | src/gameState/GameState.java:237-257 | one more enemy of the combat loop meets every bullet and then the player |
| Scenes.Swept | src/gameState/GameState.java:259-271 | the remove-in-loop sweep never grows a list |
| Scenes.Kept | src/gameState/GameState.java:259-271 | the unflagged elements in order never outnumber the list |
| Scenes.SweptIsKept | src/gameState/GameState.java:259-271 | with no two flagged neighbours the sweep keeps exactly the unflagged elements, in order |
| Scenes.SweptKeepsUnflagged | src/gameState/GameState.java:259-271 | every unflagged element survives the sweep |
| Scenes.SweepSkipsSecond | src/gameState/GameState.java:259-271 | of two flagged neighbours the second survives the tick |
| Scenes.SweepRemoveStep | src/gameState/GameState.java:260-263 | removing at slot i and stepping on agrees with the sweep of the rest |
| Scenes.SweepKeepStep | src/gameState/GameState.java:260-263 | passing an unflagged element agrees with the sweep of the rest |
| Scenes.SweptValid | src/gameState/GameState.java:259-271 | the sweep keeps only updatable objects |
| Scenes.Moved | src/gameState/GameState.java:206-222 | the movement half keeps the enemy count and takes at most one door per interactable |
| Scenes.Advanced | src/gameState/GameState.java:213-222 | the enemies, the player and the bullets update and nothing else changes |
| Scenes.Sweep | src/gameState/GameState.java:259-271 | only the bullets and interactables are swept, and neither list grows |
| Scenes.Tick | src/gameState/GameState.java:204-272 | a whole tick keeps every object updatable, never sweeps an enemy, and takes at most one door per interactable |
| Scenes.At | src/gameState/StateLevel1.java:59 | placing a new object on a tile changes only its position and keeps it updatable |
| Scenes.Level1 | src/gameState/StateLevel1.java:53-75 | level 1's spawn table is a well-formed scene |
| Scenes.Level2Objects | src/gameState/StateLevel2.java:54-88 | level 2's interactables are updatable |
| Scenes.Level2 | src/gameState/StateLevel2.java:52-104 | level 2's spawn table is a well-formed scene |
| Scenes.Level6 | src/gameState/StateLevel6.java:45-58 | level 6's spawn table is a well-formed scene |
| Scenes.Populate | src/gameState/StateLevel1.java:77-82 | rebuilding a level's objects gives a well-formed scene without bullets |
| Scenes.Level1Start | src/gameState/StateLevel1.java:22-75 | a new level 1 has all counters 0, owns the key and not slow-fall |
| Scenes.Level1Rebuilt | src/gameState/StateLevel1.java:53-82 | rebuilding level 1 keeps the counters, grants the key again and places only the door to level 2 |
| Scenes.Level2SlowFall | src/gameState/StateLevel2.java:67-72 | level 2 places its slow-fall pickup if and only if slow-fall is not owned, and does not touch the store |
| Scenes.Level2Table | src/gameState/StateLevel2.java:57-88 | level 2's door leads to level 3, its key gives the key, and its four spike blocks do damage |
| Scenes.Level6Start | src/gameState/StateLevel6.java:45-58 | level 6 starts with no interactables and one live boss holding left and up |
| Scenes.PlayerKey | src/gameState/GameState.java:535-575 | each game key sets or clears exactly its own flag of the player; other keys change nothing |
| Scenes.ReleaseUndoesPress | src/gameState/GameState.java:535-575 | pressing and releasing up, down, jump or fire restores a player that held none of them |
| Scenes.RenderAll | src/gameState/GameState.java:362-387 | drawing a list keeps every object's place and kind |
| Scenes.RenderLive | src/gameState/StateLevel6.java:171-199 | an enemy flagged for removal is not drawn and keeps its clip; every other is drawn |
| Levels.Opening | src/gameState/GameState.java:47-48 | a level constructor takes the key away; level 1 also zeroes every counter (StateLevel1.java:23) |
| Levels.UpdateList | src/gameState/GameState.java:213-222 | the update loop over a list gives UpdateAll's list |
| Levels.SweepList | src/gameState/GameState.java:259-271 | the index loop with remove(i) and ++i gives the sweep Swept |
| Levels.RenderList | src/gameState/GameState.java:362-387 | the render loop gives RenderAll, or RenderLive when flagged objects are skipped |
| Levels.Level.constructor | src/gameState/StateLevel1.java:16-28 | a new level holds its spawn table built on the store as the constructors leave it |
| Levels.Level.InitMapObjects | src/gameState/StateLevel1.java:53-75 | initMapObjects builds the level's spawn table |
| Levels.Level.InitLevel1 | src/gameState/StateLevel1.java:53-75 | level 1's objects are appended one by one into Level1's scene, the key granted |
| Levels.Level.InitLevel2 | src/gameState/StateLevel2.java:52-104 | level 2's objects are appended into Level2's scene |
| Levels.Level.Level2Interactables | src/gameState/StateLevel2.java:54-88 | the interactables are those of Level2Objects for the slow-fall power as owned now |
| Levels.Level.InitLevel6 | src/gameState/StateLevel6.java:45-58 | level 6's objects are appended into Level6's scene |
| Levels.Level.Reset | src/gameState/StateLevel1.java:77-82 | reset drops the bullets and enemies and rebuilds the spawn table on the current store |
| Levels.Level.ActionTeleport | src/gameState/StateLevel1.java:84-91 | the door is taken, to its target, exactly when the key is owned |
| Levels.Level.ActionPickup | src/gameState/GameState.java:190-198 | the item is owned afterwards and only the pickup is killed |
| Levels.Level.ActionDamage | src/gameState/GameState.java:200-202 | only the player is killed |
| Levels.Level.MapObjectInteraction | src/gameState/GameState.java:152-181 | the in-place interaction agrees with Interaction on the player, the object, the store and the door |
| Levels.Level.UpdateObject | src/gameState/GameState.java:208 | only interactable i takes its update |
| Levels.Level.ObjectTurn | src/gameState/GameState.java:207-210 | one turn agrees with ObjectTurn |
| Levels.Level.InteractAll | src/gameState/GameState.java:206-211 | the first loop agrees with Interactions over every interactable |
| Levels.Level.InteractLoop | src/gameState/GameState.java:206-211 | the loop ends in the state Interactions gives for the whole list |
| Levels.Level.InteractNext | src/gameState/GameState.java:207-210 | one pass moves the state from Interactions after i turns to after i + 1 |
| Levels.Level.SpawnBullet | src/gameState/GameState.java:224-234 | the spawn agrees with Spawn |
| Levels.Level.SpawnDoorAndKey | src/gameState/StateLevel6.java:156-169 | the door and key are appended and nothing else changes |
| Levels.Level.HitTest | src/gameState/GameState.java:240-249 | one pair agrees with Shot |
| Levels.Level.FireAt | src/gameState/GameState.java:239-250 | the inner loop agrees with Shots over every bullet |
| Levels.Level.PlayerVsEnemy | src/gameState/GameState.java:252-256 | the clash agrees with Clash |
| Levels.Level.ResolveCollisions | src/gameState/GameState.java:237-257 | the combat loop agrees with Combat over every enemy |
| Levels.Level.CombatNext | src/gameState/GameState.java:238-256 | one pass moves the state from Combat after j enemies to after j + 1 |
| Levels.Level.Update | src/gameState/GameState.java:204-272 | a tick agrees with Tick, the boss rules on level 6, and returns the doors taken and whether a shot was fired |
| Levels.Level.Move | src/gameState/GameState.java:206-222 | the movement half agrees with Moved |
| Levels.Level.Advance | src/gameState/GameState.java:213-222 | the update loops agree with Advanced |
| Levels.Level.SweepAll | src/gameState/GameState.java:259-271 | the closing sweep agrees with Sweep |
| Levels.Level.KeyPressedPlayer | src/gameState/GameState.java:535-554 | a press sets the key's flag on the player and nothing else |
| Levels.Level.KeyReleased | src/gameState/GameState.java:556-575 | a release clears the key's flag on the player and nothing else |
| Levels.Level.KeyPressed | src/gameState/StateLevel1.java:111-119 | keys go to the player until it is removable; then fire rebuilds the level and other keys do nothing |
| Levels.Level.RenderMapObjects | src/gameState/StateLevel6.java:171-199 | every clip ticks once, except on level 6 those of enemies flagged for removal |
| Progress.Get | src/gameState/PlayerSave.java:31-33 | a registered counter reads back its value; an unknown one throws, as unboxing a missing value does |
| Progress.Has | src/gameState/PlayerSave.java:60-62 | a registered item reads back whether it is owned; an unknown one throws |
| Progress.Init | src/gameState/PlayerSave.java:20-29 | exactly the three counters with the given values, and exactly the two items, neither owned |
| Progress.AddPoints | src/gameState/PlayerSave.java:41-45 | a known counter goes up by the points with 32-bit wrap-around and nothing else changes; an unknown one throws |
| Progress.Reset | src/gameState/PlayerSave.java:48-50 | the key is no longer owned; the counters and other items stay |
| Progress.Add | src/gameState/PlayerSave.java:56-58 | the item is owned afterwards, nothing else changes, and adding an owned item is a no-op |
| Progress.AddPointIsAddOne | src/gameState/PlayerSave.java:35-45 | the one-argument addPoint adds one, wrapping INT_MAX to INT_MIN |
| PlayerSaves.PlayerSave.constructor | src/gameState/PlayerSave.java:20-29 | a new store is Init's |
| PlayerSaves.PlayerSave.Init | src/gameState/PlayerSave.java:20-29 | the store becomes Init's |
| PlayerSaves.PlayerSave.Get | src/gameState/PlayerSave.java:31-33 | the method agrees with Get |
| PlayerSaves.PlayerSave.Has | src/gameState/PlayerSave.java:60-62 | the method agrees with Has |
| PlayerSaves.PlayerSave.AddPoints | src/gameState/PlayerSave.java:41-45 | the read-add-write agrees with AddPoints, leaving the store alone when it throws |
| PlayerSaves.PlayerSave.AddPoint | src/gameState/PlayerSave.java:35-39 | the read-increment-write agrees with AddPoint |
| PlayerSaves.PlayerSave.Reset | src/gameState/PlayerSave.java:48-50 | the store becomes Reset's |
| PlayerSaves.PlayerSave.HardReset | src/gameState/PlayerSave.java:52-54 | the store becomes Init(0, 0, 0) |
| PlayerSaves.PlayerSave.Add | src/gameState/PlayerSave.java:56-58 | the store becomes Add's |
| IoManagers.InfoStep | src/ioManager/IoManager.java:270-287 | one child of the information element: a bad width or height throws NumberFormatException; a recognised field counts one more; anything else changes nothing |
| IoManagers.RoomFromInfo | src/ioManager/IoManager.java:288-292 | more than three counted fields build the room from them, throwing NegativeArraySizeException exactly for a negative size; otherwise the default 20×16 room |
| IoManagers.TileStep | src/ioManager/IoManager.java:301-316 | one child of a tile element: only a bad number throws, and a non-element changes nothing |
| IoManagers.WriteTile | src/ioManager/IoManager.java:317-319 | the three writes raise IndexOutOfBoundsException exactly for a cell outside the array and never change the room's size |
| IoManagers.UpdateTwice | src/ioManager/IoManager.java:317-319 | a second write to a cell replaces the first |
| IoManagers.WriteTileEffect | src/ioManager/IoManager.java:317-319 | no write lands when one raises; below the column count the cell becomes the three fields; in a row at or past it only the sheet is written |
| IoManagers.InfoRun | src/ioManager/IoManager.java:264-293 | loadRoomInfo replaces the room unless a field raised, in which case the old room stays |
| IoManagers.TileRun | src/ioManager/IoManager.java:295-320 | with no room yet, loadToTile raises NullPointerException once its fields read |
| IoManagers.TilesRun | src/ioManager/IoManager.java:245-254 | the tiles loop keeps the room well formed |
| IoManagers.RootRun | src/ioManager/IoManager.java:237-258 | the loop over the room element's children keeps the room well formed |
| IoManagers.DocRun | src/ioManager/IoManager.java:231-262 | processNode keeps the room well formed |
| IoManagers.Loaded | src/ioManager/IoManager.java:198-225 | load gives false exactly without a file name and otherwise true unless processing throws; rejected text or a non-room document leaves the room alone |
| IoManagers.CellOfIndex | src/ioManager/IoManager.java:130-170 | tile number k lies in the room and names the cell numbered k column by column |
| IoManagers.TileLeafReads | src/ioManager/IoManager.java:301-316 | a leaf holding an int sets exactly its own field |
| IoManagers.TileNodes | src/ioManager/IoManager.java:130-170 | saveRoom writes one tile element per cell |
| IoManagers.TileOrder | src/ioManager/IoManager.java:130-170 | the cell (x, y) is tile element x * rows + y |
| IoManagers.Overlay | src/ioManager/IoManager.java:245-254 | the room after tiles numbered below k were loaded: those cells as saved, the rest blank |
| IoManagers.InfoReadsBack | src/ioManager/IoManager.java:98-123 | the saved information element reads back as the room's four fields, all counted |
| IoManagers.TileReadsBack | src/ioManager/IoManager.java:135-167 | a saved tile element reads back as its cell's coordinates and fields |
| IoManagers.LeavesReadBack | src/ioManager/IoManager.java:141-167 | the five saved leaves read back as the five fields |
| IoManagers.TilesReadBack | src/ioManager/IoManager.java:245-254 | loading the saved tiles from number k on completes the room |
| IoManagers.TilesElementReadsBack | src/ioManager/IoManager.java:244-254 | the saved tiles element completes the blank room the information element made |
| IoManagers.RootReadsBack | src/ioManager/IoManager.java:237-258 | the saved room element's two children rebuild the room, whatever room was held before |
| IoManagers.SaveThenLoad | src/ioManager/IoManager.java:86-262 | a saved room with int numbers, no taller than wide, loads back as the same room and load returns true |
| IoManagers.TallRoomLosesItsLowerRow | src/ioManager/IoManager.java:317-319 | a one-column room two tall loses its lower cell's type on the round trip, because the write guards test y against the column count |
| IoManagers.TallTilesSaved | src/ioManager/IoManager.java:130-170 | the tall room's lower tile is saved with image 0, because getImageId's guard also tests y against the columns |
| IoManagers.TallTilesLoad | src/ioManager/IoManager.java:245-254 | loading the tall room's tiles leaves the blank room blank |
| IoManagers.TilesNeedARoom | src/ioManager/IoManager.java:295-320 | tiles before any information element raise NullPointerException and no room is made |
| IoManagers.CountNotKinds | src/ioManager/IoManager.java:270-292 | the counter counts fields, not kinds: four names make a 0×0 room, and three or fewer fields give the default room |
| IoManagers.LaterFieldWins | src/ioManager/IoManager.java:296-316 | a tile field given twice takes its later value, and a missing one stays 0 |
| IoManagers.TileElements | src/ioManager/IoManager.java:130-170 | the nested save loop produces exactly TileNodes, numbered column by column |
| IoManagers.IoManager.constructor | src/ioManager/IoManager.java:42-45 | a new manager holds no room and the file name |
| IoManagers.IoManager.WithRoom | src/ioManager/IoManager.java:47-50 | the manager holds the given room and file name |
| IoManagers.IoManager.SetFileName | src/ioManager/IoManager.java:65-67 | only the file name changes |
| IoManagers.IoManager.GetFileName | src/ioManager/IoManager.java:69-71 | the file name is returned |
| IoManagers.IoManager.GetRoom | src/ioManager/IoManager.java:227-229 | the room is returned |
| IoManagers.IoManager.Save | src/ioManager/IoManager.java:73-84 | save is true exactly when there is a file name, and then the room's document is written |
| IoManagers.IoManager.SaveRoom | src/ioManager/IoManager.java:86-196 | saveRoom builds RoomDocument of the held room |
| IoManagers.IoManager.Load | src/ioManager/IoManager.java:198-225 | load agrees with Loaded and keeps the file name |
| IoManagers.IoManager.ProcessNode | src/ioManager/IoManager.java:231-262 | the top-level loop agrees with DocRun |
| IoManagers.IoManager.ProcessRoot | src/ioManager/IoManager.java:237-258 | the room element's loop agrees with RootRun |
| IoManagers.IoManager.LoadTiles | src/ioManager/IoManager.java:245-254 | the tiles loop agrees with TilesRun |
| IoManagers.IoManager.LoadRoomInfo | src/ioManager/IoManager.java:264-293 | the method agrees with InfoRun |
| IoManagers.IoManager.LoadToTile | src/ioManager/IoManager.java:295-320 | the method agrees with TileRun |
| Managers.Built | src/gameState/GameStateManager.java:117-150 | building a screen takes the key away; level 1 also starts a new run with the key granted |
| Managers.Load | src/gameState/GameStateManager.java:117-150 | loadState puts a fresh instance in the slot of a known id, leaves everything else alone, and ignores an unknown id |
| Managers.Unload | src/gameState/GameStateManager.java:153-157 | unloadState nulls the slot unless it is the current one |
| Managers.Switch | src/gameState/GameStateManager.java:165-173 | setState makes the id current with a fresh instance, except that asking for the loading screen does nothing; no instance is ever removed |
| Managers.Teleports | src/gameState/GameStateManager.java:165-173 | the doors a tick took are switched to in order, the last one ending current |
| Managers.TeleportsNeverUnload | src/gameState/GameStateManager.java:153-173 | no sequence of switches removes an id or an instance from the registry |
| Managers.NullSlots | src/gameState/GameStateManager.java:76-87 | initStates registers exactly the ten known ids, each null |
| Managers.StartupState | src/gameState/GameStateManager.java:34-47 | after construction the menu is current, only the loading screen and the menu are built, and the run is new |
| Managers.NumberCell | src/gameState/GameStateManager.java:205-213 | the number's cell is its Java remainder by the width and by the height: an ArithmeticException for an empty room, non-positive parts for a negative number, a diagonal cell for a square room |
| Managers.TileTypeOf | src/gameState/GameStateManager.java:210-213 | getTileType(int) is the type of that cell, or the division's exception |
| Managers.TileTypeOfReal | src/gameState/GameStateManager.java:205-208 | getTileType(double) truncates the number first |
| Managers.TileIdOf | src/gameState/GameStateManager.java:195-198 | getTileId(int) is the image of that cell, or the division's exception |
| Managers.TileIdOfReal | src/gameState/GameStateManager.java:190-193 | getTileId(double) truncates the number first |
| Managers.NumberOnDiagonal | src/gameState/GameStateManager.java:210-213 | a number below the width and height names the diagonal cell (num, num) |
| Managers.NegativeNumberIsEmpty | src/gameState/GameStateManager.java:210-213 | a negative number with a non-zero remainder names no cell, so its type is 0 |
| Managers.PlainState.constructor | src/gameState/GameState.java:47-60 | a screen without a model of its own takes the key away |
| Managers.GameStateManager.constructor | src/gameState/GameStateManager.java:34-47 | a new manager is Startup's registry |
| Managers.GameStateManager.InitStates | src/gameState/GameStateManager.java:76-89 | the null entries, then the loading screen loaded |
| Managers.GameStateManager.LoadState | src/gameState/GameStateManager.java:117-150 | the method agrees with Load, with a fresh, working instance for a known id |
| Managers.GameStateManager.LoadMenu | src/gameState/GameStateManager.java:119-121 | the menu is built and put in its slot |
| Managers.GameStateManager.LoadLevel | src/gameState/GameStateManager.java:122-139 | a level is built on its room and put in its slot |
| Managers.GameStateManager.NewLevel | src/gameState/GameStateManager.java:122-139 | a fresh level of the id, leaving the store as Built says |
| Managers.GameStateManager.LoadEnd | src/gameState/GameStateManager.java:143-145 | the end screen is built and put in its slot |
| Managers.GameStateManager.LoadPlain | src/gameState/GameStateManager.java:128-148 | a screen without its own model is built and put in its slot |
| Managers.GameStateManager.Put | src/gameState/GameStateManager.java:117-150 | only slot s changes, to the new instance |
| Managers.GameStateManager.UnloadState | src/gameState/GameStateManager.java:153-157 | the method agrees with Unload |
| Managers.GameStateManager.GetState | src/gameState/GameStateManager.java:160-162 | the current id is returned |
| Managers.GameStateManager.SetState | src/gameState/GameStateManager.java:165-173 | the method agrees with Switch |
| Managers.GameStateManager.Leave | src/gameState/GameStateManager.java:169-171 | the loading screen, being current, is not unloaded, then the id becomes current |
| Managers.GameStateManager.EnterLoading | src/gameState/GameStateManager.java:167 | only the current id changes, to the loading screen |
| Managers.GameStateManager.Teleport | src/gameState/GameStateManager.java:165-173 | the doors are switched to in turn, as Teleports says |
| Managers.GameStateManager.Update | src/gameState/GameStateManager.java:97-99 | a null current screen throws; a level takes one Tick and its doors are switched to; any other screen leaves the registry alone |
| Managers.GameStateManager.UpdateLevel | src/gameState/GameStateManager.java:97-99 | the level's tick, then its doors |
| Managers.GameStateManager.TickLevel | src/gameState/GameStateManager.java:97-99 | the level's scene takes one Tick and the registry changes only in the store |
| Managers.GameStateManager.Render | src/gameState/GameStateManager.java:101-103 | a null current screen throws; the registry is unchanged; the end screen's timer takes one step |
| Managers.GameStateManager.KeyPressed | src/gameState/GameStateManager.java:105-110 | escape and Q end the program; any other key goes to the current screen: the menu's choice is switched to or ends the program, the end and info screens return to the menu on fire, and a null screen throws |
| Managers.GameStateManager.KeyReleased | src/gameState/GameStateManager.java:112-114 | a null current screen throws; a level's player releases the key; no screen is switched |
| Menus.InitialOptions | src/gameState/StateMainMenu.java:81-89 | three options numbered 0, 1, 2, leading to the info screen, level 1 and 0 |
| Menus.Next | src/gameState/StateMainMenu.java:165-171 | the selection steps down one, wrapping from the last option to the first |
| Menus.Prev | src/gameState/StateMainMenu.java:173-179 | the selection steps up one, wrapping from the first option to the last |
| Menus.NextPrevInverse | src/gameState/StateMainMenu.java:165-179 | stepping down then up, or up then down, comes back to the same option |
| Menus.Steps | src/gameState/StateMainMenu.java:165-171 | any number of down presses stays within the options |
| Menus.DownCycles | src/gameState/StateMainMenu.java:165-171 | k down presses move k options on, wrapping once; as many presses as options come back |
| Menus.Select | src/gameState/StateMainMenu.java:134-163 | an option with id 2 ends the program; any other in the list goes to its screen, stopping the music unless it is option 0; a selection outside the list does nothing |
| Menus.InitialChoices | src/gameState/StateMainMenu.java:81-89 | on the initial options: info without stopping the music, a new game with it stopped, then the exit |
| Menus.MenuKey | src/gameState/StateMainMenu.java:181-191 | only down and up move the selection, and it stays within the options |
| Menus.MainMenu.constructor | src/gameState/StateMainMenu.java:49-55 | the key is taken away, the two background layers and the foreground layer are added, and the second option is selected |
| Menus.MainMenu.InitResources | src/gameState/StateMainMenu.java:57-78 | the layers are appended and the options rebuilt with the second selected |
| Menus.MainMenu.InitOptions | src/gameState/StateMainMenu.java:81-89 | the options are rebuilt with the second selected, the layers untouched |
| Menus.MainMenu.Reset | src/gameState/StateMainMenu.java:91-93 | reset adds the layers a second time and selects the second option |
| Menus.MainMenu.NextOption | src/gameState/StateMainMenu.java:165-171 | the method agrees with Next |
| Menus.MainMenu.PrevOption | src/gameState/StateMainMenu.java:173-179 | the method agrees with Prev |
| Menus.MainMenu.SelectOption | src/gameState/StateMainMenu.java:134-163 | the loop over option ids agrees with Select |
| Menus.MainMenu.KeyPressed | src/gameState/StateMainMenu.java:181-191 | the selection moves as MenuKey says and fire makes Select's choice |
| EndScreens.Turned | src/gameState/StateTheEnd.java:143-150 | one frame counts up; at the limit or when forced the page turns, modulo four, and the count restarts; the timer stays in range |
| EndScreens.Frames | src/gameState/StateTheEnd.java:143-150 | any number of unforced frames keeps the timer in range |
| EndScreens.EveryThousandthFrame | src/gameState/StateTheEnd.java:143-150 | from a fresh count the first 999 frames keep the page and the 1000th turns it |
| EndScreens.FourSkipsComeBack | src/gameState/StateTheEnd.java:143-150 | four forced turns come back to the same page |
| EndScreens.TheEnd.constructor | src/gameState/StateTheEnd.java:14-25 | the key is taken away and the timer starts at page 0, count 0 |
| EndScreens.TheEnd.NextPage | src/gameState/StateTheEnd.java:143-150 | the method agrees with Turned |
| EndScreens.TheEnd.EndScreen | src/gameState/StateTheEnd.java:122-141 | the page drawn is the page before this frame, then the timer takes one unforced step |
| EndScreens.TheEnd.KeyPressed | src/gameState/StateTheEnd.java:222-231 | fire asks for the menu; jump turns the page at once; other keys leave the timer |
| Fonts.AsciiPos | src/gameState/GameState.java:493-526 | every character gets one of the 31 font positions |
| Fonts.AsciiPositions | src/gameState/GameState.java:493-526 | letters take 0 to 25 in order, digits 0 to 9, the punctuation 26 to 30, and control or high codes draw as '?' |
| Fonts.LettersApart | src/gameState/GameState.java:493-526 | two different letters never share a position |
| Fonts.RangesRunOnePast | src/gameState/GameState.java:517-522 | the range tests run one past 'z' and '9', so '{' draws as '.' and ':' as 'k' |
| Fonts.LargeTile | src/gameState/GameState.java:312 | a font position picks a tile in row 6 of the sheet |
| Fonts.LargeDigitsLookLikeLetters | src/gameState/GameState.java:305-316 | in the large font a digit is drawn with the letter at its position |
| Fonts.SmallFontPosition | src/gameState/GameState.java:474-479 | each small-font tile holds two consecutive positions, from column 14 on |
| Fonts.SmallFontQuadrant | src/gameState/GameState.java:481-491 | letters use the top quarters and digits the bottom ones, the parity choosing the side |
| Fonts.SmallGlyphsApart | src/gameState/GameState.java:417-472 | different positions of one kind get different pictures, and a letter's picture is never a digit's |
| Fonts.CharPos | src/gameState/GameState.java:419-424 | the text is lower-cased before its position is found, giving one of the 31 positions |
| Fonts.CaseIgnored | src/gameState/GameState.java:302-307 | upper- and lower-case letters are drawn alike |
| MapConsoles.Typed | src/mapEditor/MapConsole.java:300-308 | backspace takes off the last character of a non-empty line; any other code appends its lower-case character |
| MapConsoles.BackspaceUndoes | src/mapEditor/MapConsole.java:300-308 | a backspace takes back the character just typed, and on an empty line does nothing |
| MapConsoles.KeysTypeLowerCase | src/mapEditor/MapConsole.java:300-308 | a letter key types its lower-case letter and a digit key its digit, keeping the line before it |
| MapConsoles.Shown | src/mapEditor/MapConsole.java:96-114 | the console shows at most six log lines, the newest on top |
| MapConsoles.NewLineOnTop | src/mapEditor/MapConsole.java:105-112 | a new line goes on top and pushes the others down one row |
| MapConsoles.MapConsole.Abs | src/mapEditor/MapConsole.java:13-30 | the value holds the log and the input line as the fields do |
| MapConsoles.MapConsole.constructor | src/mapEditor/MapConsole.java:32-45 | a new console holds zeros and empty texts |
| MapConsoles.MapConsole.SetMode | src/mapEditor/MapConsole.java:48-50 | only the mode changes |
| MapConsoles.MapConsole.SetType | src/mapEditor/MapConsole.java:52-54 | only the type changes |
| MapConsoles.MapConsole.SetName | src/mapEditor/MapConsole.java:88-90 | only the room name changes |
| MapConsoles.MapConsole.SetInfo | src/mapEditor/MapConsole.java:92-94 | only the room description changes |
| MapConsoles.MapConsole.AddToConsole | src/mapEditor/MapConsole.java:152-154 | the line is appended to the log, which is never cut |
| MapConsoles.MapConsole.UpdateCurrentTileSheet | src/mapEditor/MapConsole.java:116-119 | the sheet is stored and exactly one line naming it is logged |
| MapConsoles.MapConsole.UpdateMapCoords | src/mapEditor/MapConsole.java:121-124 | only the map coordinates change |
| MapConsoles.MapConsole.UpdateTileSheetCoords | src/mapEditor/MapConsole.java:126-129 | only the sheet coordinates change |
| MapConsoles.MapConsole.GetInput | src/mapEditor/MapConsole.java:296-298 | the input line is returned |
| MapConsoles.MapConsole.AddInput | src/mapEditor/MapConsole.java:300-308 | the input line becomes Typed's |
| MapConsoles.MapConsole.ResetInput | src/mapEditor/MapConsole.java:310-312 | only the input line changes, to empty |
| MapConsoles.MapConsole.DisplayedLines | src/mapEditor/MapConsole.java:105-112 | the drawing loop draws exactly Shown's lines |
| Games.Jolt | src/game/Game.java:146-148 | a random draw in [0, 1) gives an offset in [-7, 0) |
| Games.SettleTowardZero | src/game/Game.java:154-179 | without shaking an offset moves toward zero by one return step of 0.8 and never crosses it |
| Games.Shaken | src/game/Game.java:142-181 | while shaking both offsets are fresh jolts and the timer counts down, the shake stopping when it is already 0; otherwise both offsets settle |
| Games.Started | src/game/Game.java:184-187 | shakeScreen starts the shake with the timer at 10 and leaves the offsets |
| Games.ElevenShakingFrames | src/game/Game.java:142-187 | after shakeScreen the next eleven frames shake: ten count the timer down, the eleventh stops the shake, each with fresh offsets |
| Games.CalmRecentres | src/game/Game.java:154-179 | without shaking, an offset within n return steps is back at zero after n frames, the timer untouched |
| Games.CalmFirst | src/game/Game.java:154-179 | calm frames can be counted from the first one |
| Games.ScreenOffset | src/game/Game.java:194-195 | the offsets are cast to int, so a jolt draws the screen between 7 pixels up or left and none, and a settled screen at (0, 0) |
| Games.FrameWait | src/game/Game.java:99-119 | the pause is the 16 ms budget less the whole milliseconds used, never negative |
| Games.FrameWaitMonotone | src/game/Game.java:113-119 | a slower frame never waits longer, and while the budget lasts the frame and its wait fill it |
| Games.Game.constructor | src/game/Game.java:68-93 | the shake settings are those initialize sets, the screen is at rest and the loop is not quitting |
| Games.Game.DoShake | src/game/Game.java:142-181 | the method agrees with Shaken |
| Games.Game.Relax | src/game/Game.java:155-166 | the four guarded steps on one offset agree with Settle |
| Games.Game.ShakeScreen | src/game/Game.java:184-187 | the method agrees with Started |
| Games.Game.RenderScreen | src/game/Game.java:190-200 | the shake takes one step and the buffer is drawn at ScreenOffset of the new offsets |
| Launcher.ScaleFrom | src/game/GameMain.java:8-17 | a positive int in args[0] becomes the scale and anything else leaves it, so the scale stays positive |
| Launcher.WrittenScaleIsRead | src/game/GameMain.java:8-17 | any positive int written out as args[0] becomes the scale, whatever follows |
| Launcher.GameMain.constructor | src/game/GameMain.java:6 | the scale starts at 2 |
| Launcher.GameMain.ReadArgs | src/game/GameMain.java:9-17 | the argument handling agrees with ScaleFrom |
| Launcher.GameMain.GetScale | src/game/GameMain.java:26-28 | the scale is returned |
| MapEditors.TileAfter | src/mapEditor/MapEditor.java:475-477 | the cursor steps to the next of the 1024 sheet tiles, wrapping to the first |
| MapEditors.TileBefore | src/mapEditor/MapEditor.java:479-486 | the cursor steps to the previous tile, wrapping to the last |
| MapEditors.LineAfter | src/mapEditor/MapEditor.java:488-491 | the cursor moves one row of 32 down, wrapping to the top |
| MapEditors.LineBefore | src/mapEditor/MapEditor.java:493-500 | the cursor moves one row up, wrapping to the bottom |
| MapEditors.TileStepsUndo | src/mapEditor/MapEditor.java:475-486 | a step and the opposite step come back to the same tile |
| MapEditors.LineStepsUndo | src/mapEditor/MapEditor.java:488-500 | a line step and the opposite line step come back to the same tile |
| MapEditors.NextSheet | src/mapEditor/MapEditor.java:268-271 | the next sheet is a loaded sheet |
| MapEditors.PrevSheet | src/mapEditor/MapEditor.java:273-282 | the "previous" sheet is a loaded sheet |
| MapEditors.PrevSheetStepsForward | src/mapEditor/MapEditor.java:273-282 | prevTileSheet steps back only from sheet 0; from any other sheet it steps forward as nextTileSheet does, so with three or more sheets it never reaches the sheet before |
| MapEditors.WithSheet | src/mapEditor/MapEditor.java:284-288 | the tile manager takes a loaded sheet and ignores any other, the editor follows the manager, and the console logs the sheet |
| MapEditors.SheetKey | src/mapEditor/MapEditor.java:420-435 | the sheet keys keep every editor bound |
| MapEditors.WithMode | src/mapEditor/MapEditor.java:502-507 | only the mode can change, to one of the four, and the console is told it |
| MapEditors.FunctionKeysPickModes | src/mapEditor/MapEditor.java:502-507 | F5 to F8 select modes 0 to 3 and any other key keeps the mode |
| MapEditors.WithNewRoom | src/mapEditor/MapEditor.java:176-191 | a blank 20×16 room named after the input line, or "roomname" when it is empty, and one line logged |
| MapEditors.WithInfo | src/mapEditor/MapEditor.java:247-251 | the room's description changes, the console shows it and logs one line |
| MapEditors.WithName | src/mapEditor/MapEditor.java:262-266 | the room's name changes, the console shows it and logs one line |
| MapEditors.RenameRoom | src/mapEditor/MapEditor.java:253-260 | a non-empty input line renames the room; an empty one leaves it |
| MapEditors.WithInputMode | src/mapEditor/MapEditor.java:133-136 | the input mode is set and logged |
| MapEditors.TypeChosen | src/mapEditor/MapEditor.java:319-322 | the type the next click paints is chosen and shown |
| MapEditors.InputKey | src/mapEditor/MapEditor.java:338-349 | letters, digits and backspace edit the input line; escape and enter leave input mode |
| MapEditors.ConsoleKey | src/mapEditor/MapEditor.java:351-366 | the console-mode keys keep the sheets and the bounds |
| MapEditors.EditKey | src/mapEditor/MapEditor.java:368-386 | the edit-mode keys keep the sheets and the bounds |
| MapEditors.TypeKey | src/mapEditor/MapEditor.java:388-402 | the type-mode keys keep the sheets and the bounds |
| MapEditors.LoadKey | src/mapEditor/MapEditor.java:138-157 | a non-empty input line asks for the file /assets/mapedit/<line>.xml; an empty one logs two hint lines |
| MapEditors.SaveKey | src/mapEditor/MapEditor.java:159-174 | a named room is saved as its name with ".xml" as RoomDocument writes it; an unnamed one is not; the room is unchanged |
| MapEditors.FileKey | src/mapEditor/MapEditor.java:404-418 | the file-mode keys keep the sheets and the bounds |
| MapEditors.ModeKey | src/mapEditor/MapEditor.java:447-462 | the mode switch keeps the sheets and bounds and asks at most for a load or a save |
| MapEditors.Act | src/mapEditor/MapEditor.java:440-468 | a press keeps every editor bound |
| MapEditors.Press | src/mapEditor/MapEditor.java:438-473 | keyPressed keeps every editor bound |
| MapEditors.Release | src/mapEditor/MapEditor.java:509-512 | a release frees the key and changes nothing else |
| MapEditors.PressesAreDebounced | src/mapEditor/MapEditor.java:438-512 | while a key is held every press is ignored; a press holds the key unless it is shift; a release frees it |
| MapEditors.DigitKeysPickSheets | src/mapEditor/MapEditor.java:420-427 | outside input mode 1 and 2 select sheets 0 and 1 in every mode, and in type mode also choose the type |
| MapEditors.LogOnlyGrows | src/mapEditor/MapEditor.java:438-473 | the console log only ever grows |
| MapEditors.ModeKeyLogs | src/mapEditor/MapEditor.java:447-462 | the mode handlers only add lines to the log |
| MapEditors.WithCoords | src/mapEditor/MapEditor.java:222-245 | the cursor cell is always stored, by truncating division, and nothing in the room or the selection changes |
| MapEditors.SelectOnSheet | src/mapEditor/MapEditor.java:539-551 | a left click on the sheet selects tile row * 32 + column; any other click changes nothing |
| MapEditors.PaintTile | src/mapEditor/MapEditor.java:290-308 | with the cursor cell inside the 20×16 room, that cell gets the given image and the active sheet, keeps its type, and every other cell is kept; with the cursor outside, the editor is unchanged; only the room's grid ever changes |
| MapEditors.PaintType | src/mapEditor/MapEditor.java:310-331 | with the cursor cell inside the 20×16 room, that cell gets the given type, keeps its image and sheet, and every other cell is kept; with the cursor outside, the editor is unchanged; only the room's grid ever changes |
| MapEditors.EditClick | src/mapEditor/MapEditor.java:553-570 | an edit-mode click changes at most the room's grid (what it writes: LeftClickPaints, RightClickClears) |
| MapEditors.TypeClick | src/mapEditor/MapEditor.java:572-589 | a type-mode click changes at most the room's grid (what it writes: TypeClickPaints) |
| MapEditors.Click | src/mapEditor/MapEditor.java:530-537 | a click changes at most the room, the selection, the cursor and the console |
| MapEditors.RoomAreaIsRoom | src/mapEditor/MapEditor.java:559-560 | a position in the room area lies over a room cell |
| MapEditors.LeftClickPaints | src/mapEditor/MapEditor.java:530-570 | in edit mode a left click on the room gives the cell under the mouse the selected image and the active sheet, keeping its type, and leaves every other cell |
| MapEditors.RightClickClears | src/mapEditor/MapEditor.java:300-308 | in edit mode a right click on the room sets the cell under the mouse to image 0 on the active sheet, keeps its type, and leaves every other cell |
| MapEditors.TypeClickPaints | src/mapEditor/MapEditor.java:310-331 | in type mode a left click on the room gives the cell under the mouse the selected type and a right click type 0, keeping its image and sheet, and leaves every other cell |
| MapEditors.OtherClicksKeepRoom | src/mapEditor/MapEditor.java:553-589 | outside edit and type mode, or with a button other than left or right, a click leaves the room |
| MapEditors.ClickOutsideKeepsRoom | src/mapEditor/MapEditor.java:530-589 | a click outside the room area leaves the room |
| MapEditors.Started | src/mapEditor/MapEditor.java:83-93 | the editor before newRoom: every flag off, a fresh console, the tile manager's sheet |
| MapEditors.MapEditor.constructor | src/mapEditor/MapEditor.java:83-98 | initialize makes a new console and then a new room |
| MapEditors.MapEditor.SetInputMode | src/mapEditor/MapEditor.java:133-136 | the method agrees with WithInputMode |
| MapEditors.MapEditor.Load | src/mapEditor/MapEditor.java:138-157 | the method agrees with LoadKey |
| MapEditors.MapEditor.Save | src/mapEditor/MapEditor.java:159-174 | the method agrees with SaveKey |
| MapEditors.MapEditor.NewRoom | src/mapEditor/MapEditor.java:176-191 | a fresh room object, marked loaded, agreeing with WithNewRoom |
| MapEditors.MapEditor.SetRoomInfo | src/mapEditor/MapEditor.java:247-251 | the method agrees with WithInfo |
| MapEditors.MapEditor.RenameFromInput | src/mapEditor/MapEditor.java:253-260 | the method agrees with RenameRoom |
| MapEditors.MapEditor.SetRoomName | src/mapEditor/MapEditor.java:262-266 | the method agrees with WithName |
| MapEditors.MapEditor.NextTileSheet | src/mapEditor/MapEditor.java:268-271 | the method agrees with WithSheet on NextSheet |
| MapEditors.MapEditor.PrevTileSheet | src/mapEditor/MapEditor.java:273-282 | the method agrees with WithSheet on PrevSheet, its own increment overwritten |
| MapEditors.MapEditor.SetTileSheet | src/mapEditor/MapEditor.java:284-288 | the method agrees with WithSheet |
| MapEditors.MapEditor.SetTile | src/mapEditor/MapEditor.java:290-298 | the method agrees with PaintTile of the selected tile |
| MapEditors.MapEditor.ClearTile | src/mapEditor/MapEditor.java:300-308 | the method agrees with PaintTile of image 0 |
| MapEditors.MapEditor.SetType | src/mapEditor/MapEditor.java:310-317 | the method agrees with PaintType of the selected type |
| MapEditors.MapEditor.ChooseType | src/mapEditor/MapEditor.java:319-322 | the method agrees with TypeChosen |
| MapEditors.MapEditor.ClearType | src/mapEditor/MapEditor.java:324-331 | the method agrees with PaintType of type 0 |
| MapEditors.MapEditor.KeyPressedInputMode | src/mapEditor/MapEditor.java:338-349 | the method agrees with InputKey |
| MapEditors.MapEditor.KeyPressedConsoleMode | src/mapEditor/MapEditor.java:351-366 | the method agrees with ConsoleKey |
| MapEditors.MapEditor.KeyPressedEditMode | src/mapEditor/MapEditor.java:368-386 | the method agrees with EditKey |
| MapEditors.MapEditor.KeyPressedTypeMode | src/mapEditor/MapEditor.java:388-402 | the method agrees with TypeKey |
| MapEditors.MapEditor.KeyPressedFileMode | src/mapEditor/MapEditor.java:404-418 | the method agrees with FileKey |
| MapEditors.MapEditor.KeyPressedChangeTileSheet | src/mapEditor/MapEditor.java:420-435 | the method agrees with SheetKey |
| MapEditors.MapEditor.KeyPressedMode | src/mapEditor/MapEditor.java:447-462 | the method agrees with ModeKey |
| MapEditors.MapEditor.KeyPressed | src/mapEditor/MapEditor.java:438-473 | the method agrees with Press, Q returning the Quit request |
| MapEditors.MapEditor.NextTile | src/mapEditor/MapEditor.java:475-477 | only the cursor changes, as TileAfter says |
| MapEditors.MapEditor.PrevTile | src/mapEditor/MapEditor.java:479-486 | only the cursor changes, as TileBefore says |
| MapEditors.MapEditor.NextTileLine | src/mapEditor/MapEditor.java:488-491 | only the cursor changes, as LineAfter says |
| MapEditors.MapEditor.PrevTileLine | src/mapEditor/MapEditor.java:493-500 | only the cursor changes, as LineBefore says |
| MapEditors.MapEditor.SetMode | src/mapEditor/MapEditor.java:502-507 | the method agrees with WithMode |
| MapEditors.MapEditor.KeyReleased | src/mapEditor/MapEditor.java:509-512 | the method agrees with Release |
| MapEditors.MapEditor.MousePressed | src/mapEditor/MapEditor.java:530-537 | the method agrees with Click |
| MapEditors.MapEditor.UpdateCoords | src/mapEditor/MapEditor.java:222-245 | the method agrees with WithCoords |
| MapEditors.MapEditor.SelectOnTileSheet | src/mapEditor/MapEditor.java:539-551 | the method agrees with SelectOnSheet |
| MapEditors.MapEditor.MousePressedEditMode | src/mapEditor/MapEditor.java:553-570 | the method agrees with EditClick |
| MapEditors.MapEditor.MousePressedTypeMode | src/mapEditor/MapEditor.java:572-589 | the method agrees with TypeClick |

## Left out

- Sound: AudioPlayer (src/audioPlayer/AudioPlayer.java) only loads and plays clips through javax.sound. Its calls change nothing the model tracks, so the class and every call to it are left out.
- Drawing: every render and draw method, Graphics2D, fonts and colours are left out. What drawing decides is kept: the frames the clips show, the tiles and quarters the text overlays pick (Fonts), and the console lines that displayConsole draws (DisplayedLines). The menu's marker animation is left out.
- Images: ImageIO, BufferedImage and getSubimage are left out. A sheet is a number of tiles and a picture is a tile number.
- getQuarterTileImage(Point, int): it calls itself with the same arguments and never returns. Nothing calls it, so it is left out.
- Threads and timing: the game thread, Game.run's loop and MapEditor.run's loop, and Thread.sleep are left out. Only the frame-length arithmetic is kept (FrameWait).
- System.exit: it ends the game as the Exited and Exit results, and ends the editor as the Quit request. In the editor, the key-held flag set before the exit stays set in the model.
- Randomness, trigonometry and clocks become inputs: the bullet's random aim (Inputs.aim), doShake's two random numbers, the boss's sin and cos (Inputs.sinA, Inputs.cosB), and the System.nanoTime fire cooldown (Inputs.ready).
- Floating point: float and double become `real`, and IEEE rounding is not modelled. The casts to int are written out as truncation (Trunc).
- int overflow is wrapped only in PlayerSave's counters. Everywhere else, integers are unbounded.
- XML and files: the DOM parser, the Transformer, file streams and Java serialization are left out. An XML document is a sequence of nodes (IoManagers.Node), and reading or writing the file is a parameter or a result.
- MapEditor load and save: reading the file becomes the LoadRoom request, and writing it becomes the SaveRoom request carrying the document. The editor does not read the file back itself.
- IoManager: it holds the room as a value. The Java room object it shares with the editor is not modelled.
- roomIsLoaded: the editor sets it but never reads it, so it has no effect in the model.
- MapEditor: the editor's room is taken to be a well-formed 20 x 16 grid (Fits), which is the size the editor creates. TileManager.init is taken to have run and loaded at least one sheet: the editor's requires say so, and NextSheet and PrevSheet require at least one sheet.
- MapConsoles.AddInput and MapConsoles.Typed: key codes must be below 0xD800 to be a `char`. Lower-casing (ToLower) covers only ASCII letters.
- Key and Tank: Key.java and Tank.java are not part of this model. A Key is modelled as a pickup built like SlowFall, so killing it removes it. Tank is not modelled.
- StateLevel3, StateLevel4, StateLevel5, StateInfo and StateLoading are only registry entries (PlainState). Their gameplay is not modelled. MainMapEdit is not modelled.
- The end screen: its display objects and their animation are not modelled.
- Background layers: the levels' and end screen's background setup and their per-tick updates are left out. The menu keeps only the names of its layer files.
- Swing and AWT glue (JFrame, JPanel, key and mouse listeners) is left out. Key and mouse events are method calls with a key code or a point. Rectangle.intersects is modelled as two non-empty boxes sharing interior on both axes (Bodies.Intersects).
- Scenes.Tick, Levels.Level.Update, Managers.GameStateManager.Update and Managers.GameStateManager.UpdateLevel: these do not model the level switch in the middle of a tick. In Java, a door calls setState during the interactables' loop (src/gameState/GameState.java:183-187, 207-210), and the next level becomes current at once. The rest of that tick then runs in the old level's lists, but every tile probe goes through the manager's getTileType, so it reads the NEXT level's room. That covers the remaining interactables, every enemy and the player. The combat and the player-enemy clash that follow use those positions, so the kills, score and deaths written to the store can differ from the model. The next level's constructor also resets the stored key at once, so a second door in the same tick would not open in Java. The model instead runs the whole tick against the old level's room and the key it started with, then switches to the doors' targets in order (Teleports).
- Animation(int[]) and loadFrames(int[]) keep a reference to the caller's array. The model copies the frames, so later changes by the caller do not show.
