/**
 * What each kind of game object does on top of the MapObject base: the
 * player's acceleration, jump and fall, shot latch and recoil; the
 * mushroom's wall turn-around; the spike block's down-only collision; the
 * boss's sinusoid flight and screen-edge bounce; the bullet's straight
 * flight; the pickups' kill.  These functions are the specification the
 * MapObject class's methods are proved against.
 *
 * Inputs the source reads from elsewhere are parameters: the fire cooldown
 * (System.nanoTime) as `ready`, the slow-fall item as `slowOwned`, the boss's
 * Math.sin/Math.cos values as `sinA` and `cosB`, the bullet's Random draw as `r`.
 */
module Entities {
  import opened JavaLang
  import opened Animations
  import opened Bodies
  import TileMap

  // Clip indices (ANIM_* of each class).
  const PLAYER_LEFT: int := 0
  const PLAYER_STANDBY_RIGHT: int := 1
  const PLAYER_STANDBY_LEFT: int := 2
  const PLAYER_RIGHT: int := 3
  const PLAYER_DEATH: int := 4
  // Mushroom and SpikeBlock share one layout.
  const WALKER_LEFT: int := 0
  const WALKER_STANDBY: int := 1
  const WALKER_RIGHT: int := 2
  const WALKER_DEATH: int := 3
  const BOSS_STANDBY: int := 0
  const BOSS_DEATH: int := 1

  /** The friction dead objects apply in every update. */
  const DEATH_FRICTION: real := 0.025
  /** How far a shot pushes the player back. */
  const RECOIL_DISTANCE: real := 2.0
  /** The player's flash counter right after a shot. */
  const AMMO_FLASH: int := 2
  /** A bullet's horizontal speed. */
  const BULLET_SPEED: real := 5.0

  function RAbs(x: real): real { if x < 0.0 then -x else x }

  // ---------------------------------------------------------------------
  // Clip selection

  /** Rewinds the clips below `upto`, except the one at `keep`, and keeps the others. */
  function RewindClips(clips: seq<Clock>, keep: int, upto: int): (r: seq<Clock>)
    ensures |r| == |clips|
    ensures forall i :: 0 <= i < |clips| ==> r[i] == if i < upto && i != keep then Rewound(clips[i]) else clips[i]
  {
    seq(|clips|, i requires 0 <= i < |clips| => if i < upto && i != keep then Rewound(clips[i]) else clips[i])
  }

  /** currentAnim := chosen, with reset() on the other clips below the death clip `upto`. */
  function Show(b: Body, chosen: int, upto: int): (r: Body)
    requires Valid(b) && 0 <= chosen < |b.clips|
    ensures Valid(r)
    ensures r == b.(anim := chosen, clips := r.clips)
    ensures |r.clips| == |b.clips|
    ensures forall i :: 0 <= i < |b.clips| ==> r.clips[i] == if i < upto && i != chosen then Rewound(b.clips[i]) else b.clips[i]
  {
    var r := b.(anim := chosen, clips := RewindClips(b.clips, chosen, upto));
    assert forall i :: 0 <= i < |r.clips| ==> WellFormed(b.clips[i]) ==> WellFormed(r.clips[i]);
    r
  }

  // ---------------------------------------------------------------------
  // The per-axis speed integrator shared by the player, the mushroom and the boss

  /**
   * With no key held the speed moves toward 0 by `stop` and never crosses
   * it: its magnitude drops by `stop`, to no less than 0, and its sign is kept.
   */
  function Decay(v: real, stop: real): (r: real)
    ensures stop >= 0.0 ==> RAbs(r) == (if RAbs(v) <= stop then 0.0 else RAbs(v) - stop)
    ensures v >= 0.0 ==> r >= 0.0
    ensures v <= 0.0 ==> r <= 0.0
  {
    if v > 0.0 then (if v - stop < 0.0 then 0.0 else v - stop)
    else if v < 0.0 then (if v + stop > 0.0 then 0.0 else v + stop)
    else v
  }

  /**
   * One axis of move(): the `plus` key wins over the `minus` key and adds
   * `acc`; a speed past `max` (or below -max) is replaced by `hiCap` (or
   * `loCap`); with neither key the speed decays.
   */
  function Accelerate(v: real, plus: bool, minus: bool, acc: real, max: real, stop: real, hiCap: real, loCap: real): (r: real)
    ensures !plus && !minus ==> r == Decay(v, stop)
    ensures plus ==> r == hiCap || r == v + acc
    ensures !plus && minus ==> r == loCap || r == v - acc
  {
    if plus then (if v + acc > max then hiCap else v + acc)
    else if minus then (if v - acc < -max then loCap else v - acc)
    else Decay(v, stop)
  }

  /** With caps at +-max, a speed within the cap stays within it. */
  lemma {:induction false} AccelerateCapped(v: real, plus: bool, minus: bool, acc: real, max: real, stop: real)
    requires acc >= 0.0 && stop >= 0.0 && RAbs(v) <= max
    ensures RAbs(Accelerate(v, plus, minus, acc, max, stop, max, -max)) <= max
  {
    var r := Accelerate(v, plus, minus, acc, max, stop, max, -max);
    if !plus && !minus {
      assert RAbs(r) <= RAbs(v);
    }
  }

  // ---------------------------------------------------------------------
  // Player and mushroom: move and jump

  /** The horizontal half of move() for the kind's own settings. */
  function MoveX(b: Body): real {
    var t := TuningOf(b.kind);
    Accelerate(b.motion.delta.x, b.keys.right, b.keys.left,
               t.moveAcceleration, t.moveSpeedMax, t.moveStopAcceleration, t.moveSpeedMax, -t.moveSpeedMax)
  }

  /** The player's clip for the held keys and facing. */
  function PlayerClip(k: Keys, faceRight: bool): int {
    if k.right then PLAYER_RIGHT
    else if k.left then PLAYER_LEFT
    else if faceRight then PLAYER_STANDBY_RIGHT
    else PLAYER_STANDBY_LEFT
  }

  /** Player.move(): the speed integrator, then the clip for the keys, with the other walking clips reset. */
  function PlayerMove(b: Body): (r: Body)
    requires Valid(b) && b.kind == Player
    ensures Valid(r)
    ensures r == b.(motion := r.motion, anim := r.anim, clips := r.clips)
    ensures r.motion == b.motion.(delta := Vec(MoveX(b), b.motion.delta.y))
    ensures RAbs(b.motion.delta.x) <= 2.0 ==> RAbs(r.motion.delta.x) <= 2.0
  {
    var chosen := PlayerClip(b.keys, b.faceRight);
    var s := Show(b, chosen, PLAYER_DEATH);
    var r := s.(motion := b.motion.(delta := Vec(MoveX(b), b.motion.delta.y)));
    if RAbs(b.motion.delta.x) <= 2.0 then
      AccelerateCapped(b.motion.delta.x, b.keys.right, b.keys.left, 2.0, 2.0, 2.0); r
    else r
  }

  /**
   * The clip Player.move() shows: walking right whenever right is held,
   * walking left when only left is, otherwise standing in the facing
   * direction; the other walking clips are rewound, the shown one and the
   * death clip are left as they were.
   */
  lemma {:induction false} PlayerMoveClip(b: Body)
    requires Valid(b) && b.kind == Player
    ensures var r := PlayerMove(b);
      (r.anim == PLAYER_STANDBY_RIGHT <==> !b.keys.right && !b.keys.left && b.faceRight) &&
      (r.anim == PLAYER_RIGHT <==> b.keys.right) &&
      (r.anim == PLAYER_LEFT <==> !b.keys.right && b.keys.left) &&
      r.anim != PLAYER_DEATH && r.clips[r.anim] == b.clips[r.anim] && r.clips[PLAYER_DEATH] == b.clips[PLAYER_DEATH] &&
      forall i :: 0 <= i < PLAYER_DEATH && i != r.anim ==> r.clips[i] == Rewound(b.clips[i])
  {
  }

  /** The mushroom's clip: by the sign of the new speed, not by the keys. */
  function MushroomClip(dx: real): int {
    if dx > 0.0 then WALKER_RIGHT else if dx < 0.0 then WALKER_LEFT else WALKER_STANDBY
  }

  /** Mushroom.move(): the same integrator, then the clip for the direction it now moves in. */
  function MushroomMove(b: Body): (r: Body)
    requires Valid(b) && b.kind == Mushroom
    ensures Valid(r)
    ensures r == b.(motion := r.motion, anim := r.anim, clips := r.clips)
    ensures r.motion == b.motion.(delta := Vec(MoveX(b), b.motion.delta.y))
    ensures RAbs(b.motion.delta.x) <= 2.0 ==> RAbs(r.motion.delta.x) <= 2.0
  {
    var dx := MoveX(b);
    var chosen := MushroomClip(dx);
    var s := Show(b, chosen, WALKER_DEATH);
    var r := s.(motion := b.motion.(delta := Vec(dx, b.motion.delta.y)));
    if RAbs(b.motion.delta.x) <= 2.0 then
      AccelerateCapped(b.motion.delta.x, b.keys.right, b.keys.left, 0.2, 2.0, 0.2); r
    else r
  }

  /**
   * The mushroom shows the clip for the sign of its new speed; the other
   * walking clips are rewound, the shown one and the death clip are kept.
   */
  lemma {:induction false} MushroomMoveClip(b: Body)
    requires Valid(b) && b.kind == Mushroom
    ensures var r := MushroomMove(b);
      (r.anim == WALKER_RIGHT <==> r.motion.delta.x > 0.0) &&
      (r.anim == WALKER_LEFT <==> r.motion.delta.x < 0.0) &&
      (r.anim == WALKER_STANDBY <==> r.motion.delta.x == 0.0) &&
      r.clips[r.anim] == b.clips[r.anim] && r.clips[WALKER_DEATH] == b.clips[WALKER_DEATH] &&
      forall i :: 0 <= i < WALKER_DEATH && i != r.anim ==> r.clips[i] == Rewound(b.clips[i])
  {
  }

  /**
   * The falling half of jump(): an upward speed is slowed by jumpStopSpeed;
   * a speed that is then not upward gains fallSpeed, or becomes fallSlow
   * when up is held and slow fall is owned; the result is capped at fallSpeedMax.
   */
  function FallStep(dy: real, t: Tuning, slow: bool): (r: real)
    ensures r <= t.fallSpeedMax
    ensures dy < 0.0 && dy + t.jumpStopSpeed < 0.0 && dy + t.jumpStopSpeed <= t.fallSpeedMax ==> r == dy + t.jumpStopSpeed
    ensures slow && dy >= 0.0 && t.jumpStopSpeed >= 0.0 ==> r == (if t.fallSlow > t.fallSpeedMax then t.fallSpeedMax else t.fallSlow)
  {
    var dy1 := if dy < 0.0 then dy + t.jumpStopSpeed else dy;
    var dy2 := if dy1 >= 0.0 then (if slow then t.fallSlow else dy1 + t.fallSpeed) else dy1;
    if dy2 > t.fallSpeedMax then t.fallSpeedMax else dy2
  }

  /**
   * jump() of the player (with slowOwned, the slow-fall item) and of the
   * mushroom (slowOwned false: its jump has no slow-fall branch).  A jump
   * starts only when standing, with jump held and no jump under way; the
   * "jumping" phase then adds -jumpSpeed while jump is held and ends, turning
   * into a fall, when jump is released or the height test holds; a falling
   * object follows FallStep.
   */
  function Jump(b: Body, slowOwned: bool): (r: Body)
    ensures r == b.(motion := r.motion)
    ensures r.motion == b.motion.(delta := Vec(b.motion.delta.x, r.motion.delta.y), jumpStartY := r.motion.jumpStartY,
                                  jumping := r.motion.jumping, falling := r.motion.falling)
    ensures !b.motion.jumping && !b.motion.falling && !b.keys.jump ==> r == b
    ensures b.motion.falling && !b.motion.jumping ==>
              r.motion == b.motion.(delta := Vec(b.motion.delta.x, FallStep(b.motion.delta.y, TuningOf(b.kind), b.keys.up && slowOwned)))
    ensures b.motion.falling ==> r.motion.falling && r.motion.jumping == b.motion.jumping
    ensures StartsJump(b) ==> r.motion.jumpStartY == b.motion.coords.y
    ensures !StartsJump(b) ==> r.motion.jumpStartY == b.motion.jumpStartY
    ensures !b.motion.jumping && TuningOf(b.kind).maxJumpHeight > 0.0 ==> !r.motion.jumping
  {
    var t := TuningOf(b.kind);
    var m := b.motion;
    var start := StartsJump(b);
    var dy0 := if start then t.jumpInitialSpeed else m.delta.y;
    var y0 := if start then m.coords.y else m.jumpStartY;
    var jumping0 := m.jumping || start;
    var rising := jumping0 && !m.falling;
    var dy1 := if rising && b.keys.jump then dy0 + -t.jumpSpeed else dy0;
    var ends := rising && (!b.keys.jump || m.coords.y - y0 < t.maxJumpHeight);
    var jumping1 := if ends then false else jumping0;
    var falling1 := m.falling || ends;
    var dy2 := if falling1 then FallStep(dy1, t, b.keys.up && slowOwned) else dy1;
    b.(motion := m.(delta := Vec(m.delta.x, dy2), jumpStartY := y0, jumping := jumping1, falling := falling1))
  }

  /** The condition for a new jump: standing, jump held, no jump under way. */
  predicate StartsJump(b: Body) {
    !b.motion.falling && b.keys.jump && !b.motion.jumping
  }

  /**
   * The height test passes on the very tick a jump starts (0 < maxJumpHeight),
   * so a jump is a single impulse: the object is falling at once, with
   * jumpInitialSpeed - jumpSpeed + jumpStopSpeed, -5.6 for the player and
   * -4.8 for the mushroom.
   */
  lemma {:induction false} JumpImpulse(b: Body, slowOwned: bool)
    requires StartsJump(b) && b.kind in {Player, Mushroom}
    ensures Jump(b, slowOwned).motion.falling && !Jump(b, slowOwned).motion.jumping
    ensures Jump(b, slowOwned).motion.delta.y == if b.kind == Player then -5.6 else -4.8
  {
    var t := TuningOf(b.kind);
    assert t.jumpInitialSpeed + -t.jumpSpeed + t.jumpStopSpeed < 0.0;
  }

  // ---------------------------------------------------------------------
  // Player: shooting, recoil, the shot latch

  /** shooting(): with fire held and the cooldown over, a shot is latched, the flash starts and recoil is due. */
  function Shooting(b: Body, ready: bool): (r: Body)
    ensures b.keys.fire && ready ==> r == b.(gun := Gun(AMMO_FLASH, true, true))
    ensures !(b.keys.fire && ready) ==> r == b
  {
    if b.keys.fire && ready then b.(gun := Gun(AMMO_FLASH, true, true)) else b
  }

  /** didShoot(): the latched shot, which the call clears. */
  function DidShoot(b: Body): (r: (Body, bool))
    ensures r.1 == b.gun.spawnBullet && !r.0.gun.spawnBullet
    ensures r.0 == b.(gun := b.gun.(spawnBullet := false))
  {
    (b.(gun := b.gun.(spawnBullet := false)), b.gun.spawnBullet)
  }

  /** Two calls in a row never both report a shot. */
  lemma {:induction false} DidShootOnce(b: Body)
    ensures !DidShoot(DidShoot(b).0).1
  {
  }

  /** The recoil push: against the facing direction, or none without a pending recoil. */
  function RecoilPush(b: Body): real {
    if b.gun.recoil then (if b.faceRight then -RECOIL_DISTANCE else RECOIL_DISTANCE) else 0.0
  }

  /**
   * checkTileMapCollisionRecoil(): after a shot the temporary x moves 2 pixels
   * against the facing direction, unless the key in that direction is held;
   * a solid tile there snaps x to the centre of its column instead.  The
   * recoil flag is always cleared.
   */
  function Recoil(b: Body, g: TileMap.Grid): (r: Body)
    requires TileMap.WellFormed(g)
    ensures r == b.(motion := r.motion, gun := b.gun.(recoil := false))
  {
    var dx := RecoilPush(b);
    var x := b.motion.temp.x;
    var mapx := MapIndex(x);
    var c := Probe(g, Vec(x + dx, b.motion.coords.y));
    var tx :=
      if dx < 0.0 && b.faceRight && !b.keys.left then (if c.nw || c.sw then ColumnCentre(mapx) else x + dx)
      else if dx > 0.0 && !b.faceRight && !b.keys.right then (if c.ne || c.se then ((mapx + 1) * TILE_SIZE - HALF_TILE) as real else x + dx)
      else x;
    b.(motion := b.motion.(temp := Vec(tx, b.motion.temp.y), dest := Vec(x + dx, b.motion.dest.y), corners := c),
       gun := b.gun.(recoil := false))
  }

  /**
   * The recoil pass always records the pushed destination and the corners
   * probed there, and moves only the temporary x.
   */
  lemma {:induction false} RecoilFrame(b: Body, g: TileMap.Grid)
    requires TileMap.WellFormed(g)
    ensures var r := Recoil(b, g);
      r.motion == b.motion.(temp := Vec(r.motion.temp.x, b.motion.temp.y),
                            dest := Vec(b.motion.temp.x + RecoilPush(b), b.motion.dest.y),
                            corners := Probe(g, Vec(b.motion.temp.x + RecoilPush(b), b.motion.coords.y)))
  {
  }

  /** No pending recoil, or the key against the push held: the position stays. */
  lemma {:induction false} RecoilHeld(b: Body, g: TileMap.Grid)
    requires TileMap.WellFormed(g)
    requires !b.gun.recoil || (b.faceRight && b.keys.left) || (!b.faceRight && b.keys.right)
    ensures Recoil(b, g).motion.temp == b.motion.temp
  {
  }

  /** Facing right, the push goes 2 pixels west, or snaps to the column centre on a solid tile. */
  lemma {:induction false} RecoilWest(b: Body, g: TileMap.Grid)
    requires TileMap.WellFormed(g)
    requires b.gun.recoil && b.faceRight && !b.keys.left
    ensures Recoil(b, g).motion.temp.x ==
      (if WestBlocked(g, b.motion.temp.x, b.motion.coords.y, -RECOIL_DISTANCE, true)
       then ColumnCentre(MapIndex(b.motion.temp.x)) else b.motion.temp.x - RECOIL_DISTANCE)
  {
    assert RecoilPush(b) == -RECOIL_DISTANCE;
  }

  /** Facing left, the push goes 2 pixels east, or snaps to the column centre on a solid tile. */
  lemma {:induction false} RecoilEast(b: Body, g: TileMap.Grid)
    requires TileMap.WellFormed(g)
    requires b.gun.recoil && !b.faceRight && !b.keys.right
    ensures Recoil(b, g).motion.temp.x ==
      (if EastBlocked(g, b.motion.temp.x, b.motion.coords.y, RECOIL_DISTANCE, true)
       then ColumnCentre(MapIndex(b.motion.temp.x)) else b.motion.temp.x + RECOIL_DISTANCE)
  {
    assert RecoilPush(b) == RECOIL_DISTANCE;
    assert (MapIndex(b.motion.temp.x) + 1) * TILE_SIZE - HALF_TILE == MapIndex(b.motion.temp.x) * TILE_SIZE + HALF_TILE;
  }

  // ---------------------------------------------------------------------
  // Dying

  /**
   * The common end of a dead object's update: the death clip is shown, the
   * death timer counts down, and the object is flagged for removal once the
   * timer is below 0 and, when `gated`, the death clip has played once.
   */
  function Expire(b: Body, death: int, gated: bool): (r: Body)
    requires 0 <= death < |b.clips|
    ensures r == b.(anim := death, life := b.life.(timeAfterDeath := b.life.timeAfterDeath - 1, remove := r.life.remove))
    ensures r.life.remove <==> b.life.remove || (b.life.timeAfterDeath - 1 < 0 && (!gated || b.clips[death].playedOnce))
  {
    var tad := b.life.timeAfterDeath - 1;
    var done := (!gated || b.clips[death].playedOnce) && tad < 0;
    b.(anim := death, life := b.life.(timeAfterDeath := tad, remove := b.life.remove || done))
  }

  /** The first part of every alive update: tempCoords.setLocation(coords). */
  function Begin(b: Body): Body {
    b.(motion := b.motion.(temp := b.motion.coords))
  }

  /** The last part of a clamped update: limitToScreen, then setPos(tempCoords). */
  function Commit(b: Body): (r: Body)
    ensures r == b.(motion := r.motion)
    ensures 0.0 <= r.motion.coords.x <= MAX_X && 0.0 <= r.motion.coords.y <= MAX_Y
    ensures r.motion.coords == r.motion.temp == LimitToScreen(b.motion).temp
  {
    var m := LimitToScreen(b.motion);
    ClampedCommit(b.motion);
    b.(motion := SetPos(m, m.temp))
  }

  /** Without the clamp: setPos(tempCoords). */
  function Settle(b: Body): Body {
    b.(motion := SetPos(b.motion, b.motion.temp))
  }

  /** The friction of a dead object: stopXMovement(0.025). */
  function Slow(b: Body): Body {
    b.(motion := StopXMovement(b.motion, b.faceRight, DEATH_FRICTION))
  }

  // ---------------------------------------------------------------------
  // Update of each kind

  /**
   * Player.update().  Alive: shooting, move, jump, the full tile collision,
   * the recoil, the clamp and the commit.  Dead: friction, the tile
   * collision, the commit without a clamp, and the gated death timer.
   */
  function PlayerUpdate(b: Body, g: TileMap.Grid, ready: bool, slowOwned: bool): (r: Body)
    requires Valid(b) && b.kind == Player && TileMap.WellFormed(g)
    ensures Valid(r) && r.kind == Player && r.life.alive == b.life.alive
    ensures b.life.alive ==> 0.0 <= r.motion.coords.x <= MAX_X && 0.0 <= r.motion.coords.y <= MAX_Y
    ensures b.life.alive ==> !r.gun.recoil && r.life == b.life
    ensures b.life.alive && !b.motion.jumping ==> !r.motion.jumping
    ensures !b.life.alive ==> r.anim == PLAYER_DEATH && r.life.timeAfterDeath == b.life.timeAfterDeath - 1
    ensures !b.life.alive ==> (r.life.remove <==> b.life.remove || (b.clips[PLAYER_DEATH].playedOnce && b.life.timeAfterDeath - 1 < 0))
  {
    if b.life.alive then PlayerLive(b, g, ready, slowOwned) else PlayerDying(b, g)
  }

  /** The alive branch of Player.update(). */
  function PlayerLive(b: Body, g: TileMap.Grid, ready: bool, slowOwned: bool): (r: Body)
    requires Valid(b) && b.kind == Player && TileMap.WellFormed(g)
    ensures Valid(r) && r.kind == Player
    ensures 0.0 <= r.motion.coords.x <= MAX_X && 0.0 <= r.motion.coords.y <= MAX_Y
    ensures !r.gun.recoil && r.life == b.life
    ensures !b.motion.jumping ==> !r.motion.jumping
  {
    var b1 := PlayerMove(Shooting(Begin(b), ready));
    var b2 := Jump(b1, slowOwned);
    var b3 := b2.(motion := Collide(b2.motion, g, true, true, true, true));
    Commit(Recoil(b3, g))
  }

  /** The dead branch of Player.update(). */
  function PlayerDying(b: Body, g: TileMap.Grid): (r: Body)
    requires Valid(b) && b.kind == Player && TileMap.WellFormed(g)
    ensures Valid(r) && r.kind == Player && r.life.alive == b.life.alive
    ensures r.anim == PLAYER_DEATH && r.life.timeAfterDeath == b.life.timeAfterDeath - 1
    ensures r.life.remove <==> b.life.remove || (b.clips[PLAYER_DEATH].playedOnce && b.life.timeAfterDeath - 1 < 0)
  {
    var b1 := Slow(b);
    var b2 := b1.(motion := Collide(b1.motion, g, true, true, true, true));
    Expire(Settle(b2), PLAYER_DEATH, true)
  }

  /**
   * Mushroom's checkTileMapCollision override: the base resolver, and a
   * blocked side move also turns the mushroom around: the key toward the
   * wall is released, the other one is held and it faces away from the wall.
   */
  function MushroomCollide(b: Body, g: TileMap.Grid, up: bool, down: bool, left: bool, right: bool): (r: Body)
    requires TileMap.WellFormed(g)
    ensures r.motion == Collide(b.motion, g, up, down, left, right)
    ensures r.kind == b.kind && r.clips == b.clips && r.anim == b.anim && r.life == b.life && r.gun == b.gun
  {
    var m := Collide(b.motion, g, up, down, left, right);
    if BlockedLeft(b.motion, g, left) then
      b.(motion := m, keys := b.keys.(right := true, left := false), faceRight := true)
    else if BlockedRight(b.motion, g, right) then
      b.(motion := m, keys := b.keys.(left := true, right := false), faceRight := false)
    else b.(motion := m)
  }

  /**
   * A blocked side move turns the mushroom around: the key toward the wall
   * is released, the other one is held and it faces away from the wall;
   * otherwise only the motion changes.
   */
  lemma {:induction false} MushroomTurns(b: Body, g: TileMap.Grid, up: bool, down: bool, left: bool, right: bool)
    requires TileMap.WellFormed(g)
    ensures var r := MushroomCollide(b, g, up, down, left, right);
      (BlockedLeft(b.motion, g, left) ==>
         r == b.(motion := r.motion, keys := b.keys.(right := true, left := false), faceRight := true)) &&
      (BlockedRight(b.motion, g, right) && !BlockedLeft(b.motion, g, left) ==>
         r == b.(motion := r.motion, keys := b.keys.(left := true, right := false), faceRight := false)) &&
      (!BlockedLeft(b.motion, g, left) && !BlockedRight(b.motion, g, right) ==> r == b.(motion := r.motion))
  {
  }

  /** Mushroom.update(): like the player without shooting and recoil, and with the turning collision. */
  function MushroomUpdate(b: Body, g: TileMap.Grid): (r: Body)
    requires Valid(b) && b.kind == Mushroom && TileMap.WellFormed(g)
    ensures Valid(r) && r.kind == Mushroom && r.life.alive == b.life.alive
    ensures b.life.alive ==> 0.0 <= r.motion.coords.x <= MAX_X && 0.0 <= r.motion.coords.y <= MAX_Y
    ensures b.life.alive ==> r.life == b.life
    ensures b.life.alive && !b.motion.jumping ==> !r.motion.jumping
    ensures !b.life.alive ==> r.anim == WALKER_DEATH && r.life.timeAfterDeath == b.life.timeAfterDeath - 1
    ensures !b.life.alive ==> (r.life.remove <==> b.life.remove || (b.clips[WALKER_DEATH].playedOnce && b.life.timeAfterDeath - 1 < 0))
  {
    if b.life.alive then MushroomLive(b, g) else MushroomDying(b, g)
  }

  /** The alive branch of Mushroom.update(). */
  function MushroomLive(b: Body, g: TileMap.Grid): (r: Body)
    requires Valid(b) && b.kind == Mushroom && TileMap.WellFormed(g)
    ensures Valid(r) && r.kind == Mushroom
    ensures 0.0 <= r.motion.coords.x <= MAX_X && 0.0 <= r.motion.coords.y <= MAX_Y
    ensures r.life == b.life
    ensures !b.motion.jumping ==> !r.motion.jumping
  {
    var b1 := Jump(MushroomMove(Begin(b)), false);
    Commit(MushroomCollide(b1, g, true, true, true, true))
  }

  /** The dead branch of Mushroom.update(). */
  function MushroomDying(b: Body, g: TileMap.Grid): (r: Body)
    requires Valid(b) && b.kind == Mushroom && TileMap.WellFormed(g)
    ensures Valid(r) && r.kind == Mushroom && r.life.alive == b.life.alive
    ensures r.anim == WALKER_DEATH && r.life.timeAfterDeath == b.life.timeAfterDeath - 1
    ensures r.life.remove <==> b.life.remove || (b.clips[WALKER_DEATH].playedOnce && b.life.timeAfterDeath - 1 < 0)
  {
    var b1 := MushroomCollide(Slow(b), g, true, true, true, true);
    Expire(Settle(b1), WALKER_DEATH, true)
  }

  /**
   * SpikeBlock's checkTileMapCollision override: only the downward move is
   * resolved, x stays where it is, and the ground probe runs as in the base;
   * the result is the base resolver with only the down axis enabled.
   */
  function SpikeCollide(m: Motion, g: TileMap.Grid, down: bool): (r: Motion)
    requires TileMap.WellFormed(g)
    ensures r == m.(temp := Vec(m.coords.x, r.temp.y), dest := r.dest, delta := Vec(m.delta.x, r.delta.y), falling := r.falling, corners := r.corners)
  {
    var x, y, dx, dy := m.coords.x, m.coords.y, m.delta.x, m.delta.y;
    var mapy := MapIndex(y);
    var c := Probe(g, Vec(x, y + dy));
    var v :=
      if down && dy > 0.0 then
        (if c.sw || c.se then (((mapy + 1) * TILE_SIZE - HALF_TILE) as real, 0.0, false) else (y + dy, dy, m.falling))
      else (y, dy, m.falling);
    var ground := Probe(g, Vec(x, y + dy + 1.0));
    m.(temp := Vec(x, v.0), dest := Vec(x + dx, y + dy), delta := Vec(dx, v.1),
       falling := v.2 || (!ground.sw && !ground.se), corners := ground)
  }

  /** The spike block's collision is the base resolver with only the down axis enabled. */
  lemma {:induction false} SpikeCollideIsBase(m: Motion, g: TileMap.Grid, down: bool)
    requires TileMap.WellFormed(g)
    ensures SpikeCollide(m, g, down) == Collide(m, g, false, down, false, false)
  {
    var r, c := SpikeCollide(m, g, down), Collide(m, g, false, down, false, false);
    var y, dy := m.coords.y, m.delta.y;
    var v := PassY(g, m.coords.x, y, dy, false, down, m.falling);
    PassYCases(g, m.coords.x, y, dy, false, down, m.falling);
    if down && dy > 0.0 {
      var probe := Probe(g, Vec(m.coords.x, y + dy));
      if probe.sw || probe.se {
        assert SouthBlocked(g, m.coords.x, y, dy, down);
        assert (r.temp.y, r.delta.y, false) == v;
      } else {
        assert !SouthBlocked(g, m.coords.x, y, dy, down);
        assert (r.temp.y, r.delta.y, m.falling) == v;
      }
    } else {
      assert (r.temp.y, r.delta.y, m.falling) == v;
    }
    assert r.temp == c.temp && r.delta == c.delta;
  }

  /** SpikeBlock.move(): the standby clip, with the left and right clips reset. */
  function SpikeMove(b: Body): (r: Body)
    requires Valid(b) && b.kind == SpikeBlock
    ensures Valid(r)
    ensures r == b.(anim := WALKER_STANDBY, clips := r.clips)
    ensures r.clips == b.clips[WALKER_LEFT := Rewound(b.clips[WALKER_LEFT])][WALKER_RIGHT := Rewound(b.clips[WALKER_RIGHT])]
  {
    Show(b, WALKER_STANDBY, WALKER_DEATH)
  }

  /** SpikeBlock.update(): no speed of its own, only gravity through the down-only collision. */
  function SpikeUpdate(b: Body, g: TileMap.Grid): (r: Body)
    requires Valid(b) && b.kind == SpikeBlock && TileMap.WellFormed(g)
    ensures Valid(r) && r.kind == SpikeBlock && r.life.alive == b.life.alive
    ensures r.motion.delta.x == (if b.life.alive then b.motion.delta.x else StopXMovement(b.motion, b.faceRight, DEATH_FRICTION).delta.x)
    ensures b.life.alive ==> 0.0 <= r.motion.coords.x <= MAX_X && 0.0 <= r.motion.coords.y <= MAX_Y && r.life == b.life
    ensures !b.life.alive ==> r.anim == WALKER_DEATH && r.life.timeAfterDeath == b.life.timeAfterDeath - 1
    ensures !b.life.alive ==> (r.life.remove <==> b.life.remove || (b.clips[WALKER_DEATH].playedOnce && b.life.timeAfterDeath - 1 < 0))
  {
    if b.life.alive then
      var b1 := SpikeMove(Begin(b));
      Commit(b1.(motion := SpikeCollide(b1.motion, g, true)))
    else
      var b1 := Slow(b);
      Expire(Settle(b1.(motion := SpikeCollide(b1.motion, g, true))), WALKER_DEATH, true)
  }

  /** A spike block at rest on screen stays exactly where it is. */
  lemma {:induction false} SpikeStaysPut(b: Body, g: TileMap.Grid)
    requires Valid(b) && b.kind == SpikeBlock && TileMap.WellFormed(g) && b.life.alive
    requires b.motion.delta == Vec(0.0, 0.0)
    requires 0.0 <= b.motion.coords.x <= MAX_X && 0.0 <= b.motion.coords.y <= MAX_Y
    ensures SpikeUpdate(b, g).motion.coords == b.motion.coords
    ensures SpikeUpdate(b, g).motion.delta == Vec(0.0, 0.0)
  {
    var b1 := SpikeMove(Begin(b));
    var m := SpikeCollide(b1.motion, g, true);
    assert m.temp == b.motion.coords;
  }

  // ---------------------------------------------------------------------
  // The boss

  /**
   * SparklyBoss.move(): both axes use the integrator with acceleration and
   * friction 0.2 and cap 2; past the cap the speed is replaced by a
   * sinusoid: 2 + 1.5 sin(c) to the right, -2 + 1.5 cos(c/3) to the left
   * and 2 + 4 sin(c) down, where c is the degree counter.  The down key wins
   * over up.  The counter then steps by 1 and the move is applied to the
   * position, with no tile check.
   */
  function BossMove(b: Body, sinA: real, cosB: real): (r: Body)
    ensures r == b.(motion := r.motion, sinCounter := b.sinCounter + 1.0, anim := BOSS_STANDBY)
    ensures r.motion == b.motion.(temp := Vec(b.motion.coords.x + r.motion.delta.x, b.motion.coords.y + r.motion.delta.y),
                                  delta := r.motion.delta)
    ensures r.motion.delta.x == Accelerate(b.motion.delta.x, b.keys.right, b.keys.left, 0.2, 2.0, 0.2, 2.0 + sinA * 1.5, -2.0 + cosB * 1.5)
    ensures r.motion.delta.y == Accelerate(b.motion.delta.y, b.keys.down, b.keys.up, 0.2, 2.0, 0.2, 2.0 + sinA * 4.0, -2.0)
  {
    var t := TuningOf(SparklyBoss);
    var sx, sy := sinA * 1.5, cosB * 1.5;
    var dx := Accelerate(b.motion.delta.x, b.keys.right, b.keys.left, t.moveAcceleration, t.moveSpeedMax, t.moveStopAcceleration,
                         t.moveSpeedMax + sx, -t.moveSpeedMax + sy);
    var dy := Accelerate(b.motion.delta.y, b.keys.down, b.keys.up, t.moveAcceleration, t.moveSpeedMax, t.moveStopAcceleration,
                         t.moveSpeedMax + sinA * 4.0, -t.moveSpeedMax);
    b.(motion := b.motion.(temp := Vec(b.motion.coords.x + dx, b.motion.coords.y + dy), delta := Vec(dx, dy)),
       sinCounter := b.sinCounter + 1.0, anim := BOSS_STANDBY)
  }

  /** With sine and cosine in [-1, 1], the boss's speed stays within 3.5 across and 6 down. */
  lemma {:induction false} BossSpeedBounded(b: Body, sinA: real, cosB: real)
    requires -1.0 <= sinA <= 1.0 && -1.0 <= cosB <= 1.0
    requires RAbs(b.motion.delta.x) <= 3.5 && RAbs(b.motion.delta.y) <= 6.0
    ensures RAbs(BossMove(b, sinA, cosB).motion.delta.x) <= 3.5
    ensures RAbs(BossMove(b, sinA, cosB).motion.delta.y) <= 6.0
  {
  }

  /** The horizontal half of SparklyBoss.limitToScreen(); keyLeft/keyRight turn the boss. */
  function BossLimitX(b: Body): (r: Body)
    requires b.kind == SparklyBoss
    ensures r == b.(motion := r.motion, keys := b.keys.(left := r.keys.left, right := r.keys.right), faceRight := r.faceRight)
    ensures r.motion == b.motion.(delta := Vec(r.motion.delta.x, b.motion.delta.y))
    ensures b.motion.temp.x > 306.0 ==> r.motion.delta.x == -b.motion.delta.x && r.keys.left && !r.keys.right && r.faceRight
    ensures b.motion.temp.x < 14.0 ==> r.motion.delta.x == -b.motion.delta.x && !r.keys.left && r.keys.right && r.faceRight
    ensures 14.0 <= b.motion.temp.x <= 306.0 ==> r == b
  {
    var w2 := HitSize(SparklyBoss).0 / 2;
    var tx := b.motion.temp.x;
    var m := b.motion.(delta := Vec(-b.motion.delta.x, b.motion.delta.y));
    if tx > (WIN_W - w2) as real then
      b.(motion := m, keys := b.keys.(left := true, right := false), faceRight := true)
    else if tx < 0.0 + w2 as real then
      b.(motion := m, keys := b.keys.(left := false, right := true), faceRight := true)
    else b
  }

  /** The vertical half: keyUp/keyDown only set the keys. */
  function BossLimitY(b: Body): (r: Body)
    ensures r == b.(motion := r.motion, keys := b.keys.(up := r.keys.up, down := r.keys.down))
    ensures r.motion == b.motion.(delta := Vec(b.motion.delta.x, r.motion.delta.y))
    ensures b.motion.temp.y > 242.0 ==> r.motion.delta.y == -b.motion.delta.y && r.keys.up && !r.keys.down
    ensures b.motion.temp.y < 14.0 ==> r.motion.delta.y == -b.motion.delta.y && !r.keys.up && r.keys.down
    ensures 14.0 <= b.motion.temp.y <= 242.0 ==> r == b
  {
    var h2 := HitSize(SparklyBoss).1 / 2;
    var ty := b.motion.temp.y;
    var m := b.motion.(delta := Vec(b.motion.delta.x, -b.motion.delta.y));
    if ty > (WIN_H - h2) as real then
      b.(motion := m, keys := b.keys.(up := true, down := false))
    else if ty < 0.0 + h2 as real then
      b.(motion := m, keys := b.keys.(up := false, down := true))
    else b
  }

  /**
   * SparklyBoss.limitToScreen(): past x = 306 (or below 14) the horizontal
   * speed is reversed and the keys are set to fly back; y likewise with 242
   * and 14.  The position itself is not clamped.
   */
  function BossLimit(b: Body): (r: Body)
    requires b.kind == SparklyBoss
    ensures r.motion == b.motion.(delta := r.motion.delta)
    ensures r == b.(motion := r.motion, keys := r.keys, faceRight := r.faceRight)
    ensures b.motion.temp.x > 306.0 ==> r.motion.delta.x == -b.motion.delta.x && r.keys.left && !r.keys.right
    ensures b.motion.temp.x < 14.0 ==> r.motion.delta.x == -b.motion.delta.x && !r.keys.left && r.keys.right
    ensures 14.0 <= b.motion.temp.x <= 306.0 ==>
              r.motion.delta.x == b.motion.delta.x && r.keys.left == b.keys.left && r.keys.right == b.keys.right && r.faceRight == b.faceRight
    ensures b.motion.temp.y > 242.0 ==> r.motion.delta.y == -b.motion.delta.y && r.keys.up && !r.keys.down
    ensures b.motion.temp.y < 14.0 ==> r.motion.delta.y == -b.motion.delta.y && !r.keys.up && r.keys.down
    ensures 14.0 <= b.motion.temp.y <= 242.0 ==> r.motion.delta.y == b.motion.delta.y && r.keys.up == b.keys.up && r.keys.down == b.keys.down
    ensures !(14.0 <= b.motion.temp.x <= 306.0) ==> r.faceRight
  {
    BossLimitY(BossLimitX(b))
  }

  /** SparklyBoss.update(): alive it flies and bounces; dead it holds still and is removed after its timer, played or not. */
  function BossUpdate(b: Body, sinA: real, cosB: real): (r: Body)
    requires Valid(b) && b.kind == SparklyBoss
    ensures Valid(r) && r.kind == SparklyBoss && r.life.alive == b.life.alive
    ensures b.life.alive ==> r.life == b.life && r.sinCounter == b.sinCounter + 1.0
    ensures !b.life.alive ==> r.motion == SetPos(b.motion, b.motion.temp) && r.anim == BOSS_DEATH
    ensures !b.life.alive ==> r.life.timeAfterDeath == b.life.timeAfterDeath - 1 &&
                              (r.life.remove <==> b.life.remove || b.life.timeAfterDeath - 1 < 0)
  {
    if b.life.alive then
      var b1 := BossLimit(BossMove(Begin(b), sinA, cosB));
      Settle(b1)
    else
      Expire(Settle(b), BOSS_DEATH, false)
  }

  /** A dead boss whose position is its committed temporary position does not move. */
  lemma {:induction false} DeadBossStill(b: Body, sinA: real, cosB: real)
    requires Valid(b) && b.kind == SparklyBoss && !b.life.alive
    requires b.motion.coords == SetPos(b.motion, b.motion.temp).coords
    ensures BossUpdate(b, sinA, cosB).motion.coords == b.motion.coords
  {
  }

  // ---------------------------------------------------------------------
  // Bullets

  /** Bullet's screen limit: only x is checked, and leaving the screen kills the bullet. */
  function BulletLimit(b: Body): (r: Body)
    ensures r.motion == b.motion.(temp := Vec(Clamp(b.motion.temp.x, MAX_X), b.motion.temp.y))
    ensures 0.0 <= b.motion.temp.x <= MAX_X ==> r == b
    ensures !(0.0 <= b.motion.temp.x <= MAX_X) ==> r == b.(motion := r.motion, life := b.life.(alive := false, remove := true))
  {
    var tx := b.motion.temp.x;
    if tx > MAX_X then
      b.(motion := b.motion.(temp := Vec(MAX_X, b.motion.temp.y)), life := b.life.(alive := false, remove := true))
    else if tx < 0.0 then
      b.(motion := b.motion.(temp := Vec(0.0, b.motion.temp.y)), life := b.life.(alive := false, remove := true))
    else b
  }

  /** Bullet.update(): an alive bullet flies by its speed, with no tile check; a dead one is flagged for removal. */
  function BulletUpdate(b: Body): (r: Body)
    ensures r.kind == b.kind && r.clips == b.clips && r.anim == b.anim
    ensures !b.life.alive ==> r == b.(life := b.life.(remove := true))
    ensures b.life.alive ==>
      var t := Vec(b.motion.coords.x + b.motion.delta.x, b.motion.coords.y + b.motion.delta.y);
      r.motion == SetPos(b.motion.(temp := Vec(Clamp(t.x, MAX_X), t.y)), Vec(Clamp(t.x, MAX_X), t.y)) &&
      (r.life.alive <==> 0.0 <= t.x <= MAX_X) && (r.life.remove <==> b.life.remove || !(0.0 <= t.x <= MAX_X))
  {
    if b.life.alive then
      var b1 := b.(motion := b.motion.(temp := Vec(b.motion.coords.x + b.motion.delta.x, b.motion.coords.y + b.motion.delta.y)));
      Settle(BulletLimit(b1))
    else b.(life := b.life.(remove := true))
  }

  // ---------------------------------------------------------------------
  // Kill and the key setters, by kind

  /** kill(): pickups are only flagged for removal; everything else loses a hit point. */
  function Kill(b: Body): (r: (Body, bool))
    ensures b.kind in {SlowFall, Key} ==> r == (b.(life := b.life.(remove := true)), true)
    ensures b.kind !in {SlowFall, Key} ==> r == (b.(life := BaseKill(b.life).0), BaseKill(b.life).1)
    ensures r.0.kind == b.kind && r.0.motion == b.motion && r.0.clips == b.clips && r.0.anim == b.anim
  {
    if b.kind == SlowFall || b.kind == Key then (b.(life := b.life.(remove := true)), true)
    else
      var (l, killed) := BaseKill(b.life);
      (b.(life := l), killed)
  }

  /** A bullet has no hit points, so one kill always succeeds and leaves it dead. */
  lemma {:induction false} BulletDiesAtOnce(b: Body)
    requires b.kind == Bullet && b.life.hp == 0
    ensures Kill(b).1 && !Kill(b).0.life.alive
  {
  }

  /** keyRight(d): the player turns unless fire is held; the mushroom and the boss always turn. */
  function KeyRight(b: Body, d: bool): (r: Body)
    ensures r.keys == b.keys.(right := d)
    ensures r == b.(keys := r.keys, faceRight := r.faceRight)
    ensures r.faceRight == (if b.kind == Player then !b.keys.fire || b.faceRight
                            else b.kind in {Mushroom, SparklyBoss} || b.faceRight)
  {
    var k := b.(keys := b.keys.(right := d));
    match b.kind
    case Player => if !b.keys.fire then k.(faceRight := true) else k
    case Mushroom => k.(faceRight := true)
    case SparklyBoss => k.(faceRight := true)
    case _ => k
  }

  /** keyLeft(d): the mirror image of keyRight. */
  function KeyLeft(b: Body, d: bool): (r: Body)
    ensures r.keys == b.keys.(left := d)
    ensures r == b.(keys := r.keys, faceRight := r.faceRight)
    ensures r.faceRight == (if b.kind == Player then b.keys.fire && b.faceRight
                            else b.kind !in {Mushroom, SparklyBoss} && b.faceRight)
  {
    var k := b.(keys := b.keys.(left := d));
    match b.kind
    case Player => if !b.keys.fire then k.(faceRight := false) else k
    case Mushroom => k.(faceRight := false)
    case SparklyBoss => k.(faceRight := false)
    case _ => k
  }

  function KeyUp(b: Body, d: bool): (r: Body)
    ensures r == b.(keys := b.keys.(up := d))
  {
    b.(keys := b.keys.(up := d))
  }

  function KeyDown(b: Body, d: bool): (r: Body)
    ensures r == b.(keys := b.keys.(down := d))
  {
    b.(keys := b.keys.(down := d))
  }

  function KeyJump(b: Body, d: bool): (r: Body)
    ensures r == b.(keys := b.keys.(jump := d))
  {
    b.(keys := b.keys.(jump := d))
  }

  function KeyFire(b: Body, d: bool): (r: Body)
    ensures r == b.(keys := b.keys.(fire := d))
  {
    b.(keys := b.keys.(fire := d))
  }

  // ---------------------------------------------------------------------
  // Update dispatch and render effects

  /** update() of any kind; doors, pickups and keys do nothing. */
  function Update(b: Body, g: TileMap.Grid, ready: bool, slowOwned: bool, sinA: real, cosB: real): (r: Body)
    requires Valid(b) && TileMap.WellFormed(g)
    ensures Valid(r) && r.kind == b.kind
    ensures b.kind in {SlowFall, Door, Key} ==> r == b
    ensures r.life.alive ==> b.life.alive
  {
    match b.kind
    case Player => PlayerUpdate(b, g, ready, slowOwned)
    case Mushroom => MushroomUpdate(b, g)
    case SpikeBlock => SpikeUpdate(b, g)
    case SparklyBoss => BossUpdate(b, sinA, cosB)
    case Bullet => BulletUpdate(b)
    case _ => b
  }

  /** getFrame() called `k` times on the current clip. */
  function Tick(b: Body, k: nat): (r: Body)
    requires Valid(b)
    ensures Valid(r) && r == b.(clips := r.clips)
    ensures r.clips == b.clips[b.anim := Iterate(b.clips[b.anim], k)]
  {
    IterateValid(b.clips[b.anim], k);
    b.(clips := b.clips[b.anim := Iterate(b.clips[b.anim], k)])
  }

  lemma {:induction false} IterateValid(c: Clock, k: nat)
    requires WellFormed(c)
    ensures WellFormed(Iterate(c, k))
  {
    if k > 0 {
      IterateValid(c, k - 1);
    }
  }

  /**
   * The state a render() changes: the current clip ticks once per getFrame
   * (nine times for the boss's 3x3 tiles); the mushroom, spike block and boss
   * draw and clear their hit flash; the player counts its muzzle flash down.
   */
  function Render(b: Body): (r: Body)
    requires Valid(b)
    ensures Valid(r) && r.kind == b.kind && r.motion == b.motion && r.keys == b.keys && r.anim == b.anim
    ensures r.clips == b.clips[b.anim := Iterate(b.clips[b.anim], if b.kind == SparklyBoss then 9 else 1)]
    ensures b.kind in {Mushroom, SpikeBlock, SparklyBoss} ==> r.life == b.life.(isHit := false)
    ensures b.kind !in {Mushroom, SpikeBlock, SparklyBoss} ==> r.life == b.life
    ensures b.kind == Player ==> r.gun.ammoFired == (if b.gun.ammoFired > 0 then b.gun.ammoFired - 1 else b.gun.ammoFired)
    ensures b.kind != Player ==> r.gun == b.gun
  {
    var t := Tick(b, if b.kind == SparklyBoss then 9 else 1);
    match b.kind
    case Player => if t.gun.ammoFired > 0 then t.(gun := t.gun.(ammoFired := t.gun.ammoFired - 1)) else t
    case Mushroom => t.(life := t.life.(isHit := false))
    case SpikeBlock => t.(life := t.life.(isHit := false))
    case SparklyBoss => t.(life := t.life.(isHit := false))
    case _ => t
  }

  // ---------------------------------------------------------------------
  // Construction

  /** The MapObject constructor: alive, every vector (0, 0), every flag and counter cleared. */
  function Fresh(k: Kind, clips: seq<Clock>): (b: Body)
    ensures b.kind == k && b.clips == clips && b.anim == 0 && b.life.alive && !b.life.remove
  {
    var o := Vec(0.0, 0.0);
    Body(k, Motion(o, o, o, o, o, false, false, 0.0, NO_CORNERS), NO_KEYS, false,
         Life(true, false, 0, 0, 0, false, 0, 0), 0, clips, 0.0, Gun(0, false, false))
  }

  /** A range clip with a delay limit. */
  function Timed(first: int, n: nat, limit: int): Clock {
    WithDelayLimit(RangeClip(first, n), limit)
  }

  function NewPlayer(): (b: Body)
    ensures Valid(b) && b.kind == Player && b.faceRight && b.life.alive
    ensures b.motion.coords == b.motion.spawn == Vec(24.0, 232.0)
    ensures b.life.timeAfterDeath == 50 && b.life.hp == 0
    ensures !b.clips[PLAYER_DEATH].loop && forall i :: 0 <= i < PLAYER_DEATH ==> b.clips[i].loop
  {
    var clips := [Timed(8 * 32 + 12, 4, 10), Timed(9 * 32 + 12, 4, 50), Timed(10 * 32 + 12, 4, 50),
                  Timed(7 * 32 + 12, 4, 10), OnceClip(Timed(11 * 32 + 12, 9, 5))];
    var f := Fresh(Player, clips);
    var spawn := Vec((1 * TILE_SIZE + HALF_TILE) as real, (14 * TILE_SIZE + HALF_TILE) as real);
    f.(faceRight := true, motion := f.motion.(spawn := spawn, coords := spawn), life := f.life.(timeAfterDeath := 50))
  }

  /** The mushroom's 17 death frames. */
  const MUSHROOM_DEATH_FRAMES: seq<int> :=
    [10 * 32 + 21, 10 * 32 + 22, 10 * 32 + 23, 10 * 32 + 24, 10 * 32 + 25, 10 * 32 + 26, 10 * 32 + 27,
     10 * 32 + 28, 10 * 32 + 29, 10 * 32 + 30, 10 * 32 + 31,
     11 * 32 + 26, 11 * 32 + 27, 11 * 32 + 28, 11 * 32 + 29, 11 * 32 + 30, 11 * 32 + 31]

  function NewMushroom(): (b: Body)
    ensures Valid(b) && b.kind == Mushroom && b.faceRight && b.life.alive
    ensures b.life.hp == 4 && b.life.score == 10000 && b.life.timeAfterDeath == 100
    ensures b.motion.coords == b.motion.spawn == Vec(50.0, 50.0)
  {
    var clips := [Timed(8 * 32 + 21, 6, 20), Timed(9 * 32 + 21, 6, 50), Timed(7 * 32 + 21, 6, 20),
                  OnceClip(WithDelayLimit(NewClip(MUSHROOM_DEATH_FRAMES), 3))];
    var f := Fresh(Mushroom, clips);
    f.(faceRight := true, motion := f.motion.(spawn := Vec(50.0, 50.0), coords := Vec(50.0, 50.0)),
       life := f.life.(hp := 4, score := 10000, timeAfterDeath := 100))
  }

  function NewSpikeBlock(): (b: Body)
    ensures Valid(b) && b.kind == SpikeBlock && b.faceRight && b.life.alive
    ensures b.life.hp == 50 && b.life.score == 25 && b.life.timeAfterDeath == 100
    ensures b.motion.coords == b.motion.spawn == Vec(50.0, 50.0) && b.motion.delta == Vec(0.0, 0.0)
  {
    var tile := 15 * 32 + 21;
    var clips := [Timed(tile, 1, 20), Timed(tile, 1, 50), Timed(tile, 1, 20), OnceClip(Timed(tile, 1, 3))];
    var f := Fresh(SpikeBlock, clips);
    f.(faceRight := true, motion := f.motion.(spawn := Vec(50.0, 50.0), coords := Vec(50.0, 50.0)),
       life := f.life.(hp := 50, score := 25, timeAfterDeath := 100))
  }

  const BOSS_ALIVE_FRAMES: seq<int> :=
    [18 * 32 + 1, 18 * 32 + 4, 18 * 32 + 7, 18 * 32 + 10, 18 * 32 + 13,
     18 * 32 + 16, 18 * 32 + 19, 18 * 32 + 22, 18 * 32 + 25, 18 * 32 + 28]

  const BOSS_DEATH_FRAMES: seq<int> :=
    [21 * 32 + 1, 21 * 32 + 4, 21 * 32 + 7, 21 * 32 + 10, 21 * 32 + 13,
     21 * 32 + 16, 21 * 32 + 19, 21 * 32 + 22, 21 * 32 + 15, 21 * 32 + 28]

  function NewBoss(): (b: Body)
    ensures Valid(b) && b.kind == SparklyBoss && b.faceRight && b.life.alive
    ensures b.life.hp == 40 && b.life.score == 1000000 && b.life.timeAfterDeath == 200
    ensures b.clips[BOSS_DEATH].loop
  {
    var clips := [WithDelayLimit(NewClip(BOSS_ALIVE_FRAMES), 50), WithDelayLimit(NewClip(BOSS_DEATH_FRAMES), 10)];
    var f := Fresh(SparklyBoss, clips);
    f.(faceRight := true, life := f.life.(hp := 40, score := 1000000, timeAfterDeath := 200))
  }

  /** Bullet(p, faceRight) with the random draw r in [0, 1): speed 5 in the facing direction, a small vertical aim. */
  function NewBullet(p: Vec, faceRight: bool, r: real): (b: Body)
    ensures Valid(b) && b.kind == Bullet && b.life.alive && b.life.hp == 0
    ensures b.motion.coords == b.motion.spawn == p
    ensures b.motion.delta == Vec(if faceRight then BULLET_SPEED else -BULLET_SPEED, (r - 0.65) * 0.2)
    ensures 0.0 <= r < 1.0 ==> -0.13 <= b.motion.delta.y < 0.07
  {
    var f := Fresh(Bullet, [NewClip([9 * 32 + 7])]);
    var aim := (r - 0.65) * 0.2;
    f.(motion := f.motion.(spawn := p, coords := p, delta := Vec(if faceRight then BULLET_SPEED else -BULLET_SPEED, aim)))
  }

  function NewSlowFall(): (b: Body)
    ensures Valid(b) && b.kind == SlowFall && b.motion.coords == Vec(50.0, 50.0)
  {
    var f := Fresh(SlowFall, [RangeClip(11 * 32 + 2, 1)]);
    f.(motion := f.motion.(spawn := Vec(50.0, 50.0), coords := Vec(50.0, 50.0)))
  }

  function NewDoor(): (b: Body)
    ensures Valid(b) && b.kind == Door && b.motion.coords == Vec(50.0, 50.0)
  {
    var f := Fresh(Door, [RangeClip(11 * 32, 1)]);
    f.(motion := f.motion.(spawn := Vec(50.0, 50.0), coords := Vec(50.0, 50.0)))
  }

  /** Key is not part of this model's sources; it is taken to be a pickup built like SlowFall. */
  function NewKey(): (b: Body)
    ensures Valid(b) && b.kind == Key && b.motion.coords == Vec(50.0, 50.0)
  {
    var f := Fresh(Key, [RangeClip(11 * 32 + 1, 1)]);
    f.(motion := f.motion.(spawn := Vec(50.0, 50.0), coords := Vec(50.0, 50.0)))
  }

  /** A newly built object of the given kind placed at the centre of a tile, with an action and teleport target. */
  function Placed(b: Body, tx: int, ty: int, action: int, teleport: int): (r: Body)
    ensures r.kind == b.kind && r.clips == b.clips && r.anim == b.anim && (Valid(b) ==> Valid(r))
    ensures r.motion == SetSpawnPoint(b.motion, tx, ty)
    ensures r.life == b.life.(action := action, teleport := teleport)
  {
    b.(motion := SetSpawnPoint(b.motion, tx, ty), life := b.life.(action := action, teleport := teleport))
  }
}
