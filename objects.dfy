/**
 * The game objects as the game holds them: one mutable MapObject per object,
 * whose methods change its fields step by step the way the Java methods do.
 * The concrete subclass is the `kind` the object was built with; the
 * overridden methods dispatch on it.  Every method is proved to leave the
 * object in the state the Entities and Bodies functions give for the state
 * it started in, so that what is proved about those functions holds of
 * the objects.
 *
 * The tile lookup the Java reaches through the state manager is the grid
 * `g` of the room being played, passed in.
 */
module Objects {
  import opened JavaLang
  import opened Animations
  import opened Bodies
  import Entities
  import TileMap

  class MapObject {
    const kind: Kind
    /** coords, delta, tempCoords, destCoords, spawnPoint, the jump flags and the corner flags. */
    var motion: Motion
    /** kUp, kDown, kLeft, kRight, kJump, kFire. */
    var keys: Keys
    var faceRight: bool
    /** alive, remove, timeAfterDeath, hp, score, isHit and the collision action and teleport. */
    var life: Life
    var currentAnim: int
    /** The animation clips, as values; see Animations.Animation for the clip object itself. */
    var animation: seq<Clock>
    var sinCounter: real
    /** The player's ammoFired, recoil and spawnBullet. */
    var gun: Gun

    /** The object's state as a value. */
    function Abs(): Body
      reads this
    {
      Body(kind, motion, keys, faceRight, life, currentAnim, animation, sinCounter, gun)
    }

    ghost predicate Valid()
      reads this
    {
      Bodies.Valid(Abs())
    }

    /** Builds the object a subclass constructor builds; `b` is that constructor's result (Entities.NewPlayer and the rest). */
    constructor (b: Body)
      ensures Abs() == b
    {
      kind, motion, keys, faceRight, life := b.kind, b.motion, b.keys, b.faceRight, b.life;
      currentAnim, animation, sinCounter, gun := b.anim, b.clips, b.sinCounter, b.gun;
    }

    // -------------------------------------------------------------------
    // The MapObject base

    /** checkHitBoxCorners(p): the four corner flags for a hit box centred on p. */
    method CheckHitBoxCorners(g: TileMap.Grid, p: Vec)
      requires TileMap.WellFormed(g)
      modifies this`motion
      ensures motion == old(motion).(corners := Probe(g, p))
    {
      ghost var c := Probe(g, p);
      var wTile := EdgeTile(p.x - HALF_TILE as real);
      var eTile := EdgeTile(p.x + HALF_TILE as real - 1.0);
      var nTile := EdgeTile(p.y - HALF_TILE as real);
      var sTile := EdgeTile(p.y + HALF_TILE as real - 1.0);
      var nw := TileMap.TypeAt(g, wTile, nTile) == 1;
      var ne := TileMap.TypeAt(g, eTile, nTile) == 1;
      var sw := TileMap.TypeAt(g, wTile, sTile) == 1;
      var se := TileMap.TypeAt(g, eTile, sTile) == 1;
      assert Corners(nw, ne, sw, se) == c;
      motion := motion.(corners := Corners(nw, ne, sw, se));
    }

    /** The horizontal half of checkTileMapCollision: the new x and x speed; only the corner flags change. */
    method HorizontalPass(g: TileMap.Grid, left: bool, right: bool) returns (tx: real, dx: real)
      requires TileMap.WellFormed(g)
      modifies this`motion
      ensures (tx, dx) == PassX(g, old(motion).coords.x, old(motion).coords.y, old(motion).delta.x, left, right)
      ensures motion == old(motion).(corners := motion.corners)
    {
      var x, y := motion.coords.x, motion.coords.y;
      dx := motion.delta.x;
      tx := x;
      var mapx := MapIndex(x);
      if left || right {
        CheckHitBoxCorners(g, Vec(x + dx, y));
        if left && dx < 0.0 {
          if motion.corners.nw || motion.corners.sw {
            dx := 0.0;
            tx := (mapx * TILE_SIZE + HALF_TILE) as real;
          } else {
            tx := tx + dx;
          }
        }
        if right && dx > 0.0 {
          if motion.corners.ne || motion.corners.se {
            dx := 0.0;
            tx := ((mapx + 1) * TILE_SIZE - HALF_TILE) as real;
          } else {
            tx := tx + dx;
          }
        }
        assert (tx, dx) == StepX(motion.corners, x, old(motion).delta.x, left, right);
      }
    }

    /** The vertical half: the new y, y speed and falling flag; only the corner flags change. */
    method VerticalPass(g: TileMap.Grid, up: bool, down: bool) returns (ty: real, dy: real, falling: bool)
      requires TileMap.WellFormed(g)
      modifies this`motion
      ensures (ty, dy, falling) == PassY(g, old(motion).coords.x, old(motion).coords.y, old(motion).delta.y, up, down, old(motion).falling)
      ensures motion == old(motion).(corners := motion.corners)
    {
      var x, y := motion.coords.x, motion.coords.y;
      dy, falling := motion.delta.y, motion.falling;
      ty := y;
      var mapy := MapIndex(y);
      if up || down {
        CheckHitBoxCorners(g, Vec(x, y + dy));
        if up && dy < 0.0 {
          if motion.corners.nw || motion.corners.ne {
            dy := 0.0;
            ty := (mapy * TILE_SIZE + HALF_TILE) as real;
          } else {
            ty := ty + dy;
          }
        }
        if down && dy > 0.0 {
          if motion.corners.sw || motion.corners.se {
            dy := 0.0;
            ty := ((mapy + 1) * TILE_SIZE - HALF_TILE) as real;
            falling := false;
          } else {
            ty := ty + dy;
          }
        }
        assert (ty, dy, falling) == StepY(motion.corners, y, old(motion).delta.y, up, down, old(motion).falling);
      }
    }

    /** checkTileMapCollision(up, down, left, right) of the base class. */
    method CheckTileMapCollision(g: TileMap.Grid, up: bool, down: bool, left: bool, right: bool)
      requires TileMap.WellFormed(g)
      modifies this`motion
      ensures motion == Collide(old(motion), g, up, down, left, right)
    {
      ghost var m := motion;
      var dex, dey := motion.coords.x + motion.delta.x, motion.coords.y + motion.delta.y;
      var tx, dx := HorizontalPass(g, left, right);
      var ty, dy, falling := VerticalPass(g, up, down);
      falling := GroundPass(g, falling);
      CollideParts(m, g, up, down, left, right, tx, dx, ty, dy, falling, motion.corners);
      motion := motion.(temp := Vec(tx, ty), dest := Vec(dex, dey), delta := Vec(dx, dy), falling := falling);
    }

    /** The ground probe one pixel below the destination: no floor there means falling. */
    method GroundPass(g: TileMap.Grid, falling: bool) returns (f: bool)
      requires TileMap.WellFormed(g)
      modifies this`motion
      ensures motion == old(motion).(corners := Probe(g, Vec(old(motion).coords.x, old(motion).coords.y + old(motion).delta.y + 1.0)))
      ensures f == (falling || (!motion.corners.sw && !motion.corners.se))
    {
      f := falling;
      CheckHitBoxCorners(g, Vec(motion.coords.x, motion.coords.y + motion.delta.y + 1.0));
      if !motion.corners.sw && !motion.corners.se {
        f := true;
      }
    }

    /** limitToScreen() of the base class. */
    method LimitToScreen()
      modifies this`motion
      ensures motion == Bodies.LimitToScreen(old(motion))
    {
      var tx, ty := motion.temp.x, motion.temp.y;
      if tx > (WIN_W - TILE_SIZE) as real {
        tx := (WIN_W - TILE_SIZE) as real;
      } else if tx < 0.0 {
        tx := 0.0;
      }
      if ty > (WIN_H - TILE_SIZE) as real {
        ty := (WIN_H - TILE_SIZE) as real;
      } else if ty < 0.0 {
        ty := 0.0;
      }
      motion := motion.(temp := Vec(tx, ty));
    }

    /** setPos(p). */
    method SetPos(p: Vec)
      modifies this`motion
      ensures motion == Bodies.SetPos(old(motion), p)
    {
      motion := motion.(coords := Vec(FMod(p.x, WIN_W as real), FMod(p.y, WIN_H as real)));
    }

    /** stopXMovement(v). */
    method StopXMovement(v: real)
      modifies this`motion
      ensures motion == Bodies.StopXMovement(old(motion), faceRight, v)
    {
      var dx := motion.delta.x;
      if faceRight {
        dx := dx + -v;
        if dx < 0.0 {
          dx := 0.0;
        }
      } else {
        dx := dx + v;
        if dx > 0.0 {
          dx := 0.0;
        }
      }
      motion := motion.(delta := Vec(dx, motion.delta.y));
    }

    /** setSpawnPoint(tile). */
    method SetSpawnPoint(tx: int, ty: int)
      modifies this`motion
      ensures motion == Bodies.SetSpawnPoint(old(motion), tx, ty)
    {
      var p := Vec((tx * TILE_SIZE + HALF_TILE) as real, (ty * TILE_SIZE + HALF_TILE) as real);
      motion := motion.(spawn := p, coords := p);
    }

    /** setSpawnPos(p): spawn point and position become p itself. */
    method SetSpawnPos(p: Vec)
      modifies this`motion
      ensures motion.spawn == motion.coords == p
      ensures motion == old(motion).(spawn := p, coords := p)
    {
      motion := motion.(spawn := p, coords := p);
    }

    method SetActionOnCollision(action: int)
      modifies this`life
      ensures life == old(life).(action := action)
    {
      life := life.(action := action);
    }

    method SetTeleport(teleport: int)
      modifies this`life
      ensures life == old(life).(teleport := teleport)
    {
      life := life.(teleport := teleport);
    }

    method RemoveMe()
      modifies this`life
      ensures life == old(life).(remove := true)
    {
      life := life.(remove := true);
    }

    /** kill(): the base class's hit-point count, or the pickups' removal. */
    method Kill() returns (killed: bool)
      modifies this`life
      ensures (Abs(), killed) == Entities.Kill(old(Abs()))
    {
      if kind == SlowFall || kind == Key {
        RemoveMe();
        return true;
      }
      killed := false;
      var hp := life.hp - 1;
      if hp <= 0 {
        life := life.(hp := hp, alive := false);
        killed := true;
      } else {
        life := life.(hp := hp, isHit := true);
      }
    }

    /** keyRight(d), with the player's, the mushroom's and the boss's overrides. */
    method KeyRight(d: bool)
      modifies this`keys, this`faceRight
      ensures Abs() == Entities.KeyRight(old(Abs()), d)
    {
      keys := keys.(right := d);
      match kind
      case Player =>
        if !keys.fire {
          faceRight := true;
        }
      case Mushroom =>
        faceRight := true;
      case SparklyBoss =>
        faceRight := true;
      case _ =>
    }

    /** keyLeft(d), likewise. */
    method KeyLeft(d: bool)
      modifies this`keys, this`faceRight
      ensures Abs() == Entities.KeyLeft(old(Abs()), d)
    {
      keys := keys.(left := d);
      match kind
      case Player =>
        if !keys.fire {
          faceRight := false;
        }
      case Mushroom =>
        faceRight := false;
      case SparklyBoss =>
        faceRight := false;
      case _ =>
    }

    method KeyUp(d: bool)
      modifies this`keys
      ensures Abs() == Entities.KeyUp(old(Abs()), d)
    {
      keys := keys.(up := d);
    }

    method KeyDown(d: bool)
      modifies this`keys
      ensures Abs() == Entities.KeyDown(old(Abs()), d)
    {
      keys := keys.(down := d);
    }

    method KeyJump(d: bool)
      modifies this`keys
      ensures Abs() == Entities.KeyJump(old(Abs()), d)
    {
      keys := keys.(jump := d);
    }

    method KeyFire(d: bool)
      modifies this`keys
      ensures Abs() == Entities.KeyFire(old(Abs()), d)
    {
      keys := keys.(fire := d);
    }

    /** getHitBox(). */
    function GetHitBox(): (r: Rect)
      reads this
      ensures (r.w, r.h) == HitSize(kind)
      ensures r.x + r.w / 2 == Trunc(motion.coords.x) && r.y + r.h / 2 == Trunc(motion.coords.y)
    {
      HitBox(Abs())
    }

    /** intersect(other). */
    function Intersect(other: MapObject): (r: bool)
      reads this, other
      ensures r <==> Touches(Abs(), other.Abs())
      ensures r <==> Intersects(other.GetHitBox(), GetHitBox())
    {
      Intersects(GetHitBox(), other.GetHitBox())
    }

    // -------------------------------------------------------------------
    // The subclasses' movement

    /** animation[i].reset(). */
    method ResetClip(i: int)
      requires 0 <= i < |animation|
      modifies this`animation
      ensures animation == old(animation)[i := Rewound(old(animation)[i])]
    {
      var c := animation[i];
      animation := animation[i := c.(current := 0)];
    }

    /** The horizontal integrator of move(), shared by the player, the mushroom and the boss. */
    method Integrate(v: real, plus: bool, minus: bool, t: Tuning, hiCap: real, loCap: real) returns (r: real)
      ensures r == Entities.Accelerate(v, plus, minus, t.moveAcceleration, t.moveSpeedMax, t.moveStopAcceleration, hiCap, loCap)
    {
      r := v;
      if plus {
        r := r + t.moveAcceleration;
        if r > t.moveSpeedMax {
          r := hiCap;
        }
      } else if minus {
        r := r - t.moveAcceleration;
        if r < -t.moveSpeedMax {
          r := loCap;
        }
      } else {
        if r > 0.0 {
          r := r - t.moveStopAcceleration;
          if r < 0.0 {
            r := 0.0;
          }
        } else if r < 0.0 {
          r := r + t.moveStopAcceleration;
          if r > 0.0 {
            r := 0.0;
          }
        }
      }
    }

    /** Player.move(). */
    method PlayerMove()
      requires Valid() && kind == Player
      modifies this`motion, this`currentAnim, this`animation
      ensures Abs() == Entities.PlayerMove(old(Abs()))
    {
      ghost var b := Abs();
      var t := TuningOf(kind);
      var dx := Integrate(motion.delta.x, keys.right, keys.left, t, t.moveSpeedMax, -t.moveSpeedMax);
      ShowPlayerClip();
      motion := motion.(delta := Vec(dx, motion.delta.y));
      assert Abs() == Entities.Show(b, Entities.PlayerClip(b.keys, b.faceRight), Entities.PLAYER_DEATH).(motion := motion);
    }

    /** The clip half of Player.move(): pick the clip for the keys, reset the other walking clips. */
    method ShowPlayerClip()
      requires |animation| > Entities.PLAYER_DEATH
      modifies this`currentAnim, this`animation
      ensures currentAnim == Entities.PlayerClip(keys, faceRight)
      ensures animation == Entities.RewindClips(old(animation), currentAnim, Entities.PLAYER_DEATH)
    {
      ghost var before := animation;
      if keys.right {
        currentAnim := Entities.PLAYER_RIGHT;
        ResetClip(Entities.PLAYER_LEFT);
        ResetClip(Entities.PLAYER_STANDBY_RIGHT);
        ResetClip(Entities.PLAYER_STANDBY_LEFT);
      } else if keys.left {
        currentAnim := Entities.PLAYER_LEFT;
        ResetClip(Entities.PLAYER_RIGHT);
        ResetClip(Entities.PLAYER_STANDBY_RIGHT);
        ResetClip(Entities.PLAYER_STANDBY_LEFT);
      } else if !keys.right && !keys.left && faceRight {
        currentAnim := Entities.PLAYER_STANDBY_RIGHT;
        ResetClip(Entities.PLAYER_LEFT);
        ResetClip(Entities.PLAYER_RIGHT);
        ResetClip(Entities.PLAYER_STANDBY_LEFT);
      } else {
        currentAnim := Entities.PLAYER_STANDBY_LEFT;
        ResetClip(Entities.PLAYER_LEFT);
        ResetClip(Entities.PLAYER_RIGHT);
        ResetClip(Entities.PLAYER_STANDBY_RIGHT);
      }
      SameClips(animation, Entities.RewindClips(before, currentAnim, Entities.PLAYER_DEATH));
    }

    /** Mushroom.move(): the clip follows the sign of the new speed. */
    method MushroomMove()
      requires Valid() && kind == Mushroom
      modifies this`motion, this`currentAnim, this`animation
      ensures Abs() == Entities.MushroomMove(old(Abs()))
    {
      ghost var b := Abs();
      var t := TuningOf(kind);
      var dx := Integrate(motion.delta.x, keys.right, keys.left, t, t.moveSpeedMax, -t.moveSpeedMax);
      assert dx == Entities.MoveX(b);
      ShowWalkerClip(dx);
      motion := motion.(delta := Vec(dx, motion.delta.y));
      assert Abs() == Entities.Show(b, Entities.MushroomClip(dx), Entities.WALKER_DEATH).(motion := motion);
    }

    /** The clip half of Mushroom.move(): pick the clip for the sign of `dx`, reset the others. */
    method ShowWalkerClip(dx: real)
      requires |animation| > Entities.WALKER_DEATH
      modifies this`currentAnim, this`animation
      ensures currentAnim == Entities.MushroomClip(dx)
      ensures animation == Entities.RewindClips(old(animation), currentAnim, Entities.WALKER_DEATH)
    {
      ghost var before := animation;
      if dx > 0.0 {
        currentAnim := Entities.WALKER_RIGHT;
        ResetClip(Entities.WALKER_LEFT);
        ResetClip(Entities.WALKER_STANDBY);
      } else if dx < 0.0 {
        currentAnim := Entities.WALKER_LEFT;
        ResetClip(Entities.WALKER_RIGHT);
        ResetClip(Entities.WALKER_STANDBY);
      } else {
        currentAnim := Entities.WALKER_STANDBY;
        ResetClip(Entities.WALKER_LEFT);
        ResetClip(Entities.WALKER_RIGHT);
      }
      SameClips(animation, Entities.RewindClips(before, currentAnim, Entities.WALKER_DEATH));
    }

    /** SpikeBlock.move(). */
    method SpikeMove()
      requires Valid() && kind == SpikeBlock
      modifies this`currentAnim, this`animation
      ensures Abs() == Entities.SpikeMove(old(Abs()))
    {
      ghost var before := animation;
      currentAnim := Entities.WALKER_STANDBY;
      ResetClip(Entities.WALKER_LEFT);
      ResetClip(Entities.WALKER_RIGHT);
      SameClips(animation, Entities.RewindClips(before, currentAnim, Entities.WALKER_DEATH));
    }

    /** jump() of the player and the mushroom; the mushroom passes slowOwned false. */
    method Jump(slowOwned: bool)
      modifies this`motion
      ensures Abs() == Entities.Jump(old(Abs()), slowOwned)
    {
      var t := TuningOf(kind);
      var dx, dy := motion.delta.x, motion.delta.y;
      var jumping, falling, y0 := motion.jumping, motion.falling, motion.jumpStartY;
      if !falling && keys.jump && !jumping {
        dy := t.jumpInitialSpeed;
        y0 := motion.coords.y;
        jumping := true;
      }
      ghost var start := Entities.StartsJump(old(Abs()));
      assert dy == (if start then t.jumpInitialSpeed else old(motion.delta.y));
      assert jumping == (old(motion.jumping) || start) && falling == old(motion.falling);
      if jumping && !falling {
        if keys.jump {
          dy := dy + -t.jumpSpeed;
        }
        if !keys.jump || motion.coords.y - y0 < t.maxJumpHeight {
          jumping := false;
          falling := true;
        }
      }
      ghost var dy1 := dy;
      if falling {
        if dy < 0.0 {
          dy := dy + t.jumpStopSpeed;
        }
        if dy >= 0.0 {
          if keys.up && slowOwned {
            dy := t.fallSlow;
          } else {
            dy := dy + t.fallSpeed;
          }
        }
        if dy > t.fallSpeedMax {
          dy := t.fallSpeedMax;
        }
        assert dy == Entities.FallStep(dy1, t, keys.up && slowOwned);
      }
      motion := motion.(delta := Vec(dx, dy), jumpStartY := y0, jumping := jumping, falling := falling);
    }

    /** Player.shooting(), with the cooldown test as `ready`. */
    method Shooting(ready: bool)
      modifies this`gun
      ensures Abs() == Entities.Shooting(old(Abs()), ready)
    {
      if keys.fire && ready {
        gun := gun.(spawnBullet := true);
        gun := gun.(ammoFired := Entities.AMMO_FLASH);
        gun := gun.(recoil := true);
      }
    }

    /** Player.didShoot(). */
    method DidShoot() returns (sb: bool)
      modifies this`gun
      ensures (Abs(), sb) == Entities.DidShoot(old(Abs()))
    {
      sb := gun.spawnBullet;
      gun := gun.(spawnBullet := false);
    }

    /** Player.checkTileMapCollisionRecoil(). */
    method Recoil(g: TileMap.Grid)
      requires TileMap.WellFormed(g)
      modifies this`motion, this`gun
      ensures Abs() == Entities.Recoil(old(Abs()), g)
    {
      ghost var b := Abs();
      var dx := 0.0;
      if gun.recoil {
        if faceRight {
          dx := -Entities.RECOIL_DISTANCE;
        } else {
          dx := Entities.RECOIL_DISTANCE;
        }
      }
      assert dx == Entities.RecoilPush(b);
      var dex := motion.temp.x + dx;
      var tx := RecoilPass(g, dx);
      RecoilParts(b, g, tx);
      if gun.recoil {
        gun := gun.(recoil := false);
      }
      motion := motion.(temp := Vec(tx, motion.temp.y), dest := Vec(dex, motion.dest.y));
      assert motion == Entities.Recoil(b, g).motion;
      assert gun == Entities.Recoil(b, g).gun;
    }

    /** The tile test of the recoil push dx: the new temporary x; only the corner flags change. */
    method RecoilPass(g: TileMap.Grid, dx: real) returns (tx: real)
      requires TileMap.WellFormed(g)
      modifies this`motion
      ensures motion == old(motion).(corners := Probe(g, Vec(old(motion).temp.x + dx, old(motion).coords.y)))
      ensures var x, c := old(motion).temp.x, motion.corners;
              tx == if dx < 0.0 && faceRight && !keys.left then (if c.nw || c.sw then ColumnCentre(MapIndex(x)) else x + dx)
                    else if dx > 0.0 && !faceRight && !keys.right then (if c.ne || c.se then ((MapIndex(x) + 1) * TILE_SIZE - HALF_TILE) as real else x + dx)
                    else x
    {
      var x := motion.temp.x;
      tx := x;
      var mapx := MapIndex(x);
      CheckHitBoxCorners(g, Vec(x + dx, motion.coords.y));
      if dx < 0.0 && faceRight && !keys.left {
        if motion.corners.nw || motion.corners.sw {
          tx := (mapx * TILE_SIZE + HALF_TILE) as real;
        } else {
          tx := tx + dx;
        }
      }
      if dx > 0.0 && !faceRight && !keys.right {
        if motion.corners.ne || motion.corners.se {
          tx := ((mapx + 1) * TILE_SIZE - HALF_TILE) as real;
        } else {
          tx := tx + dx;
        }
      }
    }

    /** Mushroom's checkTileMapCollision override. */
    method MushroomCollision(g: TileMap.Grid, up: bool, down: bool, left: bool, right: bool)
      requires TileMap.WellFormed(g)
      modifies this`motion, this`keys, this`faceRight
      ensures Abs() == Entities.MushroomCollide(old(Abs()), g, up, down, left, right)
    {
      var turnRight := BlockedLeft(motion, g, left);
      var turnLeft := !turnRight && BlockedRight(motion, g, right);
      CheckTileMapCollision(g, up, down, left, right);
      if turnRight {
        keys := keys.(right := true, left := false);
        faceRight := true;
      } else if turnLeft {
        keys := keys.(left := true, right := false);
        faceRight := false;
      }
    }

    /** SpikeBlock's checkTileMapCollision override: only the down axis, then the ground probe. */
    method SpikeCollision(g: TileMap.Grid, down: bool)
      requires TileMap.WellFormed(g)
      modifies this`motion
      ensures motion == Entities.SpikeCollide(old(motion), g, down)
    {
      var x, y := motion.coords.x, motion.coords.y;
      var dex, dey := x + motion.delta.x, y + motion.delta.y;
      var ty, dy, falling := VerticalPass(g, false, down);
      CheckHitBoxCorners(g, Vec(x, dey + 1.0));
      if !motion.corners.sw && !motion.corners.se {
        falling := true;
      }
      motion := motion.(temp := Vec(x, ty), dest := Vec(dex, dey), delta := Vec(motion.delta.x, dy), falling := falling);
      assert motion == Collide(old(motion), g, false, down, false, false);
      Entities.SpikeCollideIsBase(old(motion), g, down);
    }

    /** SparklyBoss.move(), with sin(sinCounter) and cos(sinCounter / 3) as sinA and cosB. */
    method BossMove(sinA: real, cosB: real)
      requires kind == SparklyBoss
      modifies this`motion, this`sinCounter, this`currentAnim
      ensures Abs() == Entities.BossMove(old(Abs()), sinA, cosB)
    {
      var t := TuningOf(kind);
      var tx, ty := motion.coords.x, motion.coords.y;
      var sx, sy := sinA * 1.5, cosB * 1.5;
      var dx := Integrate(motion.delta.x, keys.right, keys.left, t, t.moveSpeedMax + sx, -t.moveSpeedMax + sy);
      var dy := Integrate(motion.delta.y, keys.down, keys.up, t, t.moveSpeedMax + sinA * 4.0, -t.moveSpeedMax);
      sinCounter := sinCounter + 1.0;
      currentAnim := Entities.BOSS_STANDBY;
      tx := tx + dx;
      ty := ty + dy;
      motion := motion.(temp := Vec(tx, ty), delta := Vec(dx, dy));
    }

    /** SparklyBoss.limitToScreen(): bounce, through the key setters. */
    method BossLimit()
      requires kind == SparklyBoss
      modifies this`motion, this`keys, this`faceRight
      ensures Abs() == Entities.BossLimit(old(Abs()))
    {
      BounceX();
      BounceY();
    }

    /** The horizontal half of SparklyBoss.limitToScreen(). */
    method BounceX()
      requires kind == SparklyBoss
      modifies this`motion, this`keys, this`faceRight
      ensures Abs() == Entities.BossLimitX(old(Abs()))
    {
      var tx := motion.temp.x;
      var dx := motion.delta.x;
      var w2 := HitSize(kind).0 / 2;
      if tx > (WIN_W - w2) as real {
        KeyLeft(true);
        KeyRight(false);
        dx := -dx;
      } else if tx < 0.0 + w2 as real {
        KeyLeft(false);
        KeyRight(true);
        dx := -dx;
      }
      motion := motion.(delta := Vec(dx, motion.delta.y));
    }

    /** The vertical half. */
    method BounceY()
      modifies this`motion, this`keys
      ensures Abs() == Entities.BossLimitY(old(Abs()))
    {
      var ty := motion.temp.y;
      var dy := motion.delta.y;
      var h2 := HitSize(SparklyBoss).1 / 2;
      if ty > (WIN_H - h2) as real {
        KeyUp(true);
        KeyDown(false);
        dy := -dy;
      } else if ty < 0.0 + h2 as real {
        KeyUp(false);
        KeyDown(true);
        dy := -dy;
      }
      motion := motion.(delta := Vec(motion.delta.x, dy));
    }

    /** Bullet.doMovement(). */
    method BulletMovement()
      modifies this`motion
      ensures motion == old(motion).(temp := Vec(old(motion).coords.x + old(motion).delta.x, old(motion).coords.y + old(motion).delta.y))
    {
      var tx, ty := motion.coords.x, motion.coords.y;
      var dx, dy := motion.delta.x, motion.delta.y;
      tx := tx + dx;
      ty := ty + dy;
      motion := motion.(temp := Vec(tx, ty));
    }

    /** Bullet.limitToScreen(). */
    method BulletLimit()
      modifies this`motion, this`life
      ensures Abs() == Entities.BulletLimit(old(Abs()))
    {
      var tx, ty := motion.temp.x, motion.temp.y;
      if tx > (WIN_W - TILE_SIZE) as real {
        tx := (WIN_W - TILE_SIZE) as real;
        life := life.(alive := false);
        RemoveMe();
      } else if tx < 0.0 {
        tx := 0.0;
        life := life.(alive := false);
        RemoveMe();
      }
      motion := motion.(temp := Vec(tx, ty));
    }

    /** The end of a dead object's update: the death clip, the timer, and the removal test. */
    method Expire(death: int, gated: bool)
      requires 0 <= death < |animation|
      modifies this`currentAnim, this`life
      ensures Abs() == Entities.Expire(old(Abs()), death, gated)
    {
      currentAnim := death;
      life := life.(timeAfterDeath := life.timeAfterDeath - 1);
      if (!gated || animation[death].playedOnce) && life.timeAfterDeath < 0 {
        RemoveMe();
      }
    }

    // -------------------------------------------------------------------
    // update() of each subclass

    method PlayerUpdate(g: TileMap.Grid, ready: bool, slowOwned: bool)
      requires Valid() && kind == Player && TileMap.WellFormed(g)
      modifies this`motion, this`currentAnim, this`animation, this`gun, this`life
      ensures Abs() == Entities.PlayerUpdate(old(Abs()), g, ready, slowOwned)
    {
      if life.alive {
        PlayerLive(g, ready, slowOwned);
      } else {
        PlayerDying(g);
      }
    }

    /** The alive branch of Player.update(). */
    method PlayerLive(g: TileMap.Grid, ready: bool, slowOwned: bool)
      requires Valid() && kind == Player && TileMap.WellFormed(g)
      modifies this`motion, this`currentAnim, this`animation, this`gun
      ensures Abs() == Entities.PlayerLive(old(Abs()), g, ready, slowOwned)
    {
      ghost var b := Abs();
      motion := motion.(temp := motion.coords);
      Shooting(ready);
      ghost var b1 := Abs();
      assert b1 == Entities.Shooting(Entities.Begin(b), ready);
      PlayerMove();
      Jump(slowOwned);
      ghost var b2 := Abs();
      assert b2 == Entities.Jump(Entities.PlayerMove(b1), slowOwned);
      CheckTileMapCollision(g, true, true, true, true);
      Recoil(g);
      ghost var b3 := Abs();
      assert b3 == Entities.Recoil(b2.(motion := Collide(b2.motion, g, true, true, true, true)), g);
      LimitToScreen();
      SetPos(motion.temp);
    }

    /** The dead branch of Player.update(). */
    method PlayerDying(g: TileMap.Grid)
      requires Valid() && kind == Player && TileMap.WellFormed(g)
      modifies this`motion, this`currentAnim, this`life
      ensures Abs() == Entities.PlayerDying(old(Abs()), g)
    {
      ghost var b1 := Entities.Slow(Abs());
      StopXMovement(Entities.DEATH_FRICTION);
      CheckTileMapCollision(g, true, true, true, true);
      ghost var b2 := Abs();
      assert b2 == b1.(motion := Collide(b1.motion, g, true, true, true, true));
      SetPos(motion.temp);
      assert Abs() == Entities.Settle(b2);
      Expire(Entities.PLAYER_DEATH, true);
    }

    method MushroomUpdate(g: TileMap.Grid)
      requires Valid() && kind == Mushroom && TileMap.WellFormed(g)
      modifies this`motion, this`currentAnim, this`animation, this`keys, this`faceRight, this`life
      ensures Abs() == Entities.MushroomUpdate(old(Abs()), g)
    {
      if life.alive {
        MushroomLive(g);
      } else {
        MushroomDying(g);
      }
    }

    /** The alive branch of Mushroom.update(). */
    method MushroomLive(g: TileMap.Grid)
      requires Valid() && kind == Mushroom && TileMap.WellFormed(g)
      modifies this`motion, this`currentAnim, this`animation, this`keys, this`faceRight
      ensures Abs() == Entities.MushroomLive(old(Abs()), g)
    {
      ghost var b := Abs();
      motion := motion.(temp := motion.coords);
      MushroomMove();
      Jump(false);
      ghost var b1 := Abs();
      assert b1 == Entities.Jump(Entities.MushroomMove(Entities.Begin(b)), false);
      MushroomCollision(g, true, true, true, true);
      LimitToScreen();
      SetPos(motion.temp);
    }

    /** The dead branch of Mushroom.update(). */
    method MushroomDying(g: TileMap.Grid)
      requires Valid() && kind == Mushroom && TileMap.WellFormed(g)
      modifies this`motion, this`currentAnim, this`keys, this`faceRight, this`life
      ensures Abs() == Entities.MushroomDying(old(Abs()), g)
    {
      StopXMovement(Entities.DEATH_FRICTION);
      MushroomCollision(g, true, true, true, true);
      SetPos(motion.temp);
      Expire(Entities.WALKER_DEATH, true);
    }

    method SpikeUpdate(g: TileMap.Grid)
      requires Valid() && kind == SpikeBlock && TileMap.WellFormed(g)
      modifies this`motion, this`currentAnim, this`animation, this`life
      ensures Abs() == Entities.SpikeUpdate(old(Abs()), g)
    {
      if life.alive {
        motion := motion.(temp := motion.coords);
        SpikeMove();
        SpikeCollision(g, true);
        LimitToScreen();
        SetPos(motion.temp);
      } else {
        StopXMovement(Entities.DEATH_FRICTION);
        SpikeCollision(g, true);
        SetPos(motion.temp);
        Expire(Entities.WALKER_DEATH, true);
      }
    }

    method BossUpdate(sinA: real, cosB: real)
      requires Valid() && kind == SparklyBoss
      modifies this`motion, this`keys, this`faceRight, this`sinCounter, this`currentAnim, this`life
      ensures Abs() == Entities.BossUpdate(old(Abs()), sinA, cosB)
    {
      if life.alive {
        motion := motion.(temp := motion.coords);
        BossMove(sinA, cosB);
        BossLimit();
        SetPos(motion.temp);
      } else {
        SetPos(motion.temp);
        Expire(Entities.BOSS_DEATH, false);
      }
    }

    method BulletUpdate()
      modifies this`motion, this`life
      ensures Abs() == Entities.BulletUpdate(old(Abs()))
    {
      if life.alive {
        BulletMovement();
        BulletLimit();
        SetPos(motion.temp);
      } else {
        RemoveMe();
      }
    }

    /**
     * update(): the subclass's own update; doors, pickups and keys do nothing.
     * `ready` is the player's fire cooldown, `slowOwned` the slow-fall item,
     * and sinA, cosB the boss's two trigonometric values for this tick.
     */
    method Update(g: TileMap.Grid, ready: bool, slowOwned: bool, sinA: real, cosB: real)
      requires Valid() && TileMap.WellFormed(g)
      modifies this
      ensures Valid()
      ensures Abs() == Entities.Update(old(Abs()), g, ready, slowOwned, sinA, cosB)
    {
      match kind
      case Player => PlayerUpdate(g, ready, slowOwned);
      case Mushroom => MushroomUpdate(g);
      case SpikeBlock => SpikeUpdate(g);
      case SparklyBoss => BossUpdate(sinA, cosB);
      case Bullet => BulletUpdate();
      case _ =>
    }

    // -------------------------------------------------------------------
    // The state render() changes

    /** animation[currentAnim].getFrame(): one tick of the current clip, and its frame. */
    method GetFrame() returns (frame: int)
      requires Valid()
      modifies this`animation
      ensures Valid()
      ensures animation == old(animation)[currentAnim := Advance(old(animation)[currentAnim])]
      ensures frame == animation[currentAnim].frames[animation[currentAnim].current]
    {
      var c := Drawn(animation[currentAnim]);
      animation := animation[currentAnim := c.0];
      frame := c.1;
      assert forall i :: 0 <= i < |animation| ==> WellFormed(animation[i]);
    }

    /** The boss's render(): its current frame drawn as a 3x3 block of tiles, one getFrame() per tile. */
    method DrawTiles()
      requires Valid()
      modifies this`animation
      ensures Valid()
      ensures animation == old(animation)[currentAnim := Iterate(old(animation)[currentAnim], 9)]
    {
      var tx := 0;
      while tx < 3
        invariant 0 <= tx <= 3 && Valid()
        invariant animation == old(animation)[currentAnim := Iterate(old(animation)[currentAnim], 3 * tx)]
      {
        var ty := 0;
        while ty < 3
          invariant 0 <= ty <= 3 && Valid()
          invariant animation == old(animation)[currentAnim := Iterate(old(animation)[currentAnim], 3 * tx + ty)]
        {
          var frame := GetFrame();
          ty := ty + 1;
        }
        tx := tx + 1;
      }
    }

    /** drawHit(): the hit flash is drawn once and cleared. */
    method DrawHit()
      modifies this`life
      ensures life == old(life).(isHit := false)
    {
      if life.isHit {
        life := life.(isHit := false);
      }
    }

    /**
     * render(), without the drawing: one getFrame (nine for the boss's 3x3
     * tiles), the hit flash, and the player's muzzle-flash count.
     */
    method Render()
      requires Valid()
      modifies this`animation, this`life, this`gun
      ensures Valid()
      ensures Abs() == Entities.Render(old(Abs()))
    {
      var frame;
      if kind == SparklyBoss {
        DrawTiles();
      } else {
        frame := GetFrame();
        assert Iterate(old(animation)[currentAnim], 1) == Advance(old(animation)[currentAnim]);
      }
      assert Abs() == Entities.Tick(old(Abs()), if kind == SparklyBoss then 9 else 1);
      match kind
      case Player =>
        if gun.ammoFired > 0 {
          gun := gun.(ammoFired := gun.ammoFired - 1);
        }
      case Mushroom =>
        DrawHit();
      case SpikeBlock =>
        DrawHit();
      case SparklyBoss =>
        DrawHit();
      case _ =>
    }
  }

  /** Collide is the two passes and the ground probe, put together by Committed. */
  lemma CollideParts(m: Motion, g: TileMap.Grid, up: bool, down: bool, left: bool, right: bool,
                     tx: real, dx: real, ty: real, dy: real, falling: bool, ground: Corners)
    requires TileMap.WellFormed(g)
    requires (tx, dx) == PassX(g, m.coords.x, m.coords.y, m.delta.x, left, right)
    requires ground == Probe(g, Vec(m.coords.x, m.coords.y + m.delta.y + 1.0))
    requires var v := PassY(g, m.coords.x, m.coords.y, m.delta.y, up, down, m.falling);
             ty == v.0 && dy == v.1 && falling == (v.2 || (!ground.sw && !ground.se))
    ensures Collide(m, g, up, down, left, right) == Committed(m, tx, dx, ty, dy, falling, ground)
  {
  }

  /** Recoil is the recoil pass's new x, written into the temporary position. */
  lemma RecoilParts(b: Body, g: TileMap.Grid, tx: real)
    requires TileMap.WellFormed(g)
    requires var dx, x := Entities.RecoilPush(b), b.motion.temp.x;
             var c := Probe(g, Vec(x + dx, b.motion.coords.y));
             tx == if dx < 0.0 && b.faceRight && !b.keys.left then (if c.nw || c.sw then ColumnCentre(MapIndex(x)) else x + dx)
                   else if dx > 0.0 && !b.faceRight && !b.keys.right then (if c.ne || c.se then ((MapIndex(x) + 1) * TILE_SIZE - HALF_TILE) as real else x + dx)
                   else x
    ensures Entities.Recoil(b, g) ==
            b.(motion := b.motion.(temp := Vec(tx, b.motion.temp.y), dest := Vec(b.motion.temp.x + Entities.RecoilPush(b), b.motion.dest.y),
                                   corners := Probe(g, Vec(b.motion.temp.x + Entities.RecoilPush(b), b.motion.coords.y))),
               gun := b.gun.(recoil := false))
  {
  }

  /** Two clip lists with the same elements are the same list. */
  lemma SameClips(a: seq<Clock>, b: seq<Clock>)
    requires |a| == |b| && forall i :: 0 <= i < |a| ==> a[i] == b[i]
    ensures a == b
  {
  }

  /** new Player(sm) and the rest: a new object in the constructor's state. */
  method NewObject(kind: Kind) returns (o: MapObject)
    ensures fresh(o) && o.Valid() && o.kind == kind
    ensures o.Abs() == New(kind)
  {
    o := new MapObject(New(kind));
  }

  /** The constructor's state of each kind (the bullet's is built by NewBullet). */
  function New(kind: Kind): (b: Body)
    ensures Bodies.Valid(b) && b.kind == kind
  {
    match kind
    case Player => Entities.NewPlayer()
    case Mushroom => Entities.NewMushroom()
    case SpikeBlock => Entities.NewSpikeBlock()
    case SparklyBoss => Entities.NewBoss()
    case Bullet => Entities.NewBullet(Vec(0.0, 0.0), true, 0.65)
    case SlowFall => Entities.NewSlowFall()
    case Door => Entities.NewDoor()
    case Key => Entities.NewKey()
  }

  /** new Bullet(sm, p, faceRight), with the random draw r. */
  method NewBulletObject(p: Vec, faceRight: bool, r: real) returns (o: MapObject)
    ensures fresh(o) && o.Valid() && o.Abs() == Entities.NewBullet(p, faceRight, r)
  {
    o := new MapObject(Entities.NewBullet(p, faceRight, r));
  }
}
