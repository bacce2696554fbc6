/**
 * A game object (player, enemy, bullet or pickup) as a value, and what every
 * kind of object inherits from the MapObject base class: the corner-probe
 * tile collision, the screen clamp, friction, damage, hit boxes and spawn
 * points.  Tile lookups read a grid value: the room does not change while
 * the objects move.
 */
module Bodies {
  import opened JavaLang
  import opened Animations
  import TileMap

  const TILE_SIZE: int := 16
  const HALF_TILE: int := 8
  const WIN_W: int := 320
  const WIN_H: int := 256

  /** The largest x and y limitToScreen lets through: one tile short of the window's size. */
  const MAX_X: real := 304.0
  const MAX_Y: real := 240.0

  // What touching an interactable object does (Game.ACTION_*).
  const ACTION_TELEPORT: int := 1
  const ACTION_KEY: int := 2
  const ACTION_SLOWFALL: int := 3
  const ACTION_DAMAGE: int := 4

  /** A Point2D.Double: a position or a velocity in pixels. */
  datatype Vec = Vec(x: real, y: real)

  /** The concrete subclass of MapObject an object was built as. */
  datatype Kind = Player | Mushroom | SpikeBlock | SparklyBoss | Bullet | SlowFall | Door | Key

  /** The direction and action flags (kUp, kDown, kLeft, kRight, kJump, kFire). */
  datatype Keys = Keys(up: bool, down: bool, left: bool, right: bool, jump: bool, fire: bool)

  const NO_KEYS: Keys := Keys(false, false, false, false, false, false)

  /** The four hitBox* flags: which corners of the probed 16x16 box lie on a solid tile. */
  datatype Corners = Corners(nw: bool, ne: bool, sw: bool, se: bool)

  const NO_CORNERS: Corners := Corners(false, false, false, false)

  /** The position and movement fields of a map object. */
  datatype Motion = Motion(
    coords: Vec,
    delta: Vec,
    temp: Vec,
    dest: Vec,
    spawn: Vec,
    jumping: bool,
    falling: bool,
    jumpStartY: real,
    corners: Corners)

  /** The life-cycle fields: alive, remove, timeAfterDeath, hp, score, isHit, action and teleport target. */
  datatype Life = Life(
    alive: bool,
    remove: bool,
    timeAfterDeath: int,
    hp: int,
    score: int,
    isHit: bool,
    action: int,
    teleport: int)

  /** The player's shooting fields: ammoFired, recoil and spawnBullet. */
  datatype Gun = Gun(ammoFired: int, recoil: bool, spawnBullet: bool)

  /**
   * Every field of a map object that some method reads or writes.  The speed
   * settings and hit-box size, which each constructor fixes and nothing
   * changes, are functions of the kind (TuningOf, HitSize).  The animation
   * array is a sequence of clip values and `anim` is the current one;
   * sinCounter is used only by the boss and the gun only by the player.
   */
  datatype Body = Body(
    kind: Kind,
    motion: Motion,
    keys: Keys,
    faceRight: bool,
    life: Life,
    anim: int,
    clips: seq<Clock>,
    sinCounter: real,
    gun: Gun)

  /** The movement settings a constructor assigns; a kind that does not set one leaves it 0. */
  datatype Tuning = Tuning(
    moveAcceleration: real,
    moveSpeedMax: real,
    moveStopAcceleration: real,
    jumpStopSpeed: real,
    jumpInitialSpeed: real,
    jumpSpeed: real,
    maxJumpHeight: real,
    fallSpeed: real,
    fallSpeedMax: real,
    fallSlow: real)

  function TuningOf(k: Kind): (t: Tuning)
    ensures t.moveAcceleration >= 0.0 && t.moveStopAcceleration >= 0.0 && t.moveSpeedMax >= 0.0
    ensures t.jumpSpeed >= 0.0 && t.jumpStopSpeed >= 0.0 && t.fallSpeed >= 0.0
  {
    match k
    case Player => Tuning(2.0, 2.0, 2.0, 0.4, -4.0, 2.0, 32.0, 0.3, 5.0, 0.9)
    case Mushroom => Tuning(0.2, 2.0, 0.2, 0.2, -3.0, 2.0, 48.0, 0.2, 10.0, 0.5)
    case SpikeBlock => Tuning(0.0, 0.0, 0.0, 0.0, 0.0, 0.0, 0.0, 0.2, 10.0, 0.5)
    case SparklyBoss => Tuning(0.2, 2.0, 0.2, 0.0, 0.0, 0.0, 0.0, 0.0, 0.0, 0.0)
    case _ => Tuning(0.0, 0.0, 0.0, 0.0, 0.0, 0.0, 0.0, 0.0, 0.0, 0.0)
  }

  /** The object-versus-object hit box (width, height) each constructor sets. */
  function HitSize(k: Kind): (s: (int, int))
    ensures s.0 > 0 && s.1 > 0
  {
    match k
    case Player => (12, 12)
    case Mushroom => (12, 12)
    case SpikeBlock => (12, 12)
    case SparklyBoss => (TILE_SIZE * 2 - 4, TILE_SIZE * 2 - 4)
    case Bullet => (6, 6)
    case _ => (16, 16)
  }

  /** The length of each kind's animation array. */
  function ClipCount(k: Kind): nat {
    match k
    case Player => 5
    case Mushroom => 4
    case SpikeBlock => 4
    case SparklyBoss => 2
    case _ => 1
  }

  /** What the constructors establish and every operation keeps: the clips can be drawn. */
  predicate Valid(b: Body) {
    |b.clips| == ClipCount(b.kind) && 0 <= b.anim < |b.clips| &&
    forall i :: 0 <= i < |b.clips| ==> WellFormed(b.clips[i])
  }

  // ---------------------------------------------------------------------
  // Tiles under a position

  /** getMapX / getMapY: the tile holding a pixel coordinate, the quotient rounded toward zero. */
  function MapIndex(v: real): int {
    Trunc(v / 16.0)
  }

  /**
   * The tile of a hit-box edge in checkHitBoxCorners: the pixel is cast to
   * int first, then divided as an int (EdgeTileIsJava); both steps round
   * toward zero.
   */
  function EdgeTile(v: real): int {
    if v >= 0.0 then v.Floor / TILE_SIZE else -((-v).Floor / TILE_SIZE)
  }

  /** EdgeTile is Java's `((int) v) / 16`. */
  lemma {:induction false} EdgeTileIsJava(v: real)
    ensures EdgeTile(v) == IDiv(Trunc(v), TILE_SIZE)
  {
    if v < 0.0 && (-v).Floor == 0 {
      assert Trunc(v) == 0;
    }
  }

  /** The pixel centre of tile column (or row) m. */
  function ColumnCentre(m: int): real {
    (m * TILE_SIZE + HALF_TILE) as real
  }

  /** A tile is solid exactly when its type is 1; positions outside the room read type 0. */
  predicate Solid(g: TileMap.Grid, x: int, y: int)
    requires TileMap.WellFormed(g)
  {
    TileMap.TypeAt(g, x, y) == 1
  }

  /** checkHitBoxCorners(p): the four corners of the 16x16 box centred on p. */
  function Probe(g: TileMap.Grid, p: Vec): Corners
    requires TileMap.WellFormed(g)
  {
    var w, e := EdgeTile(p.x - 8.0), EdgeTile(p.x + 7.0);
    var n, s := EdgeTile(p.y - 8.0), EdgeTile(p.y + 7.0);
    Corners(Solid(g, w, n), Solid(g, e, n), Solid(g, w, s), Solid(g, e, s))
  }

  /** Rounding toward zero makes tile 0 twice as wide: every edge pixel in (-16, 16) reads tile 0. */
  lemma {:induction false} EdgeTileNearZero(v: real)
    requires -16.0 < v < 16.0
    ensures EdgeTile(v) == 0
  {
    var t := Trunc(v);
    assert -16 < t < 16;
    if t < 0 {
      assert (-t) / 16 == 0;
    }
  }

  /** On non-negative pixels the edge tile is the 16-pixel band holding the pixel. */
  lemma {:induction false} EdgeTileBand(v: real)
    requires v >= 0.0
    ensures EdgeTile(v) >= 0
    ensures (EdgeTile(v) * TILE_SIZE) as real <= v < (EdgeTile(v) * TILE_SIZE + TILE_SIZE) as real
  {
    var t := Trunc(v);
    assert t >= 0 && t as real <= v < t as real + 1.0;
    var q := t / 16;
    assert q * 16 <= t < q * 16 + 16;
  }

  /** At a tile centre the west and east edges both read the centre's own tile. */
  lemma {:induction false} CentreProbesOwnTile(m: int)
    requires m >= 0
    ensures EdgeTile(ColumnCentre(m) - 8.0) == m && EdgeTile(ColumnCentre(m) + 7.0) == m
  {
    assert ColumnCentre(m) - 8.0 == (16 * m) as real;
    assert ColumnCentre(m) + 7.0 == (16 * m + 15) as real;
    assert Trunc((16 * m) as real) == 16 * m;
    assert Trunc((16 * m + 15) as real) == 16 * m + 15;
    DivModUnique(16 * m, 16, m, 0);
    DivModUnique(16 * m + 15, 16, m, 15);
  }

  /** A coordinate snapped to the centre of tile m still lies in tile m, so snapping again changes nothing. */
  lemma {:induction false} CentreStaysInTile(m: int)
    requires m >= 0
    ensures MapIndex(ColumnCentre(m)) == m
  {
    var q := ColumnCentre(m) / 16.0;
    assert ColumnCentre(m) == 16.0 * (m as real + 0.5);
    assert q == m as real + 0.5;
  }

  // ---------------------------------------------------------------------
  // checkTileMapCollision

  /** A leftward move from (x, y) by dx whose destination has a solid west corner. */
  predicate WestBlocked(g: TileMap.Grid, x: real, y: real, dx: real, left: bool)
    requires TileMap.WellFormed(g)
  {
    var c := Probe(g, Vec(x + dx, y));
    left && dx < 0.0 && (c.nw || c.sw)
  }

  /** A rightward move from (x, y) by dx whose destination has a solid east corner. */
  predicate EastBlocked(g: TileMap.Grid, x: real, y: real, dx: real, right: bool)
    requires TileMap.WellFormed(g)
  {
    var c := Probe(g, Vec(x + dx, y));
    right && dx > 0.0 && (c.ne || c.se)
  }

  /** An upward move from (x, y) by dy whose destination has a solid north corner. */
  predicate NorthBlocked(g: TileMap.Grid, x: real, y: real, dy: real, up: bool)
    requires TileMap.WellFormed(g)
  {
    var c := Probe(g, Vec(x, y + dy));
    up && dy < 0.0 && (c.nw || c.ne)
  }

  /** A downward move from (x, y) by dy whose destination has a solid south corner. */
  predicate SouthBlocked(g: TileMap.Grid, x: real, y: real, dy: real, down: bool)
    requires TileMap.WellFormed(g)
  {
    var c := Probe(g, Vec(x, y + dy));
    down && dy > 0.0 && (c.sw || c.se)
  }

  predicate BlockedLeft(m: Motion, g: TileMap.Grid, left: bool)
    requires TileMap.WellFormed(g)
  {
    WestBlocked(g, m.coords.x, m.coords.y, m.delta.x, left)
  }

  predicate BlockedRight(m: Motion, g: TileMap.Grid, right: bool)
    requires TileMap.WellFormed(g)
  {
    EastBlocked(g, m.coords.x, m.coords.y, m.delta.x, right)
  }

  predicate BlockedUp(m: Motion, g: TileMap.Grid, up: bool)
    requires TileMap.WellFormed(g)
  {
    NorthBlocked(g, m.coords.x, m.coords.y, m.delta.y, up)
  }

  predicate BlockedDown(m: Motion, g: TileMap.Grid, down: bool)
    requires TileMap.WellFormed(g)
  {
    SouthBlocked(g, m.coords.x, m.coords.y, m.delta.y, down)
  }

  /** Neither south corner is solid one pixel below the vertical destination. */
  predicate GroundClear(m: Motion, g: TileMap.Grid)
    requires TileMap.WellFormed(g)
  {
    var c := Probe(g, Vec(m.coords.x, m.coords.y + m.delta.y + 1.0));
    !c.sw && !c.se
  }

  /**
   * The horizontal pass: a blocked move stops and snaps to the centre of the
   * column x is in (the left and right snaps are the same pixel), a free move
   * goes to x + dx, and with no move in an enabled direction nothing changes.
   */
  function PassX(g: TileMap.Grid, x: real, y: real, dx: real, left: bool, right: bool): (real, real)
    requires TileMap.WellFormed(g)
  {
    if !(left || right) then (x, dx) else StepX(Probe(g, Vec(x + dx, y)), x, dx, left, right)
  }

  /** The horizontal pass once the corners `c` at the horizontal destination are known. */
  function StepX(c: Corners, x: real, dx: real, left: bool, right: bool): (real, real) {
    var mapx := MapIndex(x);
    if left && dx < 0.0 then
      if c.nw || c.sw then (ColumnCentre(mapx), 0.0) else (x + dx, dx)
    else if right && dx > 0.0 then
      if c.ne || c.se then (((mapx + 1) * TILE_SIZE - HALF_TILE) as real, 0.0) else (x + dx, dx)
    else (x, dx)
  }

  /**
   * The vertical pass, likewise; landing on a solid tile also ends a fall,
   * and nothing else changes the falling flag here.
   */
  function PassY(g: TileMap.Grid, x: real, y: real, dy: real, up: bool, down: bool, falling: bool): (real, real, bool)
    requires TileMap.WellFormed(g)
  {
    if !(up || down) then (y, dy, falling) else StepY(Probe(g, Vec(x, y + dy)), y, dy, up, down, falling)
  }

  /** The vertical pass once the corners `c` at the vertical destination are known. */
  function StepY(c: Corners, y: real, dy: real, up: bool, down: bool, falling: bool): (real, real, bool) {
    var mapy := MapIndex(y);
    if up && dy < 0.0 then
      if c.nw || c.ne then (ColumnCentre(mapy), 0.0, falling) else (y + dy, dy, falling)
    else if down && dy > 0.0 then
      if c.sw || c.se then (((mapy + 1) * TILE_SIZE - HALF_TILE) as real, 0.0, false) else (y + dy, dy, falling)
    else (y, dy, falling)
  }

  /** The three cases of the horizontal pass. */
  lemma {:induction false} PassXCases(g: TileMap.Grid, x: real, y: real, dx: real, left: bool, right: bool)
    requires TileMap.WellFormed(g)
    ensures WestBlocked(g, x, y, dx, left) || EastBlocked(g, x, y, dx, right) ==>
              PassX(g, x, y, dx, left, right) == (ColumnCentre(MapIndex(x)), 0.0)
    ensures ((left && dx < 0.0) || (right && dx > 0.0)) &&
            !WestBlocked(g, x, y, dx, left) && !EastBlocked(g, x, y, dx, right) ==>
              PassX(g, x, y, dx, left, right) == (x + dx, dx)
    ensures !(left && dx < 0.0) && !(right && dx > 0.0) ==> PassX(g, x, y, dx, left, right) == (x, dx)
  {
  }

  /** The cases of the vertical pass. */
  lemma {:induction false} PassYCases(g: TileMap.Grid, x: real, y: real, dy: real, up: bool, down: bool, falling: bool)
    requires TileMap.WellFormed(g)
    ensures NorthBlocked(g, x, y, dy, up) ==> PassY(g, x, y, dy, up, down, falling) == (ColumnCentre(MapIndex(y)), 0.0, falling)
    ensures SouthBlocked(g, x, y, dy, down) ==> PassY(g, x, y, dy, up, down, falling) == (ColumnCentre(MapIndex(y)), 0.0, false)
    ensures ((up && dy < 0.0) || (down && dy > 0.0)) &&
            !NorthBlocked(g, x, y, dy, up) && !SouthBlocked(g, x, y, dy, down) ==>
              PassY(g, x, y, dy, up, down, falling) == (y + dy, dy, falling)
    ensures !(up && dy < 0.0) && !(down && dy > 0.0) ==> PassY(g, x, y, dy, up, down, falling) == (y, dy, falling)
  {
  }

  /**
   * checkTileMapCollision(up, down, left, right): the horizontal pass and the
   * vertical pass from the current position, each probing only its own axis,
   * then a probe one pixel below the vertical destination that starts a fall
   * when the ground is clear.  The result goes to the temporary position,
   * which the caller commits with setPos; the destination keeps the
   * unobstructed target.
   */
  function Collide(m: Motion, g: TileMap.Grid, up: bool, down: bool, left: bool, right: bool): (r: Motion)
    requires TileMap.WellFormed(g)
    ensures r == m.(temp := r.temp, dest := r.dest, delta := r.delta, falling := r.falling, corners := r.corners)
    ensures r.dest == Vec(m.coords.x + m.delta.x, m.coords.y + m.delta.y)
  {
    var h := PassX(g, m.coords.x, m.coords.y, m.delta.x, left, right);
    var v := PassY(g, m.coords.x, m.coords.y, m.delta.y, up, down, m.falling);
    Committed(m, h.0, h.1, v.0, v.1, v.2 || GroundClear(m, g), Probe(g, Vec(m.coords.x, m.coords.y + m.delta.y + 1.0)))
  }

  /** The fields checkTileMapCollision writes, given their new values. */
  function Committed(m: Motion, tx: real, dx: real, ty: real, dy: real, falling: bool, ground: Corners): (r: Motion)
  {
    m.(temp := Vec(tx, ty), dest := Vec(m.coords.x + m.delta.x, m.coords.y + m.delta.y),
       delta := Vec(dx, dy), falling := falling, corners := ground)
  }

  /**
   * Horizontally, a blocked move stops and snaps to the centre of the column
   * the object is in, a free move goes the full velocity, and an axis with no
   * move in an enabled direction stays put.
   */
  lemma {:induction false} CollideHorizontal(m: Motion, g: TileMap.Grid, up: bool, down: bool, left: bool, right: bool)
    requires TileMap.WellFormed(g)
    ensures var r := Collide(m, g, up, down, left, right);
      (BlockedLeft(m, g, left) || BlockedRight(m, g, right) ==>
         r.delta.x == 0.0 && r.temp.x == ColumnCentre(MapIndex(m.coords.x))) &&
      (((left && m.delta.x < 0.0) || (right && m.delta.x > 0.0)) &&
       !BlockedLeft(m, g, left) && !BlockedRight(m, g, right) ==>
         r.delta.x == m.delta.x && r.temp.x == m.coords.x + m.delta.x) &&
      (!(left && m.delta.x < 0.0) && !(right && m.delta.x > 0.0) ==>
         r.delta.x == m.delta.x && r.temp.x == m.coords.x)
  {
    PassXCases(g, m.coords.x, m.coords.y, m.delta.x, left, right);
  }

  /** Vertically the same, and landing on a solid tile ends a fall; only a clear ground probe starts one. */
  lemma {:induction false} CollideVertical(m: Motion, g: TileMap.Grid, up: bool, down: bool, left: bool, right: bool)
    requires TileMap.WellFormed(g)
    ensures var r := Collide(m, g, up, down, left, right);
      (BlockedUp(m, g, up) || BlockedDown(m, g, down) ==>
         r.delta.y == 0.0 && r.temp.y == ColumnCentre(MapIndex(m.coords.y))) &&
      (((up && m.delta.y < 0.0) || (down && m.delta.y > 0.0)) &&
       !BlockedUp(m, g, up) && !BlockedDown(m, g, down) ==>
         r.delta.y == m.delta.y && r.temp.y == m.coords.y + m.delta.y) &&
      (!(up && m.delta.y < 0.0) && !(down && m.delta.y > 0.0) ==>
         r.delta.y == m.delta.y && r.temp.y == m.coords.y) &&
      r.falling == (GroundClear(m, g) || (m.falling && !BlockedDown(m, g, down)))
  {
    PassYCases(g, m.coords.x, m.coords.y, m.delta.y, up, down, m.falling);
  }

  // ---------------------------------------------------------------------
  // limitToScreen, setPos, stopXMovement

  /** One axis of limitToScreen: above `hi` becomes `hi`, below 0 becomes 0. */
  function Clamp(v: real, hi: real): (c: real)
    requires hi >= 0.0
    ensures 0.0 <= c <= hi
    ensures 0.0 <= v <= hi ==> c == v
    ensures v > hi ==> c == hi
    ensures v < 0.0 ==> c == 0.0
  {
    if v > hi then hi else if v < 0.0 then 0.0 else v
  }

  /** limitToScreen: the temporary position is clamped into [0, 304] x [0, 240]. */
  function LimitToScreen(m: Motion): (r: Motion)
    ensures r == m.(temp := Vec(Clamp(m.temp.x, MAX_X), Clamp(m.temp.y, MAX_Y)))
  {
    m.(temp := Vec(Clamp(m.temp.x, MAX_X), Clamp(m.temp.y, MAX_Y)))
  }

  /** setPos(p): the position becomes p reduced by the window size (Java's floating remainder). */
  function SetPos(m: Motion, p: Vec): (r: Motion)
    ensures r == m.(coords := r.coords)
    ensures -(WIN_W as real) < r.coords.x < WIN_W as real && -(WIN_H as real) < r.coords.y < WIN_H as real
    ensures 0.0 <= p.x < WIN_W as real && 0.0 <= p.y < WIN_H as real ==> r.coords == p
  {
    m.(coords := Vec(FMod(p.x, WIN_W as real), FMod(p.y, WIN_H as real)))
  }

  /** A clamped temporary position is committed unchanged. */
  lemma {:induction false} ClampedCommit(m: Motion)
    ensures SetPos(LimitToScreen(m), LimitToScreen(m).temp).coords == LimitToScreen(m).temp
  {
  }

  /**
   * stopXMovement(v): friction toward the facing direction's rest: facing
   * right the velocity drops by v but not below 0, facing left it rises by v
   * but not above 0.
   */
  function StopXMovement(m: Motion, faceRight: bool, v: real): (r: Motion)
    ensures r == m.(delta := Vec(r.delta.x, m.delta.y))
    ensures faceRight ==> r.delta.x == if m.delta.x - v < 0.0 then 0.0 else m.delta.x - v
    ensures !faceRight ==> r.delta.x == if m.delta.x + v > 0.0 then 0.0 else m.delta.x + v
    ensures v >= 0.0 ==> -(if m.delta.x < 0.0 then -m.delta.x else m.delta.x) <= r.delta.x <= (if m.delta.x < 0.0 then -m.delta.x else m.delta.x)
  {
    var dx := if faceRight then m.delta.x - v else m.delta.x + v;
    var dx' := if faceRight then (if dx < 0.0 then 0.0 else dx) else (if dx > 0.0 then 0.0 else dx);
    m.(delta := Vec(dx', m.delta.y))
  }

  // ---------------------------------------------------------------------
  // kill, hit boxes, spawn points

  /**
   * kill(): one hit point is lost; the object dies when none are left (the
   * result says so) and otherwise is marked as hit.
   */
  function BaseKill(l: Life): (r: (Life, bool))
    ensures r.1 <==> l.hp <= 1
    ensures r.0.hp == l.hp - 1
    ensures r.1 ==> r.0 == l.(hp := l.hp - 1, alive := false)
    ensures !r.1 ==> r.0 == l.(hp := l.hp - 1, isHit := true)
  {
    var hp := l.hp - 1;
    if hp <= 0 then (l.(hp := hp, alive := false), true)
    else (l.(hp := hp, isHit := true), false)
  }

  /** Once a kill has succeeded, every further kill succeeds too, and the object stays dead. */
  lemma {:induction false} KillAgain(l: Life)
    requires BaseKill(l).1
    ensures BaseKill(BaseKill(l).0).1 && !BaseKill(BaseKill(l).0).0.alive
  {
  }

  /** A java.awt.Rectangle: corner and size. */
  datatype Rect = Rect(x: int, y: int, w: int, h: int)

  /** getHitBox(): the box of the kind's size around the position cast to int. */
  function HitBox(b: Body): (r: Rect)
    ensures r.w == HitSize(b.kind).0 && r.h == HitSize(b.kind).1
    ensures r.x + r.w / 2 == Trunc(b.motion.coords.x) && r.y + r.h / 2 == Trunc(b.motion.coords.y)
  {
    var (w, h) := HitSize(b.kind);
    Rect(Trunc(b.motion.coords.x) - w / 2, Trunc(b.motion.coords.y) - h / 2, w, h)
  }

  /** Rectangle.intersects: two non-empty boxes share interior on both axes. */
  predicate Intersects(a: Rect, c: Rect) {
    a.w > 0 && a.h > 0 && c.w > 0 && c.h > 0 &&
    a.x < c.x + c.w && c.x < a.x + a.w &&
    a.y < c.y + c.h && c.y < a.y + a.h
  }

  /** intersect(other). */
  predicate Touches(a: Body, c: Body) {
    Intersects(HitBox(a), HitBox(c))
  }

  lemma {:induction false} TouchesSymmetric(a: Body, c: Body)
    ensures Touches(a, c) <==> Touches(c, a)
  {
  }

  /** Two objects touch when their truncated positions are closer than half their summed sizes on both axes. */
  lemma {:induction false} TouchesByDistance(a: Body, c: Body)
    ensures Touches(a, c) <==>
      (Abs(Trunc(a.motion.coords.x) - HitSize(a.kind).0 / 2 - (Trunc(c.motion.coords.x) - HitSize(c.kind).0 / 2))
         < (if Trunc(a.motion.coords.x) - HitSize(a.kind).0 / 2 <= Trunc(c.motion.coords.x) - HitSize(c.kind).0 / 2
            then HitSize(a.kind).0 else HitSize(c.kind).0)) &&
      (Abs(Trunc(a.motion.coords.y) - HitSize(a.kind).1 / 2 - (Trunc(c.motion.coords.y) - HitSize(c.kind).1 / 2))
         < (if Trunc(a.motion.coords.y) - HitSize(a.kind).1 / 2 <= Trunc(c.motion.coords.y) - HitSize(c.kind).1 / 2
            then HitSize(a.kind).1 else HitSize(c.kind).1))
  {
  }

  /** setSpawnPoint(tile): spawn point and position at the centre of the given tile. */
  function SetSpawnPoint(m: Motion, tx: int, ty: int): (r: Motion)
    ensures r == m.(spawn := r.spawn, coords := r.coords)
    ensures r.coords == r.spawn == Vec(ColumnCentre(tx), ColumnCentre(ty))
  {
    var p := Vec((tx * TILE_SIZE + HALF_TILE) as real, (ty * TILE_SIZE + HALF_TILE) as real);
    m.(spawn := p, coords := p)
  }
}
