/**
 * One level's tick as a function of values: the player, the three object
 * lists and the progress store go in; the same come out, with the doors the
 * player asked to go through and whether a shot was fired.  The level class
 * implements this loop by loop; here each phase is a function and the
 * promises about combat, pickups and the removal sweep are lemmas.
 */
module Scenes {
  import opened JavaLang
  import opened Bodies
  import Entities
  import TileMap
  import opened Progress
  import opened KeyCodes

  // The level manager's state ids.
  const LEVEL_MENU: int := 0
  const LEVEL_1: int := 10
  const LEVEL_2: int := 11
  const LEVEL_3: int := 12
  const LEVEL_4: int := 13
  const LEVEL_5: int := 14
  const LEVEL_6: int := 15
  const LEVEL_INFO: int := 97
  const LEVEL_THEEND: int := 98
  const LEVEL_LOADING: int := 99

  /** What a tick reads from outside: the fire cooldown, the boss's sine and cosine, and the bullet's random draw. */
  datatype Inputs = Inputs(ready: bool, sinA: real, cosB: real, aim: real)

  /** The player, enemy, ammo and mapObjects of a level, and the store. */
  datatype Scene = Scene(player: Body, enemy: seq<Body>, ammo: seq<Body>, objects: seq<Body>, save: Save)

  predicate AllValid(xs: seq<Body>) {
    forall i :: 0 <= i < |xs| ==> Valid(xs[i])
  }

  /** Every object can be updated and drawn, and the store has its ids. */
  predicate Good(s: Scene) {
    Valid(s.player) && AllValid(s.enemy) && AllValid(s.ammo) && AllValid(s.objects) && Registered(s.save)
  }

  /** Whether slow-fall is owned, as the player's update asks. */
  function SlowOwned(v: Save): bool
    requires Registered(v)
  {
    v.inventory[ACTION_SLOWFALL]
  }

  // ---------------------------------------------------------------------
  // Interactables

  /** What mapObjectInteraction leaves: the object, the player, the store, and the door taken if any. */
  datatype Touch = Touch(mo: Body, player: Body, save: Save, door: Option<int>)

  /**
   * mapObjectInteraction(mo): only an object touching the player acts.  With
   * up held a door is taken if the key is owned and a pickup is collected;
   * without up a damaging object kills the player.
   */
  function Interaction(mo: Body, p: Body, v: Save): (r: Touch)
    requires Registered(v)
    ensures Registered(r.save) && r.save.status == v.status
    ensures r.mo == mo || r.mo == Entities.Kill(mo).0
    ensures r.player == p || r.player == Entities.Kill(p).0
  {
    if !Touches(mo, p) then Touch(mo, p, v, None)
    else if p.keys.up then
      if mo.life.action == ACTION_TELEPORT then
        Touch(mo, p, v, if v.inventory[ACTION_KEY] then Some(mo.life.teleport) else None)
      else if mo.life.action == ACTION_KEY then
        Touch(Entities.Kill(mo).0, p, Add(v, ACTION_KEY), None)
      else if mo.life.action == ACTION_SLOWFALL then
        Touch(Entities.Kill(mo).0, p, Add(v, ACTION_SLOWFALL), None)
      else Touch(mo, p, v, None)
    else if mo.life.action == ACTION_DAMAGE then Touch(mo, Entities.Kill(p).0, v, None)
    else Touch(mo, p, v, None)
  }

  /** An object that does not touch the player changes nothing. */
  lemma {:induction false} InteractionApart(mo: Body, p: Body, v: Save)
    requires Registered(v) && !Touches(mo, p)
    ensures Interaction(mo, p, v) == Touch(mo, p, v, None)
  {
  }

  /** A door is taken exactly when the player touches it holding up and owns the key; it leads to its target. */
  lemma {:induction false} DoorNeedsKey(mo: Body, p: Body, v: Save)
    requires Registered(v)
    ensures Interaction(mo, p, v).door.Some? <==>
      Touches(mo, p) && p.keys.up && mo.life.action == ACTION_TELEPORT && Has(v, ACTION_KEY) == Ok(true)
    ensures Interaction(mo, p, v).door.Some? ==>
      Interaction(mo, p, v).door.value == mo.life.teleport && Interaction(mo, p, v).save == v
  {
  }

  /** A touched pickup, with up held, is owned afterwards and its object is killed. */
  lemma {:induction false} PickupCollected(mo: Body, p: Body, v: Save)
    requires Registered(v) && Touches(mo, p) && p.keys.up
    requires mo.life.action == ACTION_KEY || mo.life.action == ACTION_SLOWFALL
    ensures Has(Interaction(mo, p, v).save, mo.life.action) == Ok(true)
    ensures Interaction(mo, p, v).mo == Entities.Kill(mo).0
    ensures mo.kind in {Key, SlowFall} ==> Interaction(mo, p, v).mo.life.remove
    ensures Interaction(mo, p, v).player == p
  {
  }

  /** Damage kills the player without counting a death; holding up suppresses it. */
  lemma {:induction false} DamageUnlessUp(mo: Body, p: Body, v: Save)
    requires Registered(v) && Touches(mo, p) && mo.life.action == ACTION_DAMAGE
    ensures !p.keys.up ==> Interaction(mo, p, v).player == Entities.Kill(p).0
    ensures p.keys.up ==> Interaction(mo, p, v).player == p
    ensures Interaction(mo, p, v).save == v && Interaction(mo, p, v).mo == mo
  {
  }

  /** One interactable's turn: it updates, then its interaction with the player runs. */
  function ObjectTurn(s: Scene, g: TileMap.Grid, inp: Inputs, i: int): (r: (Scene, seq<int>))
    requires Good(s) && TileMap.WellFormed(g) && 0 <= i < |s.objects|
    ensures Good(r.0) && |r.0.objects| == |s.objects| && r.0.enemy == s.enemy && r.0.ammo == s.ammo
    ensures forall k :: 0 <= k < |s.objects| && k != i ==> r.0.objects[k] == s.objects[k]
    ensures r.0.save.status == s.save.status && |r.1| <= 1
  {
    var mo := Entities.Update(s.objects[i], g, inp.ready, SlowOwned(s.save), inp.sinA, inp.cosB);
    var t := Interaction(mo, s.player, s.save);
    (s.(player := t.player, objects := s.objects[i := t.mo], save := t.save),
     if t.door.Some? then [t.door.value] else [])
  }

  /** The first loop of updateMapObjects over the first n interactables, and the doors taken, in order. */
  function Interactions(s: Scene, g: TileMap.Grid, inp: Inputs, n: nat): (r: (Scene, seq<int>))
    requires Good(s) && TileMap.WellFormed(g) && n <= |s.objects|
    ensures Good(r.0) && |r.0.objects| == |s.objects| && r.0.enemy == s.enemy && r.0.ammo == s.ammo
    ensures forall k :: n <= k < |s.objects| ==> r.0.objects[k] == s.objects[k]
    ensures r.0.save.status == s.save.status && |r.1| <= n
    decreases n
  {
    if n == 0 then (s, [])
    else
      var (s1, d1) := Interactions(s, g, inp, n - 1);
      var (s2, d2) := ObjectTurn(s1, g, inp, n - 1);
      (s2, d1 + d2)
  }

  /** One more turn of the first loop. */
  lemma {:induction false} InteractionsStep(s: Scene, g: TileMap.Grid, inp: Inputs, n: nat)
    requires Good(s) && TileMap.WellFormed(g) && n < |s.objects|
    ensures var (s1, d1) := Interactions(s, g, inp, n);
      Interactions(s, g, inp, n + 1) == (ObjectTurn(s1, g, inp, n).0, d1 + ObjectTurn(s1, g, inp, n).1)
  {
  }

  // ---------------------------------------------------------------------
  // Movement

  /** Every object of a list updated on its own. */
  function UpdateAll(xs: seq<Body>, g: TileMap.Grid, inp: Inputs, slow: bool): (r: seq<Body>)
    requires AllValid(xs) && TileMap.WellFormed(g)
    ensures |r| == |xs| && AllValid(r)
    ensures forall i :: 0 <= i < |xs| ==> r[i].kind == xs[i].kind && (r[i].life.alive ==> xs[i].life.alive)
  {
    seq(|xs|, i requires 0 <= i < |xs| => Entities.Update(xs[i], g, inp.ready, slow, inp.sinA, inp.cosB))
  }

  /** Where a bullet appears: half of a half tile ahead of the player on the facing side, a quarter of a half tile down. */
  function Muzzle(p: Body): Vec {
    var displacement := if p.faceRight then HALF_TILE / 2 else IDiv(-HALF_TILE, 2);
    Vec(p.motion.coords.x + displacement as real, p.motion.coords.y + (HALF_TILE / 2 / 2) as real)
  }

  /** The bullet spawn: didShoot() is asked once, and a latched shot adds one bullet. */
  function Spawn(s: Scene, aim: real): (r: (Scene, bool))
    ensures r.1 == s.player.gun.spawnBullet && r.0.player == Entities.DidShoot(s.player).0
    ensures r.0 == s.(player := r.0.player, ammo := r.0.ammo)
    ensures !r.1 ==> r.0.ammo == s.ammo
    ensures r.1 ==> |r.0.ammo| == |s.ammo| + 1 && r.0.ammo[..|s.ammo|] == s.ammo
    ensures Good(s) ==> Good(r.0)
  {
    var (p, fired) := Entities.DidShoot(s.player);
    if fired then (s.(player := p, ammo := s.ammo + [Entities.NewBullet(Muzzle(p), p.faceRight, aim)]), true)
    else (s.(player := p), false)
  }

  /** A spawned bullet starts 4 pixels ahead on the facing side and 2 below the player, and flies the way the player faces. */
  lemma {:induction false} SpawnedBullet(s: Scene, aim: real)
    requires s.player.gun.spawnBullet
    ensures var b := Spawn(s, aim).0.ammo[|s.ammo|];
      b.kind == Bullet && b.life.alive &&
      b.motion.coords == Vec(s.player.motion.coords.x + (if s.player.faceRight then 4.0 else -4.0), s.player.motion.coords.y + 2.0) &&
      (s.player.faceRight <==> b.motion.delta.x > 0.0)
  {
    assert IDiv(-HALF_TILE, 2) == -4;
  }

  // ---------------------------------------------------------------------
  // Combat

  /** The door and the key the boss leaves behind (spawnDoorAndKey). */
  function DoorAndKey(): (r: seq<Body>)
    ensures |r| == 2 && AllValid(r)
    ensures r[0].kind == Door && r[0].life.action == ACTION_TELEPORT && r[0].life.teleport == LEVEL_THEEND
    ensures r[1].kind == Key && r[1].life.action == ACTION_KEY
  {
    [Entities.Placed(Entities.NewDoor(), 8, 14, ACTION_TELEPORT, LEVEL_THEEND),
     Entities.Placed(Entities.NewKey(), 11, 4, ACTION_KEY, 0)]
  }

  /** Counting a kill: one more kill and the enemy's score. */
  function Credit(v: Save, score: int): (r: Save)
    requires Registered(v)
    ensures Registered(r) && r.inventory == v.inventory
    ensures Get(r, KILLCOUNT) == Ok(Wrap32(v.status[KILLCOUNT] + 1))
    ensures Get(r, SCORE) == Ok(Wrap32(v.status[SCORE] + score))
    ensures Get(r, DEATHCOUNT) == Get(v, DEATHCOUNT)
  {
    AddPoints(AddPoint(v, KILLCOUNT).value, SCORE, score).value
  }

  /**
   * Bullet k against enemy j: only a pair that are both alive and touch
   * counts; the bullet is killed, then the enemy, and a kill that succeeds is
   * credited (on the boss level it also leaves the door and the key).
   */
  function Shot(s: Scene, j: int, k: int, boss: bool): (r: Scene)
    requires Good(s) && 0 <= j < |s.enemy| && 0 <= k < |s.ammo|
    ensures Good(r) && |r.enemy| == |s.enemy| && |r.ammo| == |s.ammo| && r.player == s.player
    ensures forall i :: 0 <= i < |s.enemy| && i != j ==> r.enemy[i] == s.enemy[i]
    ensures forall i :: 0 <= i < |s.ammo| && i != k ==> r.ammo[i] == s.ammo[i]
    ensures |s.objects| <= |r.objects| && r.objects[..|s.objects|] == s.objects
  {
    var a := s.ammo[k];
    var e := s.enemy[j];
    if a.life.alive && e.life.alive && Touches(a, e) then
      var (e1, died) := Entities.Kill(e);
      var s1 := s.(ammo := s.ammo[k := Entities.Kill(a).0], enemy := s.enemy[j := e1]);
      if died then
        s1.(save := Credit(s.save, e1.life.score), objects := if boss then s.objects + DoorAndKey() else s.objects)
      else s1
    else s
  }

  /** A hit kills the bullet and hurts the enemy; the kill and the score are credited exactly when the enemy's kill succeeds. */
  lemma {:induction false} ShotHits(s: Scene, j: int, k: int, boss: bool)
    requires Good(s) && 0 <= j < |s.enemy| && 0 <= k < |s.ammo|
    requires s.ammo[k].life.alive && s.enemy[j].life.alive && Touches(s.ammo[k], s.enemy[j])
    ensures Shot(s, j, k, boss).ammo[k] == Entities.Kill(s.ammo[k]).0
    ensures Shot(s, j, k, boss).enemy[j] == Entities.Kill(s.enemy[j]).0
    ensures Entities.Kill(s.enemy[j]).1 ==> Shot(s, j, k, boss).save == Credit(s.save, s.enemy[j].life.score)
    ensures !Entities.Kill(s.enemy[j]).1 ==> Shot(s, j, k, boss).save == s.save && Shot(s, j, k, boss).objects == s.objects
    ensures Entities.Kill(s.enemy[j]).1 && boss ==> Shot(s, j, k, boss).objects == s.objects + DoorAndKey()
    ensures Entities.Kill(s.enemy[j]).1 && !boss ==> Shot(s, j, k, boss).objects == s.objects
  {
  }

  /** A pair in which either side is dead, or which does not touch, is skipped. */
  lemma {:induction false} ShotMisses(s: Scene, j: int, k: int, boss: bool)
    requires Good(s) && 0 <= j < |s.enemy| && 0 <= k < |s.ammo|
    requires !s.ammo[k].life.alive || !s.enemy[j].life.alive || !Touches(s.ammo[k], s.enemy[j])
    ensures Shot(s, j, k, boss) == s
  {
  }

  /** A bullet (it has no hit points) is dead after its first hit, so it hits no second enemy. */
  lemma {:induction false} BulletHitsOnce(s: Scene, j: int, k: int, j2: int, boss: bool)
    requires Good(s) && 0 <= j < |s.enemy| && 0 <= j2 < |s.enemy| && 0 <= k < |s.ammo|
    requires s.ammo[k].kind == Bullet && s.ammo[k].life.hp <= 1
    requires s.ammo[k].life.alive && s.enemy[j].life.alive && Touches(s.ammo[k], s.enemy[j])
    ensures Shot(Shot(s, j, k, boss), j2, k, boss) == Shot(s, j, k, boss)
  {
    var r := Shot(s, j, k, boss);
    assert !r.ammo[k].life.alive;
    ShotMisses(r, j2, k, boss);
  }

  /** An enemy whose kill succeeded is dead, so no later bullet credits it again. */
  lemma {:induction false} EnemyCreditedOnce(s: Scene, j: int, k: int, k2: int, boss: bool)
    requires Good(s) && 0 <= j < |s.enemy| && 0 <= k < |s.ammo| && 0 <= k2 < |s.ammo|
    requires s.enemy[j].kind in {Mushroom, SpikeBlock, SparklyBoss}
    requires s.ammo[k].life.alive && s.enemy[j].life.alive && Touches(s.ammo[k], s.enemy[j])
    requires Entities.Kill(s.enemy[j]).1
    ensures Shot(Shot(s, j, k, boss), j, k2, boss) == Shot(s, j, k, boss)
  {
    var r := Shot(s, j, k, boss);
    assert !r.enemy[j].life.alive;
    ShotMisses(r, j, k2, boss);
  }

  /** Enemy j against the first n bullets, in list order. */
  function Shots(s: Scene, j: int, n: nat, boss: bool): (r: Scene)
    requires Good(s) && 0 <= j < |s.enemy| && n <= |s.ammo|
    ensures Good(r) && |r.enemy| == |s.enemy| && |r.ammo| == |s.ammo| && r.player == s.player
    ensures forall i :: 0 <= i < |s.enemy| && i != j ==> r.enemy[i] == s.enemy[i]
    ensures Registered(r.save)
    decreases n
  {
    if n == 0 then s else Shot(Shots(s, j, n - 1, boss), j, n - 1, boss)
  }

  /** One more bullet of the inner combat loop. */
  lemma {:induction false} ShotsStep(s: Scene, j: int, n: nat, boss: bool)
    requires Good(s) && 0 <= j < |s.enemy| && n < |s.ammo|
    ensures Shots(s, j, n + 1, boss) == Shot(Shots(s, j, n, boss), j, n, boss)
  {
  }

  /** Player against enemy j: touching while both are alive kills the player and counts a death. */
  function Clash(s: Scene, j: int): (r: Scene)
    requires Good(s) && 0 <= j < |s.enemy|
    ensures Good(r) && r == s.(player := r.player, save := r.save)
    ensures r.save.inventory == s.save.inventory
  {
    var e := s.enemy[j];
    if Touches(s.player, e) && e.life.alive && s.player.life.alive then
      s.(player := Entities.Kill(s.player).0, save := AddPoint(s.save, DEATHCOUNT).value)
    else s
  }

  /** A player with no hit points dies at the first clash and then counts no further death. */
  lemma {:induction false} DeathCountedOnce(s: Scene, j: int, j2: int)
    requires Good(s) && 0 <= j < |s.enemy| && 0 <= j2 < |s.enemy|
    requires s.player.kind == Player && s.player.life.hp <= 1
    requires Touches(s.player, s.enemy[j]) && s.enemy[j].life.alive && s.player.life.alive
    ensures Get(Clash(s, j).save, DEATHCOUNT) == Ok(Wrap32(s.save.status[DEATHCOUNT] + 1))
    ensures !Clash(s, j).player.life.alive
    ensures Clash(Clash(s, j), j2) == Clash(s, j)
  {
  }

  /** The combat loop over the first n enemies: each meets every bullet, then the player. */
  function Combat(s: Scene, n: nat, boss: bool): (r: Scene)
    requires Good(s) && n <= |s.enemy|
    ensures Good(r) && |r.enemy| == |s.enemy| && |r.ammo| == |s.ammo|
    decreases n
  {
    if n == 0 then s
    else
      var s1 := Combat(s, n - 1, boss);
      Clash(Shots(s1, n - 1, |s1.ammo|, boss), n - 1)
  }

  /** One more turn of the combat loop: enemy n meets every bullet, then the player. */
  lemma {:induction false} CombatStep(s: Scene, n: nat, boss: bool)
    requires Good(s) && n < |s.enemy|
    ensures Combat(s, n + 1, boss) == Clash(Shots(Combat(s, n, boss), n, |s.ammo|, boss), n)
  {
  }

  // ---------------------------------------------------------------------
  // The removal sweep

  /**
   * The sweep `for (i = 0; i < size; ++i) if (get(i) removable) remove(i)`:
   * after a removal the next element moves into slot i, which the loop then
   * leaves behind, so it survives this tick whatever its flag.
   */
  function Swept(xs: seq<Body>): (r: seq<Body>)
    ensures |r| <= |xs|
    decreases |xs|
  {
    if |xs| == 0 then []
    else if xs[0].life.remove then (if |xs| == 1 then [] else [xs[1]] + Swept(xs[2..]))
    else [xs[0]] + Swept(xs[1..])
  }

  /** The elements without the remove flag, in order: what a sweep without the skip would keep. */
  function Kept(xs: seq<Body>): (r: seq<Body>)
    ensures |r| <= |xs|
    decreases |xs|
  {
    if |xs| == 0 then []
    else if xs[0].life.remove then Kept(xs[1..])
    else [xs[0]] + Kept(xs[1..])
  }

  /** No flagged element directly follows another flagged one. */
  predicate NoAdjacentFlags(xs: seq<Body>) {
    forall i :: 0 <= i < |xs| - 1 && xs[i].life.remove ==> !xs[i + 1].life.remove
  }

  /** The sweep removes exactly the flagged elements when no two flagged ones are neighbours. */
  lemma {:induction false} SweptIsKept(xs: seq<Body>)
    requires NoAdjacentFlags(xs)
    ensures Swept(xs) == Kept(xs)
    decreases |xs|
  {
    if |xs| == 0 {
    } else if xs[0].life.remove {
      if |xs| > 1 {
        assert !xs[1].life.remove;
        assert NoAdjacentFlags(xs[2..]) by {
          forall i | 0 <= i < |xs[2..]| - 1 && xs[2..][i].life.remove
            ensures !xs[2..][i + 1].life.remove
          {
            assert xs[2..][i] == xs[i + 2] && xs[2..][i + 1] == xs[i + 3];
          }
        }
        SweptIsKept(xs[2..]);
        assert xs[1..][1..] == xs[2..];
      }
    } else {
      assert NoAdjacentFlags(xs[1..]) by {
        forall i | 0 <= i < |xs[1..]| - 1 && xs[1..][i].life.remove
          ensures !xs[1..][i + 1].life.remove
        {
          assert xs[1..][i] == xs[i + 1] && xs[1..][i + 1] == xs[i + 2];
        }
      }
      SweptIsKept(xs[1..]);
    }
  }

  /** Every element without the flag survives the sweep, in order. */
  lemma {:induction false} SweptKeepsUnflagged(xs: seq<Body>)
    ensures multiset(Kept(xs)) <= multiset(Swept(xs))
    decreases |xs|
  {
    if |xs| == 0 {
    } else if xs[0].life.remove {
      if |xs| > 1 {
        SweptKeepsUnflagged(xs[2..]);
        assert xs[1..][1..] == xs[2..];
        if xs[1].life.remove {
          assert Kept(xs[1..]) == Kept(xs[2..]);
        } else {
          assert Kept(xs[1..]) == [xs[1]] + Kept(xs[2..]);
        }
      }
    } else {
      SweptKeepsUnflagged(xs[1..]);
    }
  }

  /** The skip itself: of two flagged neighbours at the front, the second survives. */
  lemma {:induction false} SweepSkipsSecond(xs: seq<Body>)
    requires |xs| >= 2 && xs[0].life.remove && xs[1].life.remove
    ensures |Swept(xs)| >= 1 && Swept(xs)[0] == xs[1] && Swept(xs)[0].life.remove
  {
  }

  /** The sweep loop's step over a flagged element at slot i: removing it and moving past its successor. */
  lemma {:induction false} SweepRemoveStep(ys: seq<Body>, i: int)
    requires 0 <= i < |ys| && ys[i].life.remove
    ensures var zs := ys[..i] + ys[i + 1..];
      (i + 1 <= |zs| ==> zs[..i + 1] + Swept(zs[i + 1..]) == ys[..i] + Swept(ys[i..])) &&
      (i + 1 > |zs| ==> zs == ys[..i] + Swept(ys[i..]))
  {
    var zs := ys[..i] + ys[i + 1..];
    if i + 1 <= |zs| {
      assert ys[i..][2..] == ys[i + 2..];
      assert Swept(ys[i..]) == [ys[i + 1]] + Swept(ys[i + 2..]);
      assert zs[..i + 1] == ys[..i] + [ys[i + 1]];
      assert zs[i + 1..] == ys[i + 2..];
    } else {
      assert ys[i..] == [ys[i]];
      assert zs == ys[..i];
    }
  }

  /** The sweep loop's step over an element without the flag: it stays and the loop moves on. */
  lemma {:induction false} SweepKeepStep(ys: seq<Body>, i: int)
    requires 0 <= i < |ys| && !ys[i].life.remove
    ensures ys[..i + 1] + Swept(ys[i + 1..]) == ys[..i] + Swept(ys[i..])
  {
    assert ys[i..][1..] == ys[i + 1..];
    assert Swept(ys[i..]) == [ys[i]] + Swept(ys[i + 1..]);
    assert ys[..i + 1] == ys[..i] + [ys[i]];
  }

  /** The sweep keeps only objects that can still be updated. */
  lemma {:induction false} SweptValid(xs: seq<Body>)
    requires AllValid(xs)
    ensures AllValid(Swept(xs))
    decreases |xs|
  {
    if |xs| == 0 {
    } else if xs[0].life.remove {
      if |xs| > 1 {
        SweptValid(xs[2..]);
        assert Swept(xs) == [xs[1]] + Swept(xs[2..]);
      }
    } else {
      SweptValid(xs[1..]);
      assert Swept(xs) == [xs[0]] + Swept(xs[1..]);
    }
  }

  // ---------------------------------------------------------------------
  // The whole tick

  /** What one tick produces: the new scene, the doors taken and whether a shot was fired. */
  datatype Outcome = Outcome(scene: Scene, doors: seq<int>, fired: bool)

  /**
   * The movement half of updateMapObjects(): the interactables with their
   * interactions, then the enemies, the player and the bullets.
   */
  function Moved(s: Scene, g: TileMap.Grid, inp: Inputs): (r: (Scene, seq<int>))
    requires Good(s) && TileMap.WellFormed(g)
    ensures Good(r.0) && |r.0.enemy| == |s.enemy| && |r.1| <= |s.objects|
  {
    var (s1, doors) := Interactions(s, g, inp, |s.objects|);
    (Advanced(s1, g, inp), doors)
  }

  /** The enemies, the player and the bullets each take their update, with the slow-fall power as owned now. */
  function Advanced(s: Scene, g: TileMap.Grid, inp: Inputs): (r: Scene)
    requires Good(s) && TileMap.WellFormed(g)
    ensures Good(r) && r == s.(enemy := r.enemy, player := r.player, ammo := r.ammo)
    ensures |r.enemy| == |s.enemy| && |r.ammo| == |s.ammo|
  {
    var slow := SlowOwned(s.save);
    s.(enemy := UpdateAll(s.enemy, g, inp, slow),
       player := Entities.Update(s.player, g, inp.ready, slow, inp.sinA, inp.cosB),
       ammo := UpdateAll(s.ammo, g, inp, slow))
  }

  /** The closing sweep of the bullets and the interactables (enemies are never swept). */
  function Sweep(s: Scene): (r: Scene)
    requires Good(s)
    ensures Good(r) && r == s.(ammo := r.ammo, objects := r.objects)
    ensures |r.ammo| <= |s.ammo| && |r.objects| <= |s.objects|
  {
    SweptValid(s.ammo);
    SweptValid(s.objects);
    s.(ammo := Swept(s.ammo), objects := Swept(s.objects))
  }

  /** updateMapObjects(): movement, the bullet spawn, combat, then the sweep. */
  function Tick(s: Scene, g: TileMap.Grid, inp: Inputs, boss: bool): (r: Outcome)
    requires Good(s) && TileMap.WellFormed(g)
    ensures Good(r.scene) && |r.scene.enemy| == |s.enemy| && |r.doors| <= |s.objects|
  {
    var (s4, doors) := Moved(s, g, inp);
    var (s5, fired) := Spawn(s4, inp.aim);
    Outcome(Sweep(Combat(s5, |s5.enemy|, boss)), doors, fired)
  }

  // ---------------------------------------------------------------------
  // Spawn tables

  /** setSpawnPoint(tile) on a new object. */
  function At(b: Body, tx: int, ty: int): (r: Body)
    ensures r == b.(motion := SetSpawnPoint(b.motion, tx, ty)) && (Valid(b) ==> Valid(r))
  {
    b.(motion := SetSpawnPoint(b.motion, tx, ty))
  }

  /** Level 1's spawn table: one door to level 2, one mushroom walking left, and the key granted. */
  function Level1(v: Save): (r: Scene)
    requires Registered(v)
    ensures Good(r)
  {
    Scene(At(Entities.NewPlayer(), 1, 11),
          [Entities.KeyLeft(At(Entities.NewMushroom(), 13, 14), true)],
          [],
          [Entities.Placed(Entities.NewDoor(), 18, 12, ACTION_TELEPORT, LEVEL_2)],
          Add(v, ACTION_KEY))
  }

  /** The interactables of level 2: a door to level 3, a key, the slow-fall pickup unless owned, four spike blocks. */
  function Level2Objects(slowOwned: bool): (r: seq<Body>)
    ensures AllValid(r)
  {
    var spike := Entities.NewSpikeBlock();
    [Entities.Placed(Entities.NewDoor(), 16, 14, ACTION_TELEPORT, LEVEL_3),
     Entities.Placed(Entities.NewKey(), 18, 6, ACTION_KEY, 0)] +
    (if slowOwned then [] else [Entities.Placed(Entities.NewSlowFall(), 1, 10, ACTION_SLOWFALL, 0)]) +
    [Entities.Placed(spike, 7, 8, ACTION_DAMAGE, 0), Entities.Placed(spike, 8, 8, ACTION_DAMAGE, 0),
     Entities.Placed(spike, 11, 8, ACTION_DAMAGE, 0), Entities.Placed(spike, 12, 8, ACTION_DAMAGE, 0)]
  }

  /** Level 2's spawn table; it leaves the store alone. */
  function Level2(v: Save): (r: Scene)
    requires Registered(v)
    ensures Good(r)
  {
    Scene(At(Entities.NewPlayer(), 18, 12),
          [Entities.KeyRight(At(Entities.NewMushroom(), 1, 1), true),
           Entities.KeyLeft(At(Entities.NewMushroom(), 4, 4), true),
           Entities.KeyRight(At(Entities.NewMushroom(), 8, 10), true)],
          [],
          Level2Objects(SlowOwned(v)),
          v)
  }

  /** Level 6's spawn table: the boss holding left and up, and no interactables. */
  function Level6(v: Save): (r: Scene)
    requires Registered(v)
    ensures Good(r)
  {
    Scene(At(Entities.NewPlayer(), 18, 14),
          [Entities.KeyUp(Entities.KeyLeft(At(Entities.NewBoss(), 10, 8), true), true)],
          [],
          [],
          v)
  }

  /** The levels whose spawn tables this model holds. */
  predicate Modelled(id: int) { id == LEVEL_1 || id == LEVEL_2 || id == LEVEL_6 }

  /**
   * initMapObjects() of a level, after the lists were emptied: the objects
   * are built afresh, and level 1 grants the key.
   */
  function Populate(id: int, v: Save): (r: Scene)
    requires Modelled(id) && Registered(v)
    ensures Good(r) && r.ammo == []
  {
    if id == LEVEL_1 then Level1(v) else if id == LEVEL_2 then Level2(v) else Level6(v)
  }

  /** A new level 1: all counters 0, the key owned and slow-fall not. */
  lemma {:induction false} Level1Start()
    ensures var r := Populate(LEVEL_1, Init(0, 0, 0)).save;
      Get(r, KILLCOUNT) == Ok(0) && Get(r, DEATHCOUNT) == Ok(0) && Get(r, SCORE) == Ok(0) &&
      Has(r, ACTION_KEY) == Ok(true) && Has(r, ACTION_SLOWFALL) == Ok(false)
  {
    var r := Populate(LEVEL_1, Init(0, 0, 0)).save;
    assert Has(r, ACTION_SLOWFALL) == Has(Init(0, 0, 0), ACTION_SLOWFALL);
  }

  /** Rebuilding level 1 keeps the counters and grants the key again; the only interactable is the door to level 2. */
  lemma {:induction false} Level1Rebuilt(v: Save)
    requires Registered(v)
    ensures Populate(LEVEL_1, v).save.status == v.status
    ensures Has(Populate(LEVEL_1, v).save, ACTION_KEY) == Ok(true)
    ensures var o := Populate(LEVEL_1, v).objects;
      |o| == 1 && o[0].kind == Door && o[0].life.action == ACTION_TELEPORT && o[0].life.teleport == LEVEL_2
  {
  }

  /** Level 2 places its slow-fall pickup exactly when slow-fall is not owned, and never touches the store. */
  lemma {:induction false} Level2SlowFall(v: Save)
    requires Registered(v)
    ensures Populate(LEVEL_2, v).save == v
    ensures (exists i :: 0 <= i < |Populate(LEVEL_2, v).objects| && Populate(LEVEL_2, v).objects[i].kind == SlowFall)
      <==> Has(v, ACTION_SLOWFALL) == Ok(false)
  {
    var o := Populate(LEVEL_2, v).objects;
    if Has(v, ACTION_SLOWFALL) == Ok(false) {
      assert o[2].kind == SlowFall;
    } else {
      assert |o| == 6;
      assert forall i :: 0 <= i < 6 ==> o[i].kind != SlowFall;
    }
  }

  /** Level 2's door leads to level 3 and its four spike blocks do damage. */
  lemma {:induction false} Level2Table(v: Save)
    requires Registered(v)
    ensures var o := Populate(LEVEL_2, v).objects;
      o[0].kind == Door && o[0].life.teleport == LEVEL_3 && o[1].kind == Key && o[1].life.action == ACTION_KEY &&
      forall i :: |o| - 4 <= i < |o| ==> o[i].kind == SpikeBlock && o[i].life.action == ACTION_DAMAGE
  {
  }

  /** Level 6 starts with no interactables and with one boss, which holds left and up. */
  lemma {:induction false} Level6Start(v: Save)
    requires Registered(v)
    ensures var r := Populate(LEVEL_6, v);
      r.objects == [] && |r.enemy| == 1 && r.enemy[0].kind == SparklyBoss &&
      r.enemy[0].keys.left && r.enemy[0].keys.up && r.enemy[0].life.alive && r.save == v
  {
  }

  // ---------------------------------------------------------------------
  // Keys and drawing

  /** keyPressedPlayer / keyReleasedPlayer: the player's flag for the key; other keys change nothing. */
  function PlayerKey(p: Body, key: int, d: bool): (r: Body)
    ensures key == VK_UP ==> r == Entities.KeyUp(p, d)
    ensures key == VK_LEFT ==> r == Entities.KeyLeft(p, d)
    ensures key == VK_DOWN ==> r == Entities.KeyDown(p, d)
    ensures key == VK_RIGHT ==> r == Entities.KeyRight(p, d)
    ensures IsJump(key) ==> r == Entities.KeyJump(p, d)
    ensures IsFire(key) ==> r == Entities.KeyFire(p, d)
    ensures !(key in {VK_UP, VK_LEFT, VK_DOWN, VK_RIGHT} || IsJump(key) || IsFire(key)) ==> r == p
  {
    var p1 := if key == VK_UP then Entities.KeyUp(p, d) else p;
    var p2 := if key == VK_LEFT then Entities.KeyLeft(p1, d) else p1;
    var p3 := if key == VK_DOWN then Entities.KeyDown(p2, d) else p2;
    var p4 := if key == VK_RIGHT then Entities.KeyRight(p3, d) else p3;
    var p5 := if IsJump(key) then Entities.KeyJump(p4, d) else p4;
    if IsFire(key) then Entities.KeyFire(p5, d) else p5
  }

  /** Releasing a key the player was not holding, after pressing it, restores the flags; only left and right also turn the player. */
  lemma {:induction false} ReleaseUndoesPress(p: Body, key: int)
    requires key in {VK_UP, VK_DOWN} || IsJump(key) || IsFire(key)
    requires !p.keys.up && !p.keys.down && !p.keys.jump && !p.keys.fire
    ensures PlayerKey(PlayerKey(p, key, true), key, false) == p
  {
  }

  /** Every object of a list drawn once. */
  function RenderAll(xs: seq<Body>): (r: seq<Body>)
    requires AllValid(xs)
    ensures |r| == |xs| && AllValid(r)
    ensures forall i :: 0 <= i < |xs| ==> r[i].motion == xs[i].motion && r[i].kind == xs[i].kind
  {
    seq(|xs|, i requires 0 <= i < |xs| => Entities.Render(xs[i]))
  }

  /** Level 6's enemy drawing: an enemy flagged for removal is not drawn, so its clip does not tick. */
  function RenderLive(xs: seq<Body>): (r: seq<Body>)
    requires AllValid(xs)
    ensures |r| == |xs| && AllValid(r)
    ensures forall i :: 0 <= i < |xs| && xs[i].life.remove ==> r[i] == xs[i]
    ensures forall i :: 0 <= i < |xs| && !xs[i].life.remove ==> r[i] == Entities.Render(xs[i])
  {
    seq(|xs|, i requires 0 <= i < |xs| => if xs[i].life.remove then xs[i] else Entities.Render(xs[i]))
  }
}
