/**
 * A playable level (levels 1, 2 and 6): its player and object lists as
 * fields, the progress store it shares with every other level, and the room
 * it was loaded with.  Each method does what the level's own code does, loop
 * by loop, and is proved to compute the functions of Scenes.
 */
module Levels {
  import opened JavaLang
  import opened Bodies
  import Entities
  import TileMap
  import opened Progress
  import opened PlayerSaves
  import opened Scenes
  import opened KeyCodes

  /** What the level constructors do to the store before the objects are built: level 1 also starts a new run. */
  function Opening(id: int, v: Save): (r: Save)
    requires Registered(v)
    ensures Registered(r)
    ensures id == LEVEL_1 ==> r == Init(0, 0, 0)
    ensures id != LEVEL_1 ==> r == Progress.Reset(v)
  {
    if id == LEVEL_1 then Init(0, 0, 0) else Progress.Reset(v)
  }

  /** Each update() of a list of objects, in list order. */
  method UpdateList(xs: seq<Body>, g: TileMap.Grid, inp: Inputs, slow: bool) returns (ys: seq<Body>)
    requires AllValid(xs) && TileMap.WellFormed(g)
    ensures ys == UpdateAll(xs, g, inp, slow)
  {
    ys := xs;
    var i := 0;
    while i < |ys|
      invariant 0 <= i <= |ys| == |xs|
      invariant forall k :: 0 <= k < i ==> ys[k] == Entities.Update(xs[k], g, inp.ready, slow, inp.sinA, inp.cosB)
      invariant forall k :: i <= k < |ys| ==> ys[k] == xs[k]
    {
      ys := ys[i := Entities.Update(ys[i], g, inp.ready, slow, inp.sinA, inp.cosB)];
      i := i + 1;
    }
  }

  /** The index sweep of the bullets and the interactables, with remove(i) followed by ++i. */
  method SweepList(xs: seq<Body>) returns (ys: seq<Body>)
    ensures ys == Swept(xs)
  {
    ys := xs;
    var i := 0;
    while i < |ys|
      invariant 0 <= i
      invariant i <= |ys| ==> ys[..i] + Swept(ys[i..]) == Swept(xs)
      invariant i > |ys| ==> ys == Swept(xs)
      decreases |ys| - i
    {
      if ys[i].life.remove {
        SweepRemoveStep(ys, i);
        ys := ys[..i] + ys[i + 1..];
      } else {
        SweepKeepStep(ys, i);
      }
      i := i + 1;
    }
    if i <= |ys| {
      assert ys[..i] == ys && ys[i..] == [];
    }
  }

  /** Each render() of a list; with `skipRemovable`, objects flagged for removal are not drawn. */
  method RenderList(xs: seq<Body>, skipRemovable: bool) returns (ys: seq<Body>)
    requires AllValid(xs)
    ensures skipRemovable ==> ys == RenderLive(xs)
    ensures !skipRemovable ==> ys == RenderAll(xs)
  {
    ys := xs;
    var i := 0;
    while i < |ys|
      invariant 0 <= i <= |ys| == |xs|
      invariant forall k :: 0 <= k < i ==> ys[k] == if skipRemovable && xs[k].life.remove then xs[k] else Entities.Render(xs[k])
      invariant forall k :: i <= k < |ys| ==> ys[k] == xs[k]
    {
      if !(skipRemovable && ys[i].life.remove) {
        ys := ys[i := Entities.Render(ys[i])];
      }
      i := i + 1;
    }
  }

  class Level {
    const id: int
    const room: TileMap.Grid
    const save: PlayerSave
    var player: Body
    var enemy: seq<Body>
    var ammo: seq<Body>
    var mapObjects: seq<Body>

    function Abs(): Scene
      reads this, save
    {
      Scene(player, enemy, ammo, mapObjects, save.Abs())
    }

    ghost predicate Valid()
      reads this, save
    {
      Modelled(id) && TileMap.WellFormed(room) && Good(Abs())
    }

    /** StateLevel1/2/6(sm): the base constructor takes the key away, then the level's resources are made. */
    constructor (id: int, room: TileMap.Grid, save: PlayerSave)
      requires Modelled(id) && TileMap.WellFormed(room) && Registered(save.Abs())
      modifies save
      ensures Valid() && this.id == id && this.room == room && this.save == save
      ensures Abs() == Populate(id, Opening(id, old(save.Abs())))
    {
      this.id := id;
      this.room := room;
      this.save := save;
      player := Entities.NewPlayer();
      enemy := [];
      ammo := [];
      mapObjects := [];
      new;
      save.Reset();
      if id == LEVEL_1 {
        save.HardReset();
      }
      InitMapObjects();
    }

    /** initMapObjects(): the level's spawn table, appended object by object. */
    method InitMapObjects()
      requires Modelled(id) && Registered(save.Abs()) && enemy == [] && ammo == []
      modifies this, save
      ensures Abs() == Populate(id, old(save.Abs()))
    {
      if id == LEVEL_1 {
        InitLevel1();
      } else if id == LEVEL_2 {
        InitLevel2();
      } else {
        InitLevel6();
      }
    }

    /** Level 1's initMapObjects. */
    method InitLevel1()
      requires Registered(save.Abs()) && enemy == [] && ammo == []
      modifies this, save
      ensures Abs() == Level1(old(save.Abs()))
    {
      mapObjects := [];
      mapObjects := mapObjects + [Entities.Placed(Entities.NewDoor(), 18, 12, ACTION_TELEPORT, LEVEL_2)];
      enemy := enemy + [Entities.KeyLeft(At(Entities.NewMushroom(), 13, 14), true)];
      player := At(Entities.NewPlayer(), 1, 11);
      save.Add(ACTION_KEY);
    }

    /** Level 2's initMapObjects. */
    method InitLevel2()
      requires Registered(save.Abs()) && enemy == [] && ammo == []
      modifies this
      ensures Abs() == Level2(save.Abs())
    {
      Level2Interactables();
      enemy := enemy + [Entities.KeyRight(At(Entities.NewMushroom(), 1, 1), true)];
      enemy := enemy + [Entities.KeyLeft(At(Entities.NewMushroom(), 4, 4), true)];
      enemy := enemy + [Entities.KeyRight(At(Entities.NewMushroom(), 8, 10), true)];
      player := At(Entities.NewPlayer(), 18, 12);
    }

    /** Level 2's interactables: the slow-fall pickup is added only when slow-fall is not owned. */
    method Level2Interactables()
      requires Registered(save.Abs())
      modifies this`mapObjects
      ensures mapObjects == Level2Objects(SlowOwned(save.Abs()))
    {
      var objects := [];
      objects := objects + [Entities.Placed(Entities.NewDoor(), 16, 14, ACTION_TELEPORT, LEVEL_3)];
      objects := objects + [Entities.Placed(Entities.NewKey(), 18, 6, ACTION_KEY, 0)];
      var owned := save.Has(ACTION_SLOWFALL);
      if owned != Ok(true) {
        objects := objects + [Entities.Placed(Entities.NewSlowFall(), 1, 10, ACTION_SLOWFALL, 0)];
      }
      var spike := Entities.NewSpikeBlock();
      objects := objects + [Entities.Placed(spike, 7, 8, ACTION_DAMAGE, 0)];
      objects := objects + [Entities.Placed(spike, 8, 8, ACTION_DAMAGE, 0)];
      objects := objects + [Entities.Placed(spike, 11, 8, ACTION_DAMAGE, 0)];
      objects := objects + [Entities.Placed(spike, 12, 8, ACTION_DAMAGE, 0)];
      mapObjects := objects;
    }

    /** Level 6's initMapObjects: no interactables, and the boss appended to the enemies. */
    method InitLevel6()
      requires Registered(save.Abs()) && enemy == [] && ammo == []
      modifies this
      ensures Abs() == Level6(save.Abs())
    {
      mapObjects := [];
      enemy := enemy + [Entities.KeyUp(Entities.KeyLeft(At(Entities.NewBoss(), 10, 8), true), true)];
      player := At(Entities.NewPlayer(), 18, 14);
    }

    /** reset(): the bullets and enemies are dropped and the spawn table runs again. */
    method Reset()
      requires Valid()
      modifies this, save
      ensures Valid() && Abs() == Populate(id, old(save.Abs()))
    {
      ammo := [];
      enemy := [];
      InitMapObjects();
    }

    // -------------------------------------------------------------------
    // Interactables

    /** actionTeleport(mo): the door is taken only when the key is owned. */
    method ActionTeleport(mo: Body) returns (door: Option<int>)
      requires Registered(save.Abs())
      ensures door == if save.inventory[ACTION_KEY] then Some(mo.life.teleport) else None
    {
      var h := save.Has(ACTION_KEY);
      if h == Ok(true) {
        door := Some(mo.life.teleport);
      } else {
        door := None;
      }
    }

    /** actionKey(mo) and actionSlowFall(mo): the item is owned from now on and the pickup is killed. */
    method ActionPickup(i: int, item: int)
      requires 0 <= i < |mapObjects|
      modifies this, save
      ensures save.Abs() == Add(old(save.Abs()), item)
      ensures mapObjects == old(mapObjects)[i := Entities.Kill(old(mapObjects)[i]).0]
      ensures player == old(player) && enemy == old(enemy) && ammo == old(ammo)
    {
      save.Add(item);
      var r := Entities.Kill(mapObjects[i]);
      mapObjects := mapObjects[i := r.0];
    }

    /** actionDamage(): the player is killed. */
    method ActionDamage()
      modifies this
      ensures player == Entities.Kill(old(player)).0
      ensures enemy == old(enemy) && ammo == old(ammo) && mapObjects == old(mapObjects)
    {
      var r := Entities.Kill(player);
      player := r.0;
    }

    /** mapObjectInteraction(mapObjects[i]). */
    method MapObjectInteraction(i: int) returns (door: Option<int>)
      requires 0 <= i < |mapObjects| && Registered(save.Abs())
      modifies this, save
      ensures var t := Interaction(old(mapObjects)[i], old(player), old(save.Abs()));
        player == t.player && mapObjects == old(mapObjects)[i := t.mo] && save.Abs() == t.save && door == t.door
      ensures enemy == old(enemy) && ammo == old(ammo)
    {
      var mo := mapObjects[i];
      door := None;
      if Touches(mo, player) {
        if player.keys.up {
          if mo.life.action == ACTION_TELEPORT {
            door := ActionTeleport(mo);
          } else if mo.life.action == ACTION_KEY {
            ActionPickup(i, ACTION_KEY);
          } else if mo.life.action == ACTION_SLOWFALL {
            ActionPickup(i, ACTION_SLOWFALL);
          }
        } else if mo.life.action == ACTION_DAMAGE {
          ActionDamage();
        }
      }
    }

    /** mapObjects[i].update(). */
    method UpdateObject(i: int, inp: Inputs)
      requires Valid() && 0 <= i < |mapObjects|
      modifies this
      ensures mapObjects == old(mapObjects)[i := Entities.Update(old(mapObjects)[i], room, inp.ready, SlowOwned(save.Abs()), inp.sinA, inp.cosB)]
      ensures player == old(player) && enemy == old(enemy) && ammo == old(ammo)
    {
      var slow := save.inventory[ACTION_SLOWFALL];
      mapObjects := mapObjects[i := Entities.Update(mapObjects[i], room, inp.ready, slow, inp.sinA, inp.cosB)];
    }

    /** One turn of the first loop: mapObjects[i] updates, then interacts. */
    method ObjectTurn(i: int, inp: Inputs) returns (doors: seq<int>)
      requires Valid() && 0 <= i < |mapObjects|
      modifies this, save
      ensures Valid() && (Abs(), doors) == Scenes.ObjectTurn(old(Abs()), room, inp, i)
    {
      ghost var r := Scenes.ObjectTurn(Abs(), room, inp, i);
      UpdateObject(i, inp);
      var door := MapObjectInteraction(i);
      doors := if door.Some? then [door.value] else [];
      assert Abs() == r.0;
    }

    /** The first loop of updateMapObjects: every interactable in turn; the doors taken, in order. */
    method InteractAll(inp: Inputs) returns (doors: seq<int>)
      requires Valid()
      modifies this, save
      ensures Valid() && (Abs(), doors) == Interactions(old(Abs()), room, inp, |old(mapObjects)|)
    {
      ghost var s0 := Abs();
      assert Interactions(s0, room, inp, 0) == (s0, []);
      doors := InteractLoop(s0, inp);
      assert (Abs(), doors) == Interactions(s0, room, inp, |s0.objects|);
    }

    /** The loop itself, begun in the state s0. */
    method InteractLoop(ghost s0: Scene, inp: Inputs) returns (doors: seq<int>)
      requires Midway(s0, inp, 0, Abs(), [])
      modifies this, save
      ensures Midway(s0, inp, |s0.objects|, Abs(), doors)
    {
      doors := [];
      var i := 0;
      while i < |mapObjects|
        invariant Midway(s0, inp, i, Abs(), doors)
        decreases |s0.objects| - i
      {
        doors := InteractNext(s0, inp, i, doors);
        i := i + 1;
      }
      assert i == |s0.objects|;
    }

    /** After i turns of that loop, begun in s0, the level is in state now and the doors taken are doors. */
    ghost predicate Midway(s0: Scene, inp: Inputs, i: int, now: Scene, doors: seq<int>) {
      Modelled(id) && TileMap.WellFormed(room) && Good(s0) && 0 <= i <= |s0.objects| &&
      |now.objects| == |s0.objects| &&
      forall n: nat {:trigger Interactions(s0, room, inp, n)} :: n == i ==> (now, doors) == Interactions(s0, room, inp, n)
    }

    /** One pass of that loop, from the state after i turns to the state after i + 1. */
    method InteractNext(ghost s0: Scene, inp: Inputs, i: int, doors: seq<int>) returns (after: seq<int>)
      requires Midway(s0, inp, i, Abs(), doors) && i < |mapObjects|
      modifies this, save
      ensures Midway(s0, inp, i + 1, Abs(), after)
    {
      InteractionsStep(s0, room, inp, i);
      var d := ObjectTurn(i, inp);
      after := doors + d;
    }

    // -------------------------------------------------------------------
    // Bullets and combat

    /** The bullet spawn: a shot latched by the player's update becomes a new bullet. */
    method SpawnBullet(aim: real) returns (fired: bool)
      requires Valid()
      modifies this
      ensures Valid() && (Abs(), fired) == Spawn(old(Abs()), aim)
    {
      var r := Entities.DidShoot(player);
      player := r.0;
      fired := r.1;
      if fired {
        var displacement := IDiv(-HALF_TILE, 2);
        if player.faceRight {
          displacement := HALF_TILE / 2;
        }
        var p := Vec(player.motion.coords.x + displacement as real, player.motion.coords.y + (HALF_TILE / 2 / 2) as real);
        ammo := ammo + [Entities.NewBullet(p, player.faceRight, aim)];
      }
    }

    /** The door and the key the boss leaves, appended. */
    method SpawnDoorAndKey()
      modifies this
      ensures mapObjects == old(mapObjects) + DoorAndKey()
      ensures player == old(player) && enemy == old(enemy) && ammo == old(ammo)
    {
      mapObjects := mapObjects + [Entities.Placed(Entities.NewDoor(), 8, 14, ACTION_TELEPORT, LEVEL_THEEND)];
      mapObjects := mapObjects + [Entities.Placed(Entities.NewKey(), 11, 4, ACTION_KEY, 0)];
    }

    /** Bullet k against enemy j. */
    method HitTest(j: int, k: int, boss: bool)
      requires Good(Abs()) && 0 <= j < |enemy| && 0 <= k < |ammo|
      modifies this, save
      ensures Abs() == Shot(old(Abs()), j, k, boss)
    {
      var a := ammo[k];
      var e := enemy[j];
      if a.life.alive && e.life.alive && Touches(a, e) {
        var ra := Entities.Kill(a);
        ammo := ammo[k := ra.0];
        var re := Entities.Kill(e);
        enemy := enemy[j := re.0];
        if re.1 {
          var s1 := save.AddPoint(KILLCOUNT);
          var s2 := save.AddPoints(SCORE, enemy[j].life.score);
          if boss {
            SpawnDoorAndKey();
          }
        }
      }
    }

    /** Enemy j against every bullet. */
    method FireAt(j: int, boss: bool)
      requires Good(Abs()) && 0 <= j < |enemy|
      modifies this, save
      ensures Abs() == Shots(old(Abs()), j, |old(ammo)|, boss)
    {
      ghost var s0 := Abs();
      var k := 0;
      while k < |ammo|
        invariant Fired(s0, j, boss, k, Abs())
        decreases |s0.ammo| - k
      {
        ShotsStep(s0, j, k, boss);
        HitTest(j, k, boss);
        k := k + 1;
      }
      assert k == |s0.ammo|;
    }

    /** After k turns of that loop, begun in s0, the level is in state now. */
    ghost predicate Fired(s0: Scene, j: int, boss: bool, k: int, now: Scene) {
      Good(s0) && 0 <= j < |s0.enemy| && 0 <= k <= |s0.ammo| && |now.ammo| == |s0.ammo| &&
      forall n: nat {:trigger Shots(s0, j, n, boss)} :: n == k ==> now == Shots(s0, j, n, boss)
    }

    /** The player against enemy j. */
    method PlayerVsEnemy(j: int)
      requires Good(Abs()) && 0 <= j < |enemy|
      modifies this, save
      ensures Abs() == Clash(old(Abs()), j)
    {
      var e := enemy[j];
      if Touches(player, e) && e.life.alive && player.life.alive {
        var r := Entities.Kill(player);
        player := r.0;
        var s := save.AddPoint(DEATHCOUNT);
      }
    }

    /** The combat loop: every enemy against every bullet, then against the player. */
    method ResolveCollisions(boss: bool)
      requires Good(Abs())
      modifies this, save
      ensures Abs() == Combat(old(Abs()), |old(enemy)|, boss)
    {
      ghost var s0 := Abs();
      var j := 0;
      while j < |enemy|
        invariant Fought(s0, boss, j, Abs())
        decreases |s0.enemy| - j
      {
        CombatNext(s0, j, boss);
        j := j + 1;
      }
      assert j == |s0.enemy|;
    }

    /** After j turns of that loop, begun in s0, the level is in state now. */
    ghost predicate Fought(s0: Scene, boss: bool, j: int, now: Scene) {
      Good(s0) && 0 <= j <= |s0.enemy| && |now.enemy| == |s0.enemy| &&
      forall n: nat {:trigger Combat(s0, n, boss)} :: n == j ==> now == Combat(s0, n, boss)
    }

    /** One pass of that loop: enemy j against every bullet, then against the player. */
    method CombatNext(ghost s0: Scene, j: int, boss: bool)
      requires Fought(s0, boss, j, Abs()) && j < |enemy|
      modifies this, save
      ensures Fought(s0, boss, j + 1, Abs())
    {
      assert Abs() == Combat(s0, j, boss);
      FireAt(j, boss);
      PlayerVsEnemy(j);
      CombatStep(s0, j, boss);
    }

    // -------------------------------------------------------------------
    // The tick, the keys and drawing

    /**
     * update(): updateMapObjects, given the tick's outside inputs; it returns
     * the doors taken (for the level manager to switch to) and whether a
     * shot was fired (for the screen shake).
     */
    method Update(inp: Inputs) returns (doors: seq<int>, fired: bool)
      requires Valid()
      modifies this, save
      ensures Valid()
      ensures var o := Tick(old(Abs()), room, inp, id == LEVEL_6);
        Abs() == o.scene && doors == o.doors && fired == o.fired
    {
      doors := Move(inp);
      fired := SpawnBullet(inp.aim);
      ResolveCollisions(id == LEVEL_6);
      SweepAll();
    }

    /** The movement half of the tick. */
    method Move(inp: Inputs) returns (doors: seq<int>)
      requires Valid()
      modifies this, save
      ensures Valid() && (Abs(), doors) == Moved(old(Abs()), room, inp)
    {
      doors := InteractAll(inp);
      Advance(inp);
    }

    /** The enemies, the player and the bullets update. */
    method Advance(inp: Inputs)
      requires Valid()
      modifies this
      ensures Valid() && Abs() == Advanced(old(Abs()), room, inp)
    {
      ghost var r := Advanced(Abs(), room, inp);
      var slow := save.inventory[ACTION_SLOWFALL];
      var e := UpdateList(enemy, room, inp, slow);
      var p := Entities.Update(player, room, inp.ready, slow, inp.sinA, inp.cosB);
      var a := UpdateList(ammo, room, inp, slow);
      enemy, player, ammo := e, p, a;
      assert Abs() == r;
    }

    /** The closing sweep of the tick. */
    method SweepAll()
      requires Valid()
      modifies this
      ensures Valid() && Abs() == Sweep(old(Abs()))
    {
      ghost var r := Sweep(Abs());
      var a := SweepList(ammo);
      var m := SweepList(mapObjects);
      ammo, mapObjects := a, m;
      assert Abs() == r;
    }

    /** keyPressedPlayer(key). */
    method KeyPressedPlayer(key: int)
      modifies this
      ensures player == PlayerKey(old(player), key, true)
      ensures enemy == old(enemy) && ammo == old(ammo) && mapObjects == old(mapObjects)
    {
      if key == VK_UP {
        player := Entities.KeyUp(player, true);
      }
      if key == VK_LEFT {
        player := Entities.KeyLeft(player, true);
      }
      if key == VK_DOWN {
        player := Entities.KeyDown(player, true);
      }
      if key == VK_RIGHT {
        player := Entities.KeyRight(player, true);
      }
      if key == VK_SPACE || key == VK_X {
        player := Entities.KeyJump(player, true);
      }
      if key == VK_Z || key == VK_C {
        player := Entities.KeyFire(player, true);
      }
    }

    /** keyReleasedPlayer(key), which keyReleased always forwards to. */
    method KeyReleased(key: int)
      requires Valid()
      modifies this
      ensures Valid()
      ensures player == PlayerKey(old(player), key, false)
      ensures enemy == old(enemy) && ammo == old(ammo) && mapObjects == old(mapObjects)
    {
      if key == VK_UP {
        player := Entities.KeyUp(player, false);
      }
      if key == VK_LEFT {
        player := Entities.KeyLeft(player, false);
      }
      if key == VK_DOWN {
        player := Entities.KeyDown(player, false);
      }
      if key == VK_RIGHT {
        player := Entities.KeyRight(player, false);
      }
      if key == VK_SPACE || key == VK_X {
        player := Entities.KeyJump(player, false);
      }
      if key == VK_Z || key == VK_C {
        player := Entities.KeyFire(player, false);
      }
    }

    /** keyPressed(key): keys go to the player until it is removable; then only fire restarts the level. */
    method KeyPressed(key: int)
      requires Valid()
      modifies this, save
      ensures Valid()
      ensures !old(player.life.remove) ==> Abs() == old(Abs()).(player := PlayerKey(old(player), key, true))
      ensures old(player.life.remove) && IsFire(key) ==> Abs() == Populate(id, old(save.Abs()))
      ensures old(player.life.remove) && !IsFire(key) ==> Abs() == old(Abs())
    {
      if !player.life.remove {
        KeyPressedPlayer(key);
      } else if key == VK_Z || key == VK_C {
        Reset();
      }
    }

    /** The state renderMapObjects changes: every clip ticks, except, on level 6, those of enemies flagged for removal. */
    method RenderMapObjects()
      requires Valid()
      modifies this
      ensures Valid()
      ensures mapObjects == RenderAll(old(mapObjects)) && ammo == RenderAll(old(ammo))
      ensures player == Entities.Render(old(player))
      ensures id == LEVEL_6 ==> enemy == RenderLive(old(enemy))
      ensures id != LEVEL_6 ==> enemy == RenderAll(old(enemy))
    {
      mapObjects := RenderList(mapObjects, false);
      enemy := RenderList(enemy, id == LEVEL_6);
      player := Entities.Render(player);
      ammo := RenderList(ammo, false);
    }
  }
}
