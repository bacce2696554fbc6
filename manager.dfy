/**
 * The level manager: a registry of screens by id and the id of the screen
 * being played.  Switching screens always builds a fresh instance of the
 * screen asked for (every screen's construction first takes the key away,
 * level 1's also starts a new run); update, render and the key events go
 * to the current screen, and a missing screen there is a
 * NullPointerException.
 *
 * Registry is the value the manager is proved against: for each registered
 * id whether an instance is stored, the current id, and the run progress.
 */
module Managers {
  import opened JavaLang
  import opened KeyCodes
  import opened Scenes
  import opened Progress
  import TileMap
  import PlayerSaves
  import Levels
  import Menus
  import EndScreens

  /** The ids initStates registers, which are also the ids loadState can build. */
  predicate Known(s: int) {
    s == LEVEL_MENU || s == LEVEL_1 || s == LEVEL_2 || s == LEVEL_3 || s == LEVEL_4 ||
    s == LEVEL_5 || s == LEVEL_6 || s == LEVEL_INFO || s == LEVEL_THEEND || s == LEVEL_LOADING
  }

  /** A registry entry: null, or an instance built for the screen `state`. */
  datatype Slot = Null | Instance(state: int)

  datatype Registry = Registry(slots: map<int, Slot>, current: int, save: Save)

  /** The store after the constructor of screen `s` ran. */
  function Built(s: int, v: Save): (r: Save)
    requires Registered(v)
    ensures Registered(r)
    ensures !Modelled(s) ==> r == Progress.Reset(v)
    ensures s == LEVEL_1 ==> r == Progress.Add(Init(0, 0, 0), Bodies.ACTION_KEY)
  {
    if Modelled(s) then Populate(s, Levels.Opening(s, v)).save else Progress.Reset(v)
  }

  /** loadState(s): a fresh instance for a known id; nothing for any other. */
  function Load(r: Registry, s: int): (q: Registry)
    requires Registered(r.save)
    ensures Registered(q.save) && q.current == r.current
    ensures Known(s) ==> q.slots == r.slots[s := Instance(s)] && q.save == Built(s, r.save)
    ensures !Known(s) ==> q == r
  {
    if Known(s) then r.(slots := r.slots[s := Instance(s)], save := Built(s, r.save)) else r
  }

  /** unloadState(s): nulls the entry unless it is the current one. */
  function Unload(r: Registry, s: int): (q: Registry)
    ensures s == r.current ==> q == r
    ensures s != r.current ==> q == r.(slots := r.slots[s := Null])
  {
    if s != r.current then r.(slots := r.slots[s := Null]) else r
  }

  /**
   * setState(s): with the loading screen made current, load `s`, unload the
   * current id (which is the loading screen, so nothing), then make `s`
   * current.  Asking for the loading screen itself does nothing.
   */
  function Switch(r: Registry, s: int): (q: Registry)
    requires Registered(r.save)
    ensures Registered(q.save)
    ensures s == LEVEL_LOADING ==> q == r
    ensures s != LEVEL_LOADING ==> q.current == s
    ensures s != LEVEL_LOADING && Known(s) ==> q.slots == r.slots[s := Instance(s)] && q.save == Built(s, r.save)
    ensures !Known(s) ==> q == r.(current := s)
    ensures forall id :: id in r.slots ==> id in q.slots && (r.slots[id].Instance? ==> q.slots[id].Instance?)
  {
    if s != LEVEL_LOADING then
      var r1 := Load(r.(current := LEVEL_LOADING), s);
      Unload(r1, r1.current).(current := s)
    else r
  }

  /** The teleports a tick asked for, in order. */
  function Teleports(r: Registry, doors: seq<int>): (q: Registry)
    requires Registered(r.save)
    ensures Registered(q.save)
    ensures doors == [] ==> q == r
    ensures doors != [] && doors[|doors| - 1] != LEVEL_LOADING ==> q.current == doors[|doors| - 1]
    decreases |doors|
  {
    if doors == [] then r else Switch(Teleports(r, doors[..|doors| - 1]), doors[|doors| - 1])
  }

  /** No switch ever takes an instance out of the registry. */
  lemma {:induction false} TeleportsNeverUnload(r: Registry, doors: seq<int>)
    requires Registered(r.save)
    ensures forall id :: id in r.slots ==> id in Teleports(r, doors).slots
    ensures forall id :: id in r.slots && r.slots[id].Instance? ==> Teleports(r, doors).slots[id].Instance?
    decreases |doors|
  {
    if doors != [] {
      TeleportsNeverUnload(r, doors[..|doors| - 1]);
    }
  }

  /** initStates(): every known id registered with a null entry. */
  function NullSlots(): (m: map<int, Slot>)
    ensures forall id :: id in m <==> Known(id)
    ensures forall id :: id in m ==> m[id] == Null
  {
    map[LEVEL_MENU := Null, LEVEL_1 := Null, LEVEL_2 := Null, LEVEL_3 := Null, LEVEL_4 := Null,
        LEVEL_5 := Null, LEVEL_6 := Null, LEVEL_THEEND := Null, LEVEL_INFO := Null, LEVEL_LOADING := Null]
  }

  /** The constructor: a new run, the null entries, the loading screen, then the menu. */
  function Startup(): Registry {
    var r0 := Registry(NullSlots(), LEVEL_MENU, Init(0, 0, 0));
    Switch(Switch(Load(r0, LEVEL_LOADING), LEVEL_LOADING), LEVEL_MENU)
  }

  /** After construction the menu is current, the loading screen and the menu are built, the rest null, and the run is new. */
  lemma {:induction false} StartupState()
    ensures Startup().current == LEVEL_MENU
    ensures forall id :: id in Startup().slots <==> Known(id)
    ensures Startup().slots[LEVEL_LOADING] == Instance(LEVEL_LOADING) && Startup().slots[LEVEL_MENU] == Instance(LEVEL_MENU)
    ensures forall id :: Known(id) && id != LEVEL_LOADING && id != LEVEL_MENU ==> Startup().slots[id] == Null
    ensures Get(Startup().save, KILLCOUNT) == Ok(0) && Get(Startup().save, DEATHCOUNT) == Ok(0) && Get(Startup().save, SCORE) == Ok(0)
    ensures Has(Startup().save, Bodies.ACTION_KEY) == Ok(false) && Has(Startup().save, Bodies.ACTION_SLOWFALL) == Ok(false)
  {
    var r0 := Registry(NullSlots(), LEVEL_MENU, Init(0, 0, 0));
    var r1 := Load(r0, LEVEL_LOADING);
    assert r1.slots == NullSlots()[LEVEL_LOADING := Instance(LEVEL_LOADING)];
    var r2 := Switch(r1, LEVEL_LOADING);
    assert r2 == r1;
    var r3 := Switch(r2, LEVEL_MENU);
    assert r3.slots == r1.slots[LEVEL_MENU := Instance(LEVEL_MENU)];
  }

  // -------------------------------------------------------------------------
  // Tile lookups by number

  /** The cell getTileType(num) and getTileId(num) look at: num modulo the width and modulo the height, Java's remainder. */
  function NumberCell(g: TileMap.Grid, num: int): (r: Result<(int, int)>)
    requires TileMap.WellFormed(g)
    ensures r.Throw? <==> g.columns == 0 || g.rows == 0
    ensures r.Throw? ==> r.ex == Arithmetic
    ensures r.Ok? && num >= 0 ==> r.value == (num % g.columns, num % g.rows)
    ensures r.Ok? && num < 0 ==> -g.columns < r.value.0 <= 0 && -g.rows < r.value.1 <= 0
    ensures r.Ok? && g.columns == g.rows ==> r.value.0 == r.value.1
  {
    if g.columns == 0 || g.rows == 0 then Throw(Arithmetic)
    else Ok((IRem(num, g.columns), IRem(num, g.rows)))
  }

  /** getTileType(int num) on the current screen's room. */
  function TileTypeOf(g: TileMap.Grid, num: int): (r: Result<int>)
    requires TileMap.WellFormed(g)
    ensures r.Throw? <==> NumberCell(g, num).Throw?
    ensures r.Ok? ==> r.value == TileMap.TypeAt(g, NumberCell(g, num).value.0, NumberCell(g, num).value.1)
  {
    match NumberCell(g, num)
    case Throw(e) => Throw(e)
    case Ok((x, y)) => Ok(TileMap.TypeAt(g, x, y))
  }

  /** getTileType(double num): the number truncated first. */
  function TileTypeOfReal(g: TileMap.Grid, num: real): (r: Result<int>)
    requires TileMap.WellFormed(g)
    ensures r == TileTypeOf(g, Trunc(num))
  {
    TileTypeOf(g, Trunc(num))
  }

  /** getTileId(int num) on the current screen's room. */
  function TileIdOf(g: TileMap.Grid, num: int): (r: Result<int>)
    requires TileMap.WellFormed(g)
    ensures NumberCell(g, num).Throw? ==> r == Throw(Arithmetic)
    ensures NumberCell(g, num).Ok? ==> r == TileMap.ImageIdAt(g, NumberCell(g, num).value.0, NumberCell(g, num).value.1)
  {
    match NumberCell(g, num)
    case Throw(e) => Throw(e)
    case Ok((x, y)) => TileMap.ImageIdAt(g, x, y)
  }

  /** getTileId(double num): the number truncated first. */
  function TileIdOfReal(g: TileMap.Grid, num: real): (r: Result<int>)
    requires TileMap.WellFormed(g)
    ensures r == TileIdOf(g, Trunc(num))
  {
    TileIdOf(g, Trunc(num))
  }

  /** A number below the room's width and height names the cell on the diagonal, (num, num). */
  lemma {:induction false} NumberOnDiagonal(g: TileMap.Grid, num: int)
    requires TileMap.WellFormed(g) && 0 <= num < g.columns && num < g.rows
    ensures NumberCell(g, num) == Ok((num, num))
    ensures TileTypeOf(g, num) == Ok(g.cells[num][num].tileType)
  {
    SmallRem(num, g.columns);
    SmallRem(num, g.rows);
  }

  lemma {:induction false} SmallRem(a: int, b: int)
    requires 0 <= a < b
    ensures IRem(a, b) == a
  {
    assert a / b == 0;
  }

  /** A negative number names no cell of the room: its type is 0. */
  lemma {:induction false} NegativeNumberIsEmpty(g: TileMap.Grid, num: int)
    requires TileMap.WellFormed(g) && g.columns > 0 && g.rows > 0 && num < 0
    requires IRem(num, g.columns) != 0 || IRem(num, g.rows) != 0
    ensures TileTypeOf(g, num) == Ok(0)
  {
    var c := NumberCell(g, num);
    assert c.value.0 < 0 || c.value.1 < 0;
  }

  // -------------------------------------------------------------------------
  // The manager

  /**
   * StateInfo, StateLoading and StateLevel3..5: screens of which this model
   * keeps only the id (their construction takes the key away like every
   * screen's).
   */
  class PlainState {
    const state: int

    constructor (state: int, save: PlayerSaves.PlayerSave)
      modifies save
      ensures this.state == state && save.Abs() == Progress.Reset(old(save.Abs()))
    {
      this.state := state;
      save.Reset();
    }
  }

  /** A registry entry with the instance it holds. */
  datatype Entry =
    | Empty
    | MenuScreen(menu: Menus.MainMenu)
    | LevelScreen(level: Levels.Level)
    | EndScreen(end: EndScreens.TheEnd)
    | PlainScreen(plain: PlainState)

  function SlotOf(e: Entry): Slot {
    match e
    case Empty => Null
    case MenuScreen(_) => Instance(LEVEL_MENU)
    case LevelScreen(l) => Instance(l.id)
    case EndScreen(_) => Instance(LEVEL_THEEND)
    case PlainScreen(p) => Instance(p.state)
  }

  /** The entry is null, or an instance of the class loadState builds for `id`. */
  predicate Fits(e: Entry, id: int) {
    match e
    case Empty => true
    case MenuScreen(_) => id == LEVEL_MENU
    case LevelScreen(l) => l.id == id && Modelled(id)
    case EndScreen(_) => id == LEVEL_THEEND
    case PlainScreen(p) => p.state == id && Known(id) && !Modelled(id) && id != LEVEL_MENU && id != LEVEL_THEEND
  }

  /** What the registry holds, instance by instance. */
  function Slots(m: map<int, Entry>): (r: map<int, Slot>)
    ensures forall id :: id in r <==> id in m
    ensures forall id :: id in m ==> r[id] == SlotOf(m[id])
  {
    map id | id in m :: SlotOf(m[id])
  }

  lemma SlotsPut(m: map<int, Entry>, s: int, e: Entry)
    ensures Slots(m[s := e]) == Slots(m)[s := SlotOf(e)]
  {
  }

  function Obj(e: Entry): set<object> {
    match e
    case Empty => {}
    case MenuScreen(m) => {m}
    case LevelScreen(l) => {l}
    case EndScreen(t) => {t}
    case PlainScreen(p) => {p}
  }

  /** How a call into the manager ended. */
  datatype Call = Returned | Exited | Threw(ex: Exception)

  class GameStateManager {
    var states: map<int, Entry>
    var current: int
    const save: PlayerSaves.PlayerSave
    /** The rooms the level files hold, by level id. */
    const rooms: map<int, TileMap.Grid>
    ghost var Repr: set<object>

    function Shape(): Registry
      reads this, save
    {
      Registry(Slots(states), current, save.Abs())
    }

    function Current(): Entry
      reads this
    {
      if current in states then states[current] else Empty
    }

    /** Every entry fits its id and lies in Repr. */
    ghost predicate Keyed()
      reads this
    {
      forall id :: id in states ==> Fits(states[id], id) && Obj(states[id]) <= Repr
    }

    /** The entry `e` is a working instance of screen `id`. */
    ghost predicate Ready(e: Entry, id: int)
      reads this, save, Obj(e)
    {
      match e
      case Empty => true
      case MenuScreen(m) => m.Valid()
      case LevelScreen(l) => l.save == save && id in rooms && l.room == rooms[id] && l.Valid()
      case EndScreen(t) => t.Valid()
      case PlainScreen(p) => true
    }

    /** The current entry is one whose readiness does not depend on the store (as while the loading screen is current). */
    ghost predicate Idle()
      reads this
    {
      Current().Empty? || Current().PlainScreen?
    }

    /** The rooms of the modelled levels are at hand. */
    ghost predicate RoomsReady()
      reads this
    {
      forall id :: Modelled(id) ==> id in rooms && TileMap.WellFormed(rooms[id])
    }

    ghost predicate Valid()
      reads this, save, Repr
    {
      Keyed() && Registered(save.Abs()) && RoomsReady() && Ready(Current(), current)
    }

    /** GameStateManager(game): a new run, the registry, the loading screen, then the menu. */
    constructor (rooms: map<int, TileMap.Grid>, save: PlayerSaves.PlayerSave)
      requires forall id :: Modelled(id) ==> id in rooms && TileMap.WellFormed(rooms[id])
      modifies save
      ensures Valid() && Shape() == Startup() && this.save == save && this.rooms == rooms
    {
      this.save := save;
      this.rooms := rooms;
      states := map[];
      current := 0;
      Repr := {};
      new;
      save.Init(0, 0, 0);
      InitStates();
      SetState(LEVEL_LOADING);
      SetState(LEVEL_MENU);
    }

    /** initStates(): the null entries, then the loading screen. */
    method InitStates()
      requires current == LEVEL_MENU && save.Abs() == Init(0, 0, 0) && RoomsReady()
      modifies this, save
      ensures Valid() && Shape() == Load(Registry(NullSlots(), LEVEL_MENU, Init(0, 0, 0)), LEVEL_LOADING)
    {
      states := map[LEVEL_MENU := Empty, LEVEL_1 := Empty, LEVEL_2 := Empty, LEVEL_3 := Empty, LEVEL_4 := Empty,
                    LEVEL_5 := Empty, LEVEL_6 := Empty, LEVEL_THEEND := Empty, LEVEL_INFO := Empty, LEVEL_LOADING := Empty];
      assert Slots(states) == NullSlots();
      LoadState(LEVEL_LOADING);
    }

    /** loadState(s). */
    method LoadState(s: int)
      requires Valid() && Idle()
      modifies this, save
      ensures Valid() && Shape() == Load(old(Shape()), s) && current == old(current)
      ensures Known(s) ==> s in states && fresh(Obj(states[s])) && Ready(states[s], s)
      ensures !Known(s) ==> states == old(states)
      ensures Repr >= old(Repr)
    {
      if s == LEVEL_MENU {
        LoadMenu();
      } else if s == LEVEL_1 || s == LEVEL_2 || s == LEVEL_6 {
        LoadLevel(s);
      } else if s == LEVEL_THEEND {
        LoadEnd();
      } else if Known(s) {
        LoadPlain(s);
      }
    }

    method LoadMenu()
      requires Valid() && Idle()
      modifies this, save
      ensures Valid() && Shape() == Load(old(Shape()), LEVEL_MENU) && current == old(current)
      ensures LEVEL_MENU in states && fresh(Obj(states[LEVEL_MENU])) && Ready(states[LEVEL_MENU], LEVEL_MENU)
      ensures Repr >= old(Repr)
    {
      var m := new Menus.MainMenu(save);
      Put(LEVEL_MENU, MenuScreen(m));
    }

    method LoadLevel(s: int)
      requires Valid() && Idle() && Modelled(s)
      modifies this, save
      ensures Valid() && Shape() == Load(old(Shape()), s) && current == old(current)
      ensures s in states && fresh(Obj(states[s])) && Ready(states[s], s)
      ensures Repr >= old(Repr)
    {
      var e := NewLevel(s);
      Put(s, e);
    }

    /** The level's construction, on the room of its id, as a screen entry. */
    method NewLevel(s: int) returns (e: Entry)
      requires Registered(save.Abs()) && RoomsReady() && Modelled(s)
      modifies save
      ensures e.LevelScreen? && fresh(Obj(e)) && Fits(e, s) && Ready(e, s)
      ensures save.Abs() == Built(s, old(save.Abs()))
    {
      var l := new Levels.Level(s, rooms[s], save);
      e := LevelScreen(l);
    }

    method LoadEnd()
      requires Valid() && Idle()
      modifies this, save
      ensures Valid() && Shape() == Load(old(Shape()), LEVEL_THEEND) && current == old(current)
      ensures LEVEL_THEEND in states && fresh(Obj(states[LEVEL_THEEND])) && Ready(states[LEVEL_THEEND], LEVEL_THEEND)
      ensures Repr >= old(Repr)
    {
      var t := new EndScreens.TheEnd(save);
      Put(LEVEL_THEEND, EndScreen(t));
    }

    method LoadPlain(s: int)
      requires Valid() && Idle() && Known(s) && !Modelled(s) && s != LEVEL_MENU && s != LEVEL_THEEND
      modifies this, save
      ensures Valid() && Shape() == Load(old(Shape()), s) && current == old(current)
      ensures s in states && fresh(Obj(states[s])) && Ready(states[s], s)
      ensures Repr >= old(Repr)
    {
      var p := new PlainState(s, save);
      Put(s, PlainScreen(p));
    }

    /** gameStates.put(s, e) of a freshly built instance. */
    method Put(s: int, e: Entry)
      requires Fits(e, s) && !e.Empty? && Ready(e, s) && Obj(e) !! Repr
      requires Keyed() && Registered(save.Abs()) && RoomsReady()
      requires Idle()
      modifies this
      ensures Valid() && states == old(states)[s := e] && current == old(current) && Repr == old(Repr) + Obj(e)
      ensures Shape() == old(Shape()).(slots := old(Shape()).slots[s := SlotOf(e)])
      ensures Ready(e, s)
    {
      SlotsPut(states, s, e);
      states := states[s := e];
      Repr := Repr + Obj(e);
    }

    /** unloadState(s). */
    method UnloadState(s: int)
      requires Valid()
      modifies this
      ensures Valid() && Shape() == Unload(old(Shape()), s) && Repr == old(Repr) && current == old(current)
      ensures states == if s != old(current) then old(states)[s := Empty] else old(states)
    {
      if s != current {
        SlotsPut(states, s, Empty);
        states := states[s := Empty];
      }
    }

    /** getState(). */
    method GetState() returns (s: int)
      ensures s == Shape().current
    {
      s := current;
    }

    /** setState(s). */
    method SetState(s: int)
      requires Valid()
      modifies this, save
      ensures Valid() && Shape() == Switch(old(Shape()), s)
      ensures s != LEVEL_LOADING && Known(s) ==> s in states && fresh(Obj(states[s]))
      ensures Repr >= old(Repr)
    {
      if s != LEVEL_LOADING {
        EnterLoading();
        LoadState(s);
        Leave(s);
      }
    }

    /** The loading screen unloaded (which, being current, it is not), then `s` made current. */
    method Leave(s: int)
      requires Valid() && current == LEVEL_LOADING
      requires s in states ==> Ready(states[s], s)
      modifies this
      ensures Valid() && Shape() == Unload(old(Shape()), LEVEL_LOADING).(current := s)
      ensures states == old(states) && Repr == old(Repr)
    {
      var t := current;
      UnloadState(t);
      current := s;
    }

    /** The loading screen made current, before the screen asked for is built. */
    method EnterLoading()
      requires Valid()
      modifies this
      ensures Valid() && Idle() && Shape() == old(Shape()).(current := LEVEL_LOADING)
      ensures states == old(states) && current == LEVEL_LOADING && Repr == old(Repr)
    {
      current := LEVEL_LOADING;
    }

    /** The teleports a level's tick asked for, each a setState in turn. */
    method Teleport(doors: seq<int>)
      requires Valid()
      modifies this, save
      ensures Valid() && Shape() == Teleports(old(Shape()), doors) && Repr >= old(Repr)
    {
      var i := 0;
      while i < |doors|
        invariant 0 <= i <= |doors| && Valid() && Repr >= old(Repr)
        invariant Shape() == Teleports(old(Shape()), doors[..i])
      {
        assert doors[..i + 1][..i] == doors[..i];
        SetState(doors[i]);
        i := i + 1;
      }
      assert doors[..i] == doors;
    }

    /** update(): the current screen's update; a level's teleports are applied after its tick. */
    method Update(inp: Inputs) returns (r: Call, shake: bool)
      requires Valid()
      modifies this, save, Repr
      ensures Valid()
      ensures old(Current()).Empty? ==> r == Threw(NullPointer) && !shake && Shape() == old(Shape())
      ensures !old(Current()).Empty? ==> r == Returned
      ensures !old(Current()).Empty? && !old(Current()).LevelScreen? ==> !shake && Shape() == old(Shape())
      ensures old(Current()).LevelScreen? ==>
        var l := old(Current()).level;
        var o := Tick(old(l.Abs()), l.room, inp, l.id == LEVEL_6);
        l.Abs().(save := o.scene.save) == o.scene && shake == o.fired &&
        Shape() == Teleports(old(Shape()).(save := o.scene.save), o.doors)
    {
      var e := Current();
      r := Returned;
      shake := false;
      if e.Empty? {
        r := Threw(NullPointer);
      } else if e.LevelScreen? {
        shake := UpdateLevel(e.level, inp);
      }
    }

    /** A level's update(), then the doors it asked for. */
    method UpdateLevel(l: Levels.Level, inp: Inputs) returns (shake: bool)
      requires Valid() && Current() == LevelScreen(l)
      modifies this, save, Repr
      ensures Valid()
      ensures var o := Tick(old(l.Abs()), l.room, inp, l.id == LEVEL_6);
        l.Abs().(save := o.scene.save) == o.scene && shake == o.fired &&
        Shape() == Teleports(old(Shape()).(save := o.scene.save), o.doors)
    {
      var doors, fired := TickLevel(l, inp);
      shake := fired;
      Teleport(doors);
    }

    /** The level's own update(): its scene takes one tick, and the registry keeps everything but the store. */
    method TickLevel(l: Levels.Level, inp: Inputs) returns (doors: seq<int>, fired: bool)
      requires Valid() && Current() == LevelScreen(l)
      modifies l, save
      ensures Valid() && Shape() == old(Shape()).(save := l.Abs().save)
      ensures var o := Tick(old(l.Abs()), l.room, inp, l.id == LEVEL_6);
        l.Abs() == o.scene && doors == o.doors && fired == o.fired
    {
      doors, fired := l.Update(inp);
    }

    /** render(): the current screen's drawing, of which the model keeps the animation and page-timer steps. */
    method Render() returns (r: Call)
      requires Valid()
      modifies this, save, Repr
      ensures Valid() && Shape() == old(Shape())
      ensures r == if old(Current()).Empty? then Threw(NullPointer) else Returned
      ensures old(Current()).EndScreen? ==>
        old(Current()).end.Timed() == EndScreens.Turned(old(Current().end.Timed()), false)
    {
      var e := Current();
      match e {
        case Empty =>
          r := Threw(NullPointer);
        case LevelScreen(l) =>
          l.RenderMapObjects();
          r := Returned;
        case EndScreen(t) =>
          var shown := t.EndScreen();
          r := Returned;
        case MenuScreen(_) =>
          r := Returned;
        case PlainScreen(_) =>
          r := Returned;
      }
    }

    /** keyPressed(key): escape and Q end the program; any other key goes to the current screen. */
    method KeyPressed(key: int) returns (r: Call)
      requires Valid()
      modifies this, save, Repr
      ensures Valid()
      ensures key == VK_ESCAPE || key == VK_Q ==> r == Exited && Shape() == old(Shape())
      ensures key != VK_ESCAPE && key != VK_Q && old(Current()).Empty? ==> r == Threw(NullPointer) && Shape() == old(Shape())
      ensures key != VK_ESCAPE && key != VK_Q && old(Current()).LevelScreen? ==>
        r == Returned && states == old(states) && current == old(current)
      ensures key != VK_ESCAPE && key != VK_Q && old(Current()).MenuScreen? ==>
        var m := old(Current()).menu;
        var c := if IsFire(key) then Menus.Select(old(m.options), old(m.selectedOption)) else Menus.Stay;
        (c.Exit? ==> r == Exited && Shape() == old(Shape())) &&
        (c.Goto? ==> r == Returned && Shape() == Switch(old(Shape()), c.target)) &&
        (c.Stay? ==> r == Returned && Shape() == old(Shape()))
      ensures key != VK_ESCAPE && key != VK_Q && old(Current()).EndScreen? ==>
        r == Returned && Shape() == if IsFire(key) then Switch(old(Shape()), LEVEL_MENU) else old(Shape())
      ensures key != VK_ESCAPE && key != VK_Q && old(Current()).PlainScreen? ==>
        r == Returned &&
        Shape() == if old(Current()).plain.state == LEVEL_INFO && IsFire(key) then Switch(old(Shape()), LEVEL_MENU) else old(Shape())
    {
      if key == VK_ESCAPE || key == VK_Q {
        return Exited;
      }
      var e := Current();
      match e {
        case Empty =>
          r := Threw(NullPointer);
        case LevelScreen(l) =>
          l.KeyPressed(key);
          r := Returned;
        case MenuScreen(m) =>
          var c := m.KeyPressed(key);
          r := Returned;
          if c.Exit? {
            r := Exited;
          } else if c.Goto? {
            SetState(c.target);
          }
        case EndScreen(t) =>
          var toMenu := t.KeyPressed(key);
          if toMenu {
            SetState(LEVEL_MENU);
          }
          r := Returned;
        case PlainScreen(p) =>
          if p.state == LEVEL_INFO && IsFire(key) {
            SetState(LEVEL_MENU);
          }
          r := Returned;
      }
    }

    /** keyReleased(key): to the current screen, of which only the levels react. */
    method KeyReleased(key: int) returns (r: Call)
      requires Valid()
      modifies this, save, Repr
      ensures Valid() && states == old(states) && current == old(current)
      ensures r == if old(Current()).Empty? then Threw(NullPointer) else Returned
      ensures old(Current()).LevelScreen? ==>
        old(Current()).level.player == PlayerKey(old(Current().level.player), key, false)
    {
      var e := Current();
      match e {
        case Empty =>
          r := Threw(NullPointer);
        case LevelScreen(l) =>
          l.KeyReleased(key);
          r := Returned;
        case MenuScreen(_) =>
          r := Returned;
        case EndScreen(_) =>
          r := Returned;
        case PlainScreen(_) =>
          r := Returned;
      }
    }
  }
}
