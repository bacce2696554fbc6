/**
 * The map editor: a cursor on the 32 x 32 tile sheet, four modes chosen
 * with F5 to F8, a text input mode, the active tile sheet, and a 20 x 16
 * room painted with the mouse.  A key counts once until it is released.
 * The pure functions below describe each handler on a value of the
 * editor's state; the class further down performs them field by field.
 */
module MapEditors {
  import opened JavaLang
  import opened KeyCodes
  import opened TileMap
  import opened MapConsoles
  import TileSheets
  import IoManagers

  /** The room size the editor paints in. */
  const COLUMNS: int := 20
  const ROWS: int := 16
  /** The tile sheet is shown as 32 x 32 tiles. */
  const SHEET_SIDE: int := 32
  const SHEET_TILES: int := 32 * 32
  /** The screen offsets of the room area and of the tile sheet. */
  const MAP_LEFT: int := 10
  const MAP_TOP: int := 100
  const SHEET_LEFT: int := 440
  const SHEET_TOP: int := 20
  /** The modes: console, editor, type and file. */
  const CONSOLE_MODE: int := 0
  const EDIT_MODE: int := 1
  const TYPE_MODE: int := 2
  const FILE_MODE: int := 3
  const NEW_ROOM_NAME: string := "roomname"
  const NEW_ROOM_INFO: string := "Add information for the room here."
  const INPUT_HINT: string := "(Press space to enter input mode)"

  // -------------------------------------------------------------------------
  // The cursor on the tile sheet

  /** nextTile(). */
  function TileAfter(s: int): (r: int)
    requires 0 <= s < SHEET_TILES
    ensures 0 <= r < SHEET_TILES && r == (s + 1) % SHEET_TILES
  {
    IRem(s + 1, SHEET_TILES)
  }

  /** prevTile(): below 0 the cursor wraps to the last tile. */
  function TileBefore(s: int): (r: int)
    requires 0 <= s < SHEET_TILES
    ensures 0 <= r < SHEET_TILES && r == (s - 1) % SHEET_TILES
  {
    var t := s - 1;
    if t < 0 then t + SHEET_TILES else IRem(t, SHEET_TILES)
  }

  /** nextTileLine(): one row down the sheet. */
  function LineAfter(s: int): (r: int)
    requires 0 <= s < SHEET_TILES
    ensures 0 <= r < SHEET_TILES && r == (s + SHEET_SIDE) % SHEET_TILES
  {
    IRem(s + SHEET_SIDE, SHEET_TILES)
  }

  /** prevTileLine(): one row up, wrapping to the bottom row. */
  function LineBefore(s: int): (r: int)
    requires 0 <= s < SHEET_TILES
    ensures 0 <= r < SHEET_TILES && r == (s - SHEET_SIDE) % SHEET_TILES
  {
    var t := s - SHEET_SIDE;
    if t < 0 then t + SHEET_TILES else IRem(t, SHEET_TILES)
  }

  /** A step and the opposite step come back to the same tile. */
  lemma {:induction false} TileStepsUndo(s: int)
    requires 0 <= s < SHEET_TILES
    ensures TileBefore(TileAfter(s)) == s && TileAfter(TileBefore(s)) == s
  {
    if s == SHEET_TILES - 1 {
      DivModUnique(SHEET_TILES, SHEET_TILES, 1, 0);
      DivModUnique(s, SHEET_TILES, 0, s);
    } else {
      DivModUnique(s + 1, SHEET_TILES, 0, s + 1);
      DivModUnique(s, SHEET_TILES, 0, s);
    }
    if s > 0 {
      DivModUnique(s - 1, SHEET_TILES, 0, s - 1);
    }
  }

  /** A line step and the opposite line step come back to the same tile. */
  lemma {:induction false} LineStepsUndo(s: int)
    requires 0 <= s < SHEET_TILES
    ensures LineBefore(LineAfter(s)) == s && LineAfter(LineBefore(s)) == s
  {
    if s + SHEET_SIDE >= SHEET_TILES {
      DivModUnique(s + SHEET_SIDE, SHEET_TILES, 1, s + SHEET_SIDE - SHEET_TILES);
    } else {
      DivModUnique(s + SHEET_SIDE, SHEET_TILES, 0, s + SHEET_SIDE);
    }
    DivModUnique(s, SHEET_TILES, 0, s);
    if s >= SHEET_SIDE {
      DivModUnique(s - SHEET_SIDE, SHEET_TILES, 0, s - SHEET_SIDE);
    }
  }

  // -------------------------------------------------------------------------
  // Tile sheets

  /** nextTileSheet(): the sheet after the active one, wrapping. */
  function NextSheet(active: int, n: int): (r: int)
    requires n > 0 && 0 <= active
    ensures 0 <= r < n
  {
    IRem(active + 1, n)
  }

  /** prevTileSheet(): from sheet 0 the last sheet, from any other the one after it. */
  function PrevSheet(active: int, n: int): (r: int)
    requires n > 0 && 0 <= active
    ensures 0 <= r < n
  {
    if active > 0 then IRem(active + 1, n)
    else IRem(0 + n - 1, n)
  }

  /**
   * prevTileSheet steps back only from sheet 0; from any other sheet it
   * steps forward exactly as nextTileSheet does, so with three or more
   * sheets it never reaches the sheet before.
   */
  lemma {:induction false} PrevSheetStepsForward(active: int, n: int)
    requires n > 0 && 0 <= active < n
    ensures active > 0 ==> PrevSheet(active, n) == NextSheet(active, n)
    ensures active == 0 ==> PrevSheet(active, n) == n - 1
    ensures n >= 3 && 0 < active < n - 1 ==> PrevSheet(active, n) == active + 1 != (active - 1) % n
  {
    DivModUnique(n - 1, n, 0, n - 1);
    if 0 < active < n - 1 {
      DivModUnique(active + 1, n, 0, active + 1);
      DivModUnique(active - 1, n, 0, active - 1);
    }
  }

  // -------------------------------------------------------------------------
  // The editor as a value

  /** The editor's state; `current` is the tile manager's current sheet. */
  datatype Editor = Editor(
    selectedTile: int, selectedType: int, active: int, current: int, mode: int,
    keyHeld: bool, inputMode: bool, mapCoords: (int, int),
    console: Console, room: Room)

  /** What the editor keeps true with n sheets loaded. */
  predicate Good(e: Editor, n: int) {
    Bounded(e, n) && Fits(e.room)
  }

  /** The bounds on the cursor, the mode and the sheets, whatever the room. */
  predicate Bounded(e: Editor, n: int) {
    n > 0 && 0 <= e.selectedTile < SHEET_TILES && 0 <= e.mode <= 3 && 0 <= e.current < n && 0 <= e.active < n
  }

  /** The part of Good that does not depend on the sheets. */
  predicate Steady(e: Editor) {
    0 <= e.selectedTile < SHEET_TILES && 0 <= e.mode <= 3 && Fits(e.room)
  }

  /** r differs from e at most in what the mode handlers change, and keeps e's bounds. */
  predicate SameSheets(e: Editor, r: Editor) {
    Steady(r) && r.current == e.current && r.active == e.active
  }

  /** The room is a well-formed 20 x 16 grid. */
  predicate Fits(room: Room) {
    WellFormed(room.grid) && room.grid.columns == COLUMNS && room.grid.rows == ROWS
  }

  /** What a key press asks of the program around the editor. */
  datatype Request =
    | NoRequest
    | Quit
    | LoadRoom(fileName: string)
    | SaveRoom(fileName: string, document: seq<IoManagers.Node>)

  /** addToConsole(line), once or twice. */
  function Log(e: Editor, line: string): (r: Editor)
    ensures r.console.lines == e.console.lines + [line]
  {
    e.(console := e.console.(lines := e.console.lines + [line]))
  }

  function Log2(e: Editor, first: string, second: string): (r: Editor)
    ensures r.console.lines == e.console.lines + [first, second]
  {
    Log(Log(e, first), second)
  }

  /** setTileSheet(s): the tile manager takes s only when it is a loaded sheet; the editor then follows the manager. */
  function WithSheet(e: Editor, s: int, n: int): (r: Editor)
    requires Good(e, n)
    ensures Good(r, n)
    ensures r.active == r.current == if 0 <= s < n then s else e.current
    ensures r.console.lines == e.console.lines + ["Current Tile Sheet #" + IntToString(r.current)]
  {
    var c := if 0 <= s < n then s else e.current;
    e.(current := c, active := c,
       console := e.console.(tileSheet := c, lines := e.console.lines + ["Current Tile Sheet #" + IntToString(c)]))
  }

  /** keyPressedChangeTileSheet(k). */
  function SheetKey(e: Editor, k: int, n: int): (r: Editor)
    requires Good(e, n)
    ensures Good(r, n)
  {
    if k == VK_1 then WithSheet(e, 0, n)
    else if k == VK_2 then WithSheet(e, 1, n)
    else if k == VK_PAGE_DOWN then WithSheet(e, NextSheet(e.active, n), n)
    else if k == VK_PAGE_UP then WithSheet(e, PrevSheet(e.active, n), n)
    else e
  }

  /** setMode(k): F5 to F8 choose modes 0 to 3; the console is told the mode either way. */
  function WithMode(e: Editor, k: int): (r: Editor)
    requires 0 <= e.mode <= 3
    ensures 0 <= r.mode <= 3 && r.console.mode == r.mode
    ensures r == e.(mode := r.mode, console := e.console.(mode := r.mode))
  {
    var m := if VK_F5 <= k <= VK_F8 then k - VK_F5 else e.mode;
    e.(mode := m, console := e.console.(mode := m))
  }

  /** F5, F6, F7 and F8 select modes 0, 1, 2 and 3, and any other key keeps the mode. */
  lemma {:induction false} FunctionKeysPickModes(e: Editor, k: int)
    requires 0 <= e.mode <= 3
    ensures WithMode(e, VK_F5).mode == CONSOLE_MODE && WithMode(e, VK_F6).mode == EDIT_MODE
    ensures WithMode(e, VK_F7).mode == TYPE_MODE && WithMode(e, VK_F8).mode == FILE_MODE
    ensures !(VK_F5 <= k <= VK_F8) ==> WithMode(e, k).mode == e.mode
  {
  }

  /** newRoom(): a blank 20 x 16 room named after the input line, or "roomname" when it is empty. */
  function WithNewRoom(e: Editor): (r: Editor)
    ensures WellFormed(r.room.grid) && r.room.grid == EmptyGrid(COLUMNS, ROWS)
    ensures r.room.name == (if e.console.input == "" then NEW_ROOM_NAME else e.console.input)
    ensures |r.console.lines| == |e.console.lines| + 1 && r.console.lines[..|e.console.lines|] == e.console.lines
  {
    var t := if e.console.input == "" then NEW_ROOM_NAME else e.console.input;
    var room := Room(t, NEW_ROOM_INFO, EmptyGrid(COLUMNS, ROWS));
    var e1 := e.(room := room, console := e.console.(name := t, info := NEW_ROOM_INFO));
    assert (e1.console.lines + ["x"])[..|e.console.lines|] == e.console.lines;
    Log(e1, "New room created: '" + t + "', '" + NEW_ROOM_INFO + "' [" + IntToString(COLUMNS) + ":" + IntToString(ROWS) + "]")
  }

  /** setRoomInfo(info). */
  function WithInfo(e: Editor, info: string): (r: Editor)
    ensures r.room == e.room.(info := info) && r.console.info == info
    ensures r.console.lines == e.console.lines + ["Room info changed to: '" + info + "'."]
  {
    Log(e.(room := e.room.(info := info), console := e.console.(info := info)), "Room info changed to: '" + info + "'.")
  }

  /** setRoomName(name). */
  function WithName(e: Editor, name: string): (r: Editor)
    ensures r.room == e.room.(name := name) && r.console.name == name
    ensures r.console.lines == e.console.lines + ["Room name changed to: '" + name + "'."]
  {
    Log(e.(room := e.room.(name := name), console := e.console.(name := name)), "Room name changed to: '" + name + "'.")
  }

  /** setRoomName(): renames to the input line, or asks for one. */
  function RenameRoom(e: Editor): (r: Editor)
    ensures e.console.input != "" ==> r.room == e.room.(name := e.console.input)
    ensures e.console.input == "" ==> r.room == e.room
  {
    if e.console.input != "" then WithName(e, e.console.input)
    else Log2(e, "Please state a name to change too first.", INPUT_HINT)
  }

  /** setInputMode(on). */
  function WithInputMode(e: Editor, on: bool): (r: Editor)
    ensures r.inputMode == on
    ensures r.console.lines == e.console.lines + [if on then "Input Mode On" else "Input Mode Off"]
  {
    Log(e.(inputMode := on), if on then "Input Mode On" else "Input Mode Off")
  }

  /** setType(t): the type the next click paints. */
  function TypeChosen(e: Editor, t: int): (r: Editor)
    ensures r.selectedType == r.console.tileType == t
  {
    e.(selectedType := t, console := e.console.(tileType := t))
  }

  /** The keys that type into the input line. */
  predicate Typing(k: int) {
    VK_A <= k <= VK_Z || VK_0 <= k <= VK_9 || k == VK_BACK_SPACE
  }

  /** keyPressedInputMode(k): letters, digits and backspace edit the line; escape and enter leave the mode. */
  function InputKey(e: Editor, k: int): (r: Editor)
    ensures r.console.input == if Typing(k) then Typed(e.console.input, k) else e.console.input
    ensures r.inputMode == (e.inputMode && k != VK_ESCAPE && k != VK_ENTER)
  {
    var e1 := if Typing(k) then e.(console := e.console.(input := Typed(e.console.input, k))) else e;
    if k == VK_ESCAPE || k == VK_ENTER then WithInputMode(e1, false) else e1
  }

  /** keyPressedConsoleMode(k). */
  function ConsoleKey(e: Editor, k: int): (r: Editor)
    requires Steady(e)
    ensures SameSheets(e, r)
  {
    var e1 := WithMode(e, k);
    if k == VK_N then WithNewRoom(e1)
    else if k == VK_I then WithInfo(e1, e1.room.info)
    else if k == VK_R then RenameRoom(e1)
    else e1
  }

  /** keyPressedEditMode(k): the arrows move the cursor on the sheet. */
  function EditKey(e: Editor, k: int): (r: Editor)
    requires Steady(e)
    ensures SameSheets(e, r)
  {
    var e1 := WithMode(e, k);
    if k == VK_UP then e1.(selectedTile := LineBefore(e1.selectedTile))
    else if k == VK_DOWN then e1.(selectedTile := LineAfter(e1.selectedTile))
    else if k == VK_RIGHT then e1.(selectedTile := TileAfter(e1.selectedTile))
    else if k == VK_LEFT then e1.(selectedTile := TileBefore(e1.selectedTile))
    else e1
  }

  /** keyPressedTypeMode(k): 1 chooses the solid type, 2 the transparent one. */
  function TypeKey(e: Editor, k: int): (r: Editor)
    requires Steady(e)
    ensures SameSheets(e, r)
  {
    var e1 := WithMode(e, k);
    if k == VK_1 then TypeChosen(e1, 1)
    else if k == VK_2 then TypeChosen(e1, 0)
    else e1
  }

  /** load(): asks for the file named by the input line, or asks for a name. */
  function LoadKey(e: Editor): (q: (Editor, Request))
    ensures q.1.LoadRoom? <==> e.console.input != ""
    ensures q.1.LoadRoom? ==> q == (e, LoadRoom("/assets/mapedit/" + e.console.input + ".xml"))
    ensures q.1.NoRequest? ==> q.0 == Log2(e, "First enter the room name you want to load.", INPUT_HINT)
  {
    if e.console.input != "" then (e, LoadRoom("/assets/mapedit/" + e.console.input + ".xml"))
    else (Log2(e, "First enter the room name you want to load.", INPUT_HINT), NoRequest)
  }

  /** save(): a named room is written to its name with ".xml" added, and the save always reports success. */
  function SaveKey(e: Editor): (q: (Editor, Request))
    requires WellFormed(e.room.grid)
    ensures q.1.SaveRoom? <==> e.room.name != ""
    ensures q.1.SaveRoom? ==> q.1.fileName == e.room.name + ".xml" && q.1.document == IoManagers.RoomDocument(Some(e.room))
    ensures q.0.room == e.room
  {
    if e.room.name != "" then
      (Log(e, "Room '" + e.room.name + "' saved."), SaveRoom(e.room.name + ".xml", IoManagers.RoomDocument(Some(e.room))))
    else (Log2(e, "First enter the room name you want to save.", INPUT_HINT), NoRequest)
  }

  /** keyPressedFileMode(k): L loads, S saves. */
  function FileKey(e: Editor, k: int): (q: (Editor, Request))
    requires Steady(e)
    ensures SameSheets(e, q.0)
  {
    var e1 := WithMode(e, k);
    if k == VK_L then LoadKey(e1)
    else if k == VK_S then SaveKey(e1)
    else (e1, NoRequest)
  }

  /** The switch on the mode in keyPressed. */
  function ModeKey(e: Editor, k: int, n: int): (q: (Editor, Request))
    requires Good(e, n)
    ensures SameSheets(e, q.0) && Good(q.0, n)
    ensures q.1.NoRequest? || q.1.LoadRoom? || q.1.SaveRoom?
  {
    if e.mode == CONSOLE_MODE then (ConsoleKey(e, k), NoRequest)
    else if e.mode == EDIT_MODE then (EditKey(e, k), NoRequest)
    else if e.mode == TYPE_MODE then (TypeKey(e, k), NoRequest)
    else FileKey(e, k)
  }

  /** The press itself, before the debounce flag is updated. */
  function Act(e: Editor, k: int, n: int): (q: (Editor, Request))
    requires Good(e, n)
    ensures Good(q.0, n)
  {
    if e.keyHeld then (e, NoRequest)
    else if k == VK_Q then (e, Quit)
    else if k == VK_SPACE then (WithInputMode(e, true), NoRequest)
    else if !e.inputMode then
      var q := ModeKey(e, k, n);
      (SheetKey(q.0, k, n), q.1)
    else (InputKey(e, k), NoRequest)
  }

  /**
   * keyPressed(k) with n sheets loaded: nothing happens while a key is
   * held; Q ends the program; space turns input mode on; outside input
   * mode the key goes to the mode's handler and then to the sheet keys;
   * every key but shift then counts as held.
   */
  function Press(e: Editor, k: int, n: int): (q: (Editor, Request))
    requires Good(e, n)
    ensures Good(q.0, n)
  {
    var q := Act(e, k, n);
    (q.0.(keyHeld := q.0.keyHeld || k != VK_SHIFT), q.1)
  }

  /** keyReleased(). */
  function Release(e: Editor): (r: Editor)
    ensures r == e.(keyHeld := false)
  {
    e.(keyHeld := false)
  }

  /** While a key is held every press is ignored; a press holds the key unless it is shift, and a release frees it. */
  lemma {:induction false} PressesAreDebounced(e: Editor, k: int, n: int)
    requires Good(e, n)
    ensures e.keyHeld ==> Press(e, k, n) == (e, NoRequest)
    ensures Press(e, k, n).0.keyHeld <==> e.keyHeld || k != VK_SHIFT
    ensures !Release(e).keyHeld
  {
  }

  /**
   * Outside input mode keys 1 and 2 select sheets 0 and 1 in every mode,
   * on top of what the mode does with them: in type mode they also choose
   * the type.
   */
  lemma {:induction false} DigitKeysPickSheets(e: Editor, k: int, n: int)
    requires Good(e, n) && n >= 2 && !e.keyHeld && !e.inputMode && (k == VK_1 || k == VK_2)
    ensures Press(e, k, n).0.current == Press(e, k, n).0.active == k - VK_1
    ensures e.mode == TYPE_MODE ==> Press(e, k, n).0.selectedType == (if k == VK_1 then 1 else 0)
  {
    var q := ModeKey(e, k, n);
    assert q.0.mode == e.mode;
  }

  /** The console log only ever grows. */
  lemma {:induction false} LogOnlyGrows(e: Editor, k: int, n: int)
    requires Good(e, n)
    ensures var lines := Press(e, k, n).0.console.lines;
      |e.console.lines| <= |lines| && lines[..|e.console.lines|] == e.console.lines
  {
    var old_lines := e.console.lines;
    var q := Act(e, k, n);
    if !e.keyHeld && k != VK_Q && k != VK_SPACE && !e.inputMode {
      var m := ModeKey(e, k, n);
      ModeKeyLogs(e, k, n);
      var lines := m.0.console.lines;
      var after := SheetKey(m.0, k, n).console.lines;
      assert after == lines || after == lines + ["Current Tile Sheet #" + IntToString(SheetKey(m.0, k, n).current)];
      assert after[..|lines|] == lines;
      assert after[..|old_lines|] == lines[..|old_lines|];
    } else if !e.keyHeld && k != VK_Q && k != VK_SPACE {
      assert q.0.console.lines == old_lines || q.0.console.lines == old_lines + ["Input Mode Off"];
    } else if !e.keyHeld && k == VK_SPACE {
      assert q.0.console.lines == old_lines + ["Input Mode On"];
    }
  }

  /** The mode handlers only add lines to the log. */
  lemma {:induction false} ModeKeyLogs(e: Editor, k: int, n: int)
    requires Good(e, n)
    ensures var lines := ModeKey(e, k, n).0.console.lines;
      |e.console.lines| <= |lines| && lines[..|e.console.lines|] == e.console.lines
  {
    var lines := e.console.lines;
    var e1 := WithMode(e, k);
    assert e1.console.lines == lines;
    var after := ModeKey(e, k, n).0.console.lines;
    if e.mode == CONSOLE_MODE && k == VK_I {
      assert after == lines + ["Room info changed to: '" + e1.room.info + "'."];
    } else if e.mode == CONSOLE_MODE && k == VK_R && e.console.input != "" {
      assert after == lines + ["Room name changed to: '" + e.console.input + "'."];
    } else if e.mode == CONSOLE_MODE && k == VK_R {
      assert after == lines + ["Please state a name to change too first.", INPUT_HINT];
    } else if e.mode == FILE_MODE && k == VK_L && e.console.input == "" {
      assert after == lines + ["First enter the room name you want to load.", INPUT_HINT];
    } else if e.mode == FILE_MODE && k == VK_S && e.room.name != "" {
      assert after == lines + ["Room '" + e.room.name + "' saved."];
    } else if e.mode == FILE_MODE && k == VK_S {
      assert after == lines + ["First enter the room name you want to save.", INPUT_HINT];
    }
  }

  // -------------------------------------------------------------------------
  // The mouse

  predicate InRoom(x: int, y: int) {
    0 <= x < COLUMNS && 0 <= y < ROWS
  }

  /** The room cell under a screen position (the division truncates, as Java's does). */
  function MapCellAt(px: int, py: int): (int, int) {
    (IDiv(px - MAP_LEFT, TileSheets.TILE_SIZE), IDiv(py - MAP_TOP, TileSheets.TILE_SIZE))
  }

  /** The sheet cell under a screen position. */
  function SheetCellAt(px: int, py: int): (int, int) {
    (IDiv(px - SHEET_LEFT, TileSheets.TILE_SIZE), IDiv(py - SHEET_TOP, TileSheets.TILE_SIZE))
  }

  /** updateCoords(x, y): the cursor cell is always stored; the console shows it only inside the room and the sheet. */
  function WithCoords(e: Editor, px: int, py: int): (r: Editor)
    ensures r.mapCoords == MapCellAt(px, py) && r.room == e.room && r.selectedTile == e.selectedTile
  {
    var m := MapCellAt(px, py);
    var t := SheetCellAt(px, py);
    var c1 := if InRoom(m.0, m.1) then e.console.(mapX := m.0, mapY := m.1) else e.console;
    var c2 := if 0 <= t.0 < SHEET_SIDE && 0 <= t.1 < SHEET_SIDE then c1.(tileX := t.0, tileY := t.1) else c1;
    e.(mapCoords := m, console := c2)
  }

  predicate OnSheet(px: int, py: int) {
    SHEET_LEFT <= px < SHEET_LEFT + SHEET_SIDE * TileSheets.TILE_SIZE &&
    SHEET_TOP <= py < SHEET_TOP + SHEET_SIDE * TileSheets.TILE_SIZE
  }

  predicate OnRoom(px: int, py: int) {
    MAP_LEFT <= px < MAP_LEFT + COLUMNS * TileSheets.TILE_SIZE &&
    MAP_TOP <= py < MAP_TOP + ROWS * TileSheets.TILE_SIZE
  }

  /** selectOnTileSheet(button, x, y): a left click on the sheet selects the tile row * 32 + column. */
  function SelectOnSheet(e: Editor, button: int, px: int, py: int): (r: Editor)
    requires 0 <= e.selectedTile < SHEET_TILES
    ensures 0 <= r.selectedTile < SHEET_TILES
    ensures button == 1 && OnSheet(px, py) ==>
      r.selectedTile == SheetCellAt(px, py).1 * SHEET_SIDE + SheetCellAt(px, py).0 &&
      0 <= SheetCellAt(px, py).0 < SHEET_SIDE && 0 <= SheetCellAt(px, py).1 < SHEET_SIDE
    ensures !(button == 1 && OnSheet(px, py)) ==> r == e
  {
    if button == 1 && OnSheet(px, py) then
      var xt := IDiv(px - SHEET_LEFT, TileSheets.TILE_SIZE);
      var yt := IDiv(py - SHEET_TOP, TileSheets.TILE_SIZE);
      e.(selectedTile := yt * SHEET_SIDE + xt)
    else e
  }

  /** setTile() / clearTile(): setImageId, then setSet with the active sheet, on the cursor cell when it lies in the room. */
  function PaintTile(e: Editor, id: int): (r: Editor)
    requires Fits(e.room)
    ensures Fits(r.room)
    ensures r == e.(room := r.room) && r.room.name == e.room.name && r.room.info == e.room.info
    ensures !InRoom(e.mapCoords.0, e.mapCoords.1) ==> r == e
    ensures InRoom(e.mapCoords.0, e.mapCoords.1) ==>
      var (x, y) := e.mapCoords;
      r.room.grid == Update(e.room.grid, x, y, e.room.grid.cells[x][y].(imageId := id, tileSet := e.active))
  {
    var (x, y) := e.mapCoords;
    if InRoom(x, y) then
      var g := e.room.grid;
      var c := g.cells[x][y];
      var g1 := WithImageId(g, x, y, id).value;
      GridExt(g1, Update(g, x, y, c.(imageId := id)));
      IoManagers.UpdateTwice(g, x, y, c.(imageId := id), c.(imageId := id, tileSet := e.active));
      var g2 := WithSet(g1, x, y, e.active).value;
      e.(room := e.room.(grid := g2))
    else e
  }

  /** setType() / clearType(): setType on the cursor cell when it lies in the room. */
  function PaintType(e: Editor, t: int): (r: Editor)
    requires Fits(e.room)
    ensures Fits(r.room)
    ensures r == e.(room := r.room) && r.room.name == e.room.name && r.room.info == e.room.info
    ensures !InRoom(e.mapCoords.0, e.mapCoords.1) ==> r == e
    ensures InRoom(e.mapCoords.0, e.mapCoords.1) ==>
      var (x, y) := e.mapCoords;
      r.room.grid == Update(e.room.grid, x, y, e.room.grid.cells[x][y].(tileType := t))
  {
    var (x, y) := e.mapCoords;
    if InRoom(x, y) then
      var g := e.room.grid;
      var g1 := WithType(g, x, y, t).value;
      GridExt(g1, Update(g, x, y, g.cells[x][y].(tileType := t)));
      e.(room := e.room.(grid := g1))
    else e
  }

  /** mousePressedEditMode: in editor mode a left click paints the selected tile, a right click clears it. */
  function EditClick(e: Editor, button: int, px: int, py: int): (r: Editor)
    requires Fits(e.room)
    ensures Fits(r.room) && r == e.(room := r.room)
  {
    if e.mode == EDIT_MODE && button == 1 && OnRoom(px, py) then PaintTile(e, e.selectedTile)
    else if e.mode == EDIT_MODE && button == 3 && OnRoom(px, py) then PaintTile(e, 0)
    else e
  }

  /** mousePressedTypeMode: in type mode a left click paints the selected type, a right click type 0. */
  function TypeClick(e: Editor, button: int, px: int, py: int): (r: Editor)
    requires Fits(e.room)
    ensures Fits(r.room) && r == e.(room := r.room)
  {
    if e.mode == TYPE_MODE && button == 1 && OnRoom(px, py) then PaintType(e, e.selectedType)
    else if e.mode == TYPE_MODE && button == 3 && OnRoom(px, py) then PaintType(e, 0)
    else e
  }

  /** mousePressed(button, x, y). */
  function Click(e: Editor, button: int, px: int, py: int): (r: Editor)
    requires Fits(e.room) && 0 <= e.selectedTile < SHEET_TILES
    ensures Fits(r.room) && 0 <= r.selectedTile < SHEET_TILES
    ensures r == e.(room := r.room, selectedTile := r.selectedTile, mapCoords := r.mapCoords, console := r.console)
  {
    var e1 := WithCoords(e, px, py);
    var e2 := SelectOnSheet(e1, button, px, py);
    TypeClick(EditClick(e2, button, px, py), button, px, py)
  }

  /** A position in the room area lies over a room cell. */
  lemma {:induction false} RoomAreaIsRoom(px: int, py: int)
    requires OnRoom(px, py)
    ensures InRoom(MapCellAt(px, py).0, MapCellAt(px, py).1)
  {
  }

  /**
   * In editor mode a left click on the room area gives the cell under the
   * mouse the selected image and the active sheet, keeping its type, and
   * every other cell keeps its contents.
   */
  lemma {:induction false} LeftClickPaints(e: Editor, px: int, py: int, n: int)
    requires Good(e, n) && e.mode == EDIT_MODE && OnRoom(px, py)
    ensures var m := MapCellAt(px, py);
      var g := Click(e, 1, px, py).room.grid;
      InRoom(m.0, m.1) &&
      g == Update(e.room.grid, m.0, m.1, e.room.grid.cells[m.0][m.1].(imageId := SelectOnSheet(e, 1, px, py).selectedTile, tileSet := e.active))
  {
    var m := MapCellAt(px, py);
    RoomAreaIsRoom(px, py);
    var e1 := WithCoords(e, px, py);
    var e2 := SelectOnSheet(e1, 1, px, py);
    assert !OnSheet(px, py);
    assert e2 == e1;
    var g := e.room.grid;
    var c := g.cells[m.0][m.1];
    var g1 := Update(g, m.0, m.1, c.(imageId := e.selectedTile));
    assert WithImageId(g, m.0, m.1, e.selectedTile) == Ok(g1);
    IoManagers.UpdateTwice(g, m.0, m.1, c.(imageId := e.selectedTile), c.(imageId := e.selectedTile, tileSet := e.active));
  }

  /**
   * In editor mode a right click on the room area clears the cell under the
   * mouse to image 0 on the active sheet, keeping its type, and every other
   * cell keeps its contents.
   */
  lemma {:induction false} RightClickClears(e: Editor, px: int, py: int, n: int)
    requires Good(e, n) && e.mode == EDIT_MODE && OnRoom(px, py)
    ensures var m := MapCellAt(px, py);
      var g := Click(e, 3, px, py).room.grid;
      InRoom(m.0, m.1) &&
      g == Update(e.room.grid, m.0, m.1, e.room.grid.cells[m.0][m.1].(imageId := 0, tileSet := e.active))
  {
    RoomAreaIsRoom(px, py);
    var e2 := SelectOnSheet(WithCoords(e, px, py), 3, px, py);
    assert e2 == WithCoords(e, px, py);
    assert EditClick(e2, 3, px, py) == PaintTile(e2, 0);
  }

  /**
   * In type mode a left click on the room area gives the cell under the
   * mouse the selected type, a right click type 0; the cell keeps its image
   * and sheet, and every other cell keeps its contents.
   */
  lemma {:induction false} TypeClickPaints(e: Editor, button: int, px: int, py: int, n: int)
    requires Good(e, n) && e.mode == TYPE_MODE && OnRoom(px, py) && (button == 1 || button == 3)
    ensures var m := MapCellAt(px, py);
      var g := Click(e, button, px, py).room.grid;
      InRoom(m.0, m.1) &&
      g == Update(e.room.grid, m.0, m.1, e.room.grid.cells[m.0][m.1].(tileType := if button == 1 then e.selectedType else 0))
  {
    RoomAreaIsRoom(px, py);
    assert !OnSheet(px, py);
    var e2 := SelectOnSheet(WithCoords(e, px, py), button, px, py);
    assert e2 == WithCoords(e, px, py);
    assert EditClick(e2, button, px, py) == e2;
  }

  /** Only the editor and type modes paint, and only with the left or right button. */
  lemma {:induction false} OtherClicksKeepRoom(e: Editor, button: int, px: int, py: int, n: int)
    requires Good(e, n)
    requires !(e.mode == EDIT_MODE || e.mode == TYPE_MODE) || !(button == 1 || button == 3)
    ensures Click(e, button, px, py).room == e.room
  {
    var e2 := SelectOnSheet(WithCoords(e, px, py), button, px, py);
    assert EditClick(e2, button, px, py) == e2;
  }

  /** A click outside the room area leaves the room as it was. */
  lemma {:induction false} ClickOutsideKeepsRoom(e: Editor, button: int, px: int, py: int, n: int)
    requires Good(e, n) && !OnRoom(px, py)
    ensures Click(e, button, px, py).room == e.room
  {
  }

  // -------------------------------------------------------------------------
  // The editor as an object

  /** The placeholder the constructor fills before newRoom runs, where the source has null. */
  const NO_ROOM: Room := Room("", "", EmptyGrid(0, 0))

  /** The editor as initialize() finds it before newRoom: every number 0, every flag off, a fresh console. */
  function Started(current: int): (e: Editor)
    ensures e.console == NEW_CONSOLE && !e.keyHeld && !e.inputMode && e.current == current
  {
    Editor(0, 0, 0, current, CONSOLE_MODE, false, false, (0, 0), NEW_CONSOLE, NO_ROOM)
  }

  /**
   * MapEditor: the state its key and mouse handlers change.  The tile
   * manager, which the source reaches through static methods, is a field
   * the editor is built with.
   */
  class MapEditor {
    var room: RoomMap
    /** Set by newRoom and never read. */
    var roomIsLoaded: bool
    var keyHasBeenPressed: bool
    var inputMode: bool
    var mapCoords: (int, int)
    var selectedTile: int
    var selectedType: int
    var activeTileSheet: int
    var mode: int
    var mc: MapConsole
    const tm: TileSheets.TileManager

    function Abs(): Editor
      reads this, room, room.room, mc, tm
      requires room.Valid()
    {
      Editor(selectedTile, selectedType, activeTileSheet, tm.current, mode,
             keyHasBeenPressed, inputMode, mapCoords, mc.Abs(), room.Value())
    }

    ghost predicate Valid()
      reads this, room, room.room, mc, tm
    {
      room.Valid() && Good(Abs(), |tm.sets|)
    }

    /** initialize(): a new console, then newRoom(); the tile manager is already loaded. */
    constructor (tm: TileSheets.TileManager)
      requires |tm.sets| > 0 && 0 <= tm.current < |tm.sets|
      ensures Valid() && this.tm == tm
      ensures Abs() == WithNewRoom(Started(tm.current))
    {
      this.tm := tm;
      room := new RoomMap("", 0, 0, "");
      roomIsLoaded := false;
      keyHasBeenPressed, inputMode := false, false;
      mapCoords := (0, 0);
      selectedTile, selectedType, activeTileSheet, mode := 0, 0, 0, CONSOLE_MODE;
      mc := new MapConsole();
      new;
      assert room.Value() == NO_ROOM;
      NewRoom();
    }

    method SetInputMode(on: bool)
      requires Valid()
      modifies this`inputMode, mc
      ensures Valid() && Abs() == WithInputMode(old(Abs()), on)
    {
      inputMode := on;
      mc.AddToConsole(if on then "Input Mode On" else "Input Mode Off");
    }

    /** load(): the file itself is read by the program around the editor. */
    method Load() returns (r: Request)
      requires Valid()
      modifies mc
      ensures Valid() && (Abs(), r) == LoadKey(old(Abs()))
    {
      var input := mc.GetInput();
      if input != "" {
        r := LoadRoom("/assets/mapedit/" + input + ".xml");
      } else {
        mc.AddToConsole("First enter the room name you want to load.");
        mc.AddToConsole(INPUT_HINT);
        r := NoRequest;
      }
    }

    /** save(): the document the room's IoManager writes, with the file name it writes it to. */
    method Save() returns (r: Request)
      requires Valid()
      modifies mc
      ensures Valid() && (Abs(), r) == SaveKey(old(Abs()))
    {
      if room.name != "" {
        var io := new IoManagers.IoManager.WithRoom(Some(room.Value()), Some(room.name + ".xml"));
        var ok, written := io.Save();
        // the IoManager was given a file name, so save() reports success
        assert ok;
        mc.AddToConsole("Room '" + room.name + "' saved.");
        r := SaveRoom(room.name + ".xml", written);
      } else {
        mc.AddToConsole("First enter the room name you want to save.");
        mc.AddToConsole(INPUT_HINT);
        r := NoRequest;
      }
    }

    method NewRoom()
      requires room.Valid() && Bounded(Abs(), |tm.sets|)
      modifies this`room, this`roomIsLoaded, mc
      ensures Valid() && fresh(room) && roomIsLoaded
      ensures Abs() == WithNewRoom(old(Abs()))
    {
      var t := "";
      var input := mc.GetInput();
      if input == "" {
        t := NEW_ROOM_NAME;
      } else {
        t := input;
      }
      room := new RoomMap(t, COLUMNS, ROWS, NEW_ROOM_INFO);
      roomIsLoaded := true;
      mc.SetName(room.name);
      mc.SetInfo(room.info);
      mc.AddToConsole("New room created: '" + room.name + "', '" + room.info + "' [" +
        IntToString(room.columns) + ":" + IntToString(room.rows) + "]");
    }

    method SetRoomInfo(info: string)
      requires Valid()
      modifies room`info, mc
      ensures Valid() && Abs() == WithInfo(old(Abs()), info)
    {
      room.SetInfo(info);
      mc.SetInfo(room.info);
      mc.AddToConsole("Room info changed to: '" + room.info + "'.");
    }

    /** setRoomName(). */
    method RenameFromInput()
      requires Valid()
      modifies room`name, mc
      ensures Valid() && Abs() == RenameRoom(old(Abs()))
    {
      var input := mc.GetInput();
      if input != "" {
        SetRoomName(input);
      } else {
        mc.AddToConsole("Please state a name to change too first.");
        mc.AddToConsole(INPUT_HINT);
      }
    }

    /** setRoomName(name). */
    method SetRoomName(name: string)
      requires Valid()
      modifies room`name, mc
      ensures Valid() && Abs() == WithName(old(Abs()), name)
    {
      room.SetName(name);
      mc.SetName(room.name);
      mc.AddToConsole("Room name changed to: '" + room.name + "'.");
    }

    method NextTileSheet()
      requires Valid()
      modifies this`activeTileSheet, tm`current, mc
      ensures Valid() && Abs() == WithSheet(old(Abs()), NextSheet(old(activeTileSheet), |tm.sets|), |tm.sets|)
    {
      var activeSheet := IRem(activeTileSheet + 1, tm.GetNumSheets());
      SetTileSheet(activeSheet);
    }

    /** prevTileSheet(): the increment of activeTileSheet it performs is overwritten by setTileSheet. */
    method PrevTileSheet()
      requires Valid()
      modifies this`activeTileSheet, tm`current, mc
      ensures Valid() && Abs() == WithSheet(old(Abs()), PrevSheet(old(activeTileSheet), |tm.sets|), |tm.sets|)
    {
      var activeSheet := 0;
      if activeTileSheet > 0 {
        activeSheet := IRem(activeTileSheet + 1, tm.GetNumSheets());
      } else {
        activeSheet := activeSheet + tm.GetNumSheets();
        activeSheet := IRem(activeSheet - 1, tm.GetNumSheets());
      }
      SetTileSheet(activeSheet);
    }

    method SetTileSheet(activeSheet: int)
      requires Valid()
      modifies this`activeTileSheet, tm`current, mc
      ensures Valid() && Abs() == WithSheet(old(Abs()), activeSheet, |tm.sets|)
    {
      tm.SetTileSet(activeSheet);
      activeTileSheet := tm.GetTileSet();
      mc.UpdateCurrentTileSheet(activeTileSheet);
    }

    method SetTile()
      requires Valid()
      modifies room.room
      ensures Valid() && Abs() == PaintTile(old(Abs()), old(selectedTile))
    {
      var x, y := mapCoords.0, mapCoords.1;
      if 0 <= x < COLUMNS && 0 <= y < ROWS {
        var s1 := room.SetImageId(x, y, selectedTile);
        var s2 := room.SetSet(x, y, activeTileSheet);
      }
    }

    method ClearTile()
      requires Valid()
      modifies room.room
      ensures Valid() && Abs() == PaintTile(old(Abs()), 0)
    {
      var x, y := mapCoords.0, mapCoords.1;
      if 0 <= x < COLUMNS && 0 <= y < ROWS {
        var s1 := room.SetImageId(x, y, 0);
        var s2 := room.SetSet(x, y, activeTileSheet);
      }
    }

    /** setType(). */
    method SetType()
      requires Valid()
      modifies room.room
      ensures Valid() && Abs() == PaintType(old(Abs()), old(selectedType))
    {
      var x, y := mapCoords.0, mapCoords.1;
      if 0 <= x < COLUMNS && 0 <= y < ROWS {
        var s := room.SetType(x, y, selectedType);
      }
    }

    /** setType(type). */
    method ChooseType(t: int)
      requires Valid()
      modifies this`selectedType, mc
      ensures Valid() && Abs() == TypeChosen(old(Abs()), t)
    {
      selectedType := t;
      mc.SetType(t);
    }

    method ClearType()
      requires Valid()
      modifies room.room
      ensures Valid() && Abs() == PaintType(old(Abs()), 0)
    {
      var x, y := mapCoords.0, mapCoords.1;
      if 0 <= x < COLUMNS && 0 <= y < ROWS {
        var s := room.SetType(x, y, 0);
      }
    }

    method KeyPressedInputMode(k: int)
      requires Valid()
      modifies this`inputMode, mc
      ensures Valid() && Abs() == InputKey(old(Abs()), k)
    {
      if (VK_A <= k <= VK_Z) || (VK_0 <= k <= VK_9) || k == VK_BACK_SPACE {
        mc.AddInput(k);
      }
      if k == VK_ESCAPE || k == VK_ENTER {
        SetInputMode(false);
      }
    }

    method KeyPressedConsoleMode(k: int)
      requires Valid()
      modifies this`mode, this`room, this`roomIsLoaded, room`name, room`info, mc
      ensures Valid() && Abs() == ConsoleKey(old(Abs()), k)
    {
      SetMode(k);
      if k == VK_N {
        NewRoom();
      } else if k == VK_I {
        SetRoomInfo(room.info);
      } else if k == VK_R {
        RenameFromInput();
      }
    }

    method KeyPressedEditMode(k: int)
      requires Valid()
      modifies this`mode, this`selectedTile, mc
      ensures Valid() && Abs() == EditKey(old(Abs()), k)
    {
      SetMode(k);
      if k == VK_UP {
        PrevTileLine();
      } else if k == VK_DOWN {
        NextTileLine();
      } else if k == VK_RIGHT {
        NextTile();
      } else if k == VK_LEFT {
        PrevTile();
      }
    }

    method KeyPressedTypeMode(k: int)
      requires Valid()
      modifies this`mode, this`selectedType, mc
      ensures Valid() && Abs() == TypeKey(old(Abs()), k)
    {
      SetMode(k);
      if k == VK_1 {
        ChooseType(1);
      } else if k == VK_2 {
        ChooseType(0);
      }
    }

    method KeyPressedFileMode(k: int) returns (r: Request)
      requires Valid()
      modifies this`mode, mc
      ensures Valid() && (Abs(), r) == FileKey(old(Abs()), k)
    {
      SetMode(k);
      r := NoRequest;
      if k == VK_L {
        r := Load();
      } else if k == VK_S {
        r := Save();
      }
    }

    method KeyPressedChangeTileSheet(k: int)
      requires Valid()
      modifies this`activeTileSheet, tm`current, mc
      ensures Valid() && Abs() == SheetKey(old(Abs()), k, |tm.sets|)
    {
      if k == VK_1 {
        SetTileSheet(0);
      } else if k == VK_2 {
        SetTileSheet(1);
      } else if k == VK_PAGE_DOWN {
        NextTileSheet();
      } else if k == VK_PAGE_UP {
        PrevTileSheet();
      }
    }

    /** The switch on the mode in keyPressed. */
    method KeyPressedMode(k: int) returns (r: Request)
      requires Valid()
      modifies this`mode, this`selectedTile, this`selectedType, this`room, this`roomIsLoaded, room`name, room`info, mc
      ensures Valid() && (Abs(), r) == ModeKey(old(Abs()), k, |tm.sets|)
    {
      r := NoRequest;
      if mode == CONSOLE_MODE {
        KeyPressedConsoleMode(k);
      } else if mode == EDIT_MODE {
        KeyPressedEditMode(k);
      } else if mode == TYPE_MODE {
        KeyPressedTypeMode(k);
      } else {
        r := KeyPressedFileMode(k);
      }
    }

    /** keyPressed(key): instead of ending the program, Q returns the Quit request. */
    method KeyPressed(k: int) returns (r: Request)
      requires Valid()
      modifies this, room`name, room`info, tm`current, mc
      ensures Valid() && (Abs(), r) == Press(old(Abs()), k, |tm.sets|)
    {
      r := NoRequest;
      if !keyHasBeenPressed {
        if k == VK_Q {
          r := Quit;
        } else if k == VK_SPACE {
          SetInputMode(true);
        } else if !inputMode {
          r := KeyPressedMode(k);
          KeyPressedChangeTileSheet(k);
        } else {
          KeyPressedInputMode(k);
        }
      }
      if k != VK_SHIFT {
        keyHasBeenPressed := true;
      }
    }

    method NextTile()
      requires Valid()
      modifies this`selectedTile
      ensures Valid() && Abs() == old(Abs()).(selectedTile := TileAfter(old(selectedTile)))
    {
      selectedTile := IRem(selectedTile + 1, 32 * 32);
    }

    method PrevTile()
      requires Valid()
      modifies this`selectedTile
      ensures Valid() && Abs() == old(Abs()).(selectedTile := TileBefore(old(selectedTile)))
    {
      selectedTile := selectedTile - 1;
      if selectedTile < 0 {
        selectedTile := selectedTile + 32 * 32;
      } else {
        selectedTile := IRem(selectedTile, 32 * 32);
      }
    }

    method NextTileLine()
      requires Valid()
      modifies this`selectedTile
      ensures Valid() && Abs() == old(Abs()).(selectedTile := LineAfter(old(selectedTile)))
    {
      selectedTile := IRem(selectedTile + 32, 32 * 32);
    }

    method PrevTileLine()
      requires Valid()
      modifies this`selectedTile
      ensures Valid() && Abs() == old(Abs()).(selectedTile := LineBefore(old(selectedTile)))
    {
      selectedTile := selectedTile - 32;
      if selectedTile < 0 {
        selectedTile := selectedTile + 32 * 32;
      } else {
        selectedTile := IRem(selectedTile, 32 * 32);
      }
    }

    method SetMode(k: int)
      requires Valid()
      modifies this`mode, mc
      ensures Valid() && Abs() == WithMode(old(Abs()), k)
    {
      if VK_F5 <= k <= VK_F8 {
        mode := k - VK_F5;
      }
      mc.SetMode(mode);
    }

    method KeyReleased()
      requires Valid()
      modifies this`keyHasBeenPressed
      ensures Valid() && Abs() == Release(old(Abs()))
    {
      keyHasBeenPressed := false;
    }

    /** mousePressed(e), with the button and the position of the event. */
    method MousePressed(button: int, x: int, y: int)
      requires Valid()
      modifies this`mapCoords, this`selectedTile, room.room, mc
      ensures Valid() && Abs() == Click(old(Abs()), button, x, y)
    {
      UpdateCoords(x, y);
      SelectOnTileSheet(button, x, y);
      MousePressedEditMode(button, x, y);
      MousePressedTypeMode(button, x, y);
    }

    method UpdateCoords(x: int, y: int)
      requires Valid()
      modifies this`mapCoords, mc
      ensures Valid() && Abs() == WithCoords(old(Abs()), x, y)
    {
      var mapX := IDiv(x - MAP_LEFT, TileSheets.TILE_SIZE);
      var mapY := IDiv(y - MAP_TOP, TileSheets.TILE_SIZE);
      mapCoords := (mapX, mapY);
      if mapX >= 0 && mapX < COLUMNS && mapY >= 0 && mapY < ROWS {
        mc.UpdateMapCoords(mapX, mapY);
      }
      var tileX := IDiv(x - SHEET_LEFT, TileSheets.TILE_SIZE);
      var tileY := IDiv(y - SHEET_TOP, TileSheets.TILE_SIZE);
      if tileX >= 0 && tileX < SHEET_SIDE && tileY >= 0 && tileY < SHEET_SIDE {
        mc.UpdateTileSheetCoords(tileX, tileY);
      }
    }

    method SelectOnTileSheet(button: int, x: int, y: int)
      requires Valid()
      modifies this`selectedTile
      ensures Valid() && Abs() == SelectOnSheet(old(Abs()), button, x, y)
    {
      if button == 1 {
        if x >= SHEET_LEFT && x < SHEET_LEFT + 32 * TileSheets.TILE_SIZE && y >= SHEET_TOP &&
           y < SHEET_TOP + 32 * TileSheets.TILE_SIZE {
          var xt := IDiv(x - SHEET_LEFT, TileSheets.TILE_SIZE);
          var yt := IDiv(y - SHEET_TOP, TileSheets.TILE_SIZE);
          selectedTile := yt * 32 + xt;
        }
      }
    }

    method MousePressedEditMode(button: int, x: int, y: int)
      requires Valid()
      modifies room.room
      ensures Valid() && Abs() == EditClick(old(Abs()), button, x, y)
    {
      if mode == EDIT_MODE {
        if button == 1 {
          if OnRoom(x, y) {
            SetTile();
          }
        } else if button == 3 {
          if OnRoom(x, y) {
            ClearTile();
          }
        }
      }
    }

    method MousePressedTypeMode(button: int, x: int, y: int)
      requires Valid()
      modifies room.room
      ensures Valid() && Abs() == TypeClick(old(Abs()), button, x, y)
    {
      if mode == TYPE_MODE {
        if button == 1 {
          if OnRoom(x, y) {
            SetType();
          }
        } else if button == 3 {
          if OnRoom(x, y) {
            ClearType();
          }
        }
      }
    }
  }
}
