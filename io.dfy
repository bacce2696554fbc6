/**
 * Reading and writing a room as an XML document.  The document is a tree
 * of nodes: text, or elements with a name, attributes, their text content
 * and their children.  A room document is
 *
 *   room ( information ( name width height info ) tiles ( tile ... ) )
 *
 * with one tile element per cell, column by column, each holding x, y,
 * imageid, type and set.  Parsing text into a document and writing the
 * document out are library work outside this model; the loader works on
 * the parsed tree, and the saver returns the tree it would write.
 */
module IoManagers {
  import opened JavaLang
  import opened TileMap

  /** A DOM node; `text` is what getTextContent() gives for the element. */
  datatype Node =
    | Text(content: string)
    | Element(name: string, attributes: seq<(string, string)>, text: string, children: seq<Node>)

  /** An element node with child nodes (getNodeType() == ELEMENT_NODE and hasChildNodes()). */
  predicate Parent(n: Node) {
    n.Element? && |n.children| > 0
  }

  function TextOf(n: Node): string {
    match n
    case Text(c) => c
    case Element(_, _, t, _) => t
  }

  /** The text content of a list of nodes, in order. */
  function Joined(kids: seq<Node>): string
    decreases |kids|
  {
    if kids == [] then "" else Joined(kids[..|kids| - 1]) + TextOf(kids[|kids| - 1])
  }

  /** An element holding a single text node. */
  function Leaf(tag: string, s: string): Node {
    Element(tag, [], s, [Text(s)])
  }

  function Branch(tag: string, attributes: seq<(string, string)>, kids: seq<Node>): Node {
    Element(tag, attributes, Joined(kids), kids)
  }

  /** What the parser made of the file: no file at all, text that is not XML, or the document's top-level nodes. */
  datatype Input = Missing | Malformed | Parsed(nodes: seq<Node>)

  /** getDocumentElement().getNodeName(): the first top-level element. */
  function RootName(nodes: seq<Node>): Option<string>
    decreases |nodes|
  {
    if nodes == [] then None
    else if nodes[0].Element? then Some(nodes[0].name)
    else RootName(nodes[1..])
  }

  // -------------------------------------------------------------------------
  // loadRoomInfo and loadToTile: the fields of one element

  /** The locals of loadRoomInfo: the four fields and the count of recognised ones. */
  datatype InfoFields = InfoFields(rows: int, columns: int, name: string, info: string, count: int)

  const NO_INFO: InfoFields := InfoFields(0, 0, "", "", 0)

  /** One child of an information element. */
  function InfoStep(f: InfoFields, n: Node): (r: Result<InfoFields>)
    ensures r.Throw? ==> r.ex == NumberFormat && n.Element? && (n.name == "width" || n.name == "height")
    ensures r.Ok? && n.Element? && (n.name == "name" || n.name == "width" || n.name == "height" || n.name == "info") ==>
      r.value.count == f.count + 1
    ensures r.Ok? && !(n.Element? && (n.name == "name" || n.name == "width" || n.name == "height" || n.name == "info")) ==>
      r.value == f
  {
    if !n.Element? then Ok(f)
    else if n.name == "name" then Ok(f.(name := n.text, count := f.count + 1))
    else if n.name == "width" then
      match ParseInt(n.text)
      case None => Throw(NumberFormat)
      case Some(v) => Ok(f.(columns := v, count := f.count + 1))
    else if n.name == "height" then
      match ParseInt(n.text)
      case None => Throw(NumberFormat)
      case Some(v) => Ok(f.(rows := v, count := f.count + 1))
    else if n.name == "info" then Ok(f.(info := n.text, count := f.count + 1))
    else Ok(f)
  }

  /** The rest of loadRoomInfo's loop, from the fields gathered so far. */
  function ScanInfo(f: InfoFields, nl: seq<Node>): Result<InfoFields>
    decreases |nl|
  {
    if nl == [] then Ok(f)
    else
      match InfoStep(f, nl[0])
      case Throw(e) => Throw(e)
      case Ok(f1) => ScanInfo(f1, nl[1..])
  }

  /** The room loadRoomInfo falls back on. */
  function DefaultRoom(): Room {
    Room("newroom", "A New Room", EmptyGrid(20, 16))
  }

  /** The room loadRoomInfo builds: from the fields when more than three were counted, the default room otherwise. */
  function RoomFromInfo(f: InfoFields): (r: Result<Room>)
    ensures r.Ok? ==> WellFormed(r.value.grid)
    ensures r.Throw? <==> f.count > 3 && (f.columns < 0 || f.rows < 0)
    ensures r.Throw? ==> r.ex == NegativeArraySize
  {
    if f.count > 3 then
      if f.columns < 0 || f.rows < 0 then Throw(NegativeArraySize)
      else Ok(Room(f.name, f.info, EmptyGrid(f.columns, f.rows)))
    else Ok(DefaultRoom())
  }

  /** The locals of loadToTile, each 0 until its field is seen. */
  datatype TileFields = TileFields(x: int, y: int, imageId: int, tileType: int, tileSet: int)

  const NO_TILE: TileFields := TileFields(0, 0, 0, 0, 0)

  /** One child of a tile element. */
  function TileStep(f: TileFields, n: Node): (r: Result<TileFields>)
    ensures r.Throw? ==> r.ex == NumberFormat
    ensures !n.Element? ==> r == Ok(f)
  {
    if !n.Element? then Ok(f)
    else
      var known := n.name == "x" || n.name == "y" || n.name == "imageid" || n.name == "type" || n.name == "set";
      if !known then Ok(f)
      else
        match ParseInt(n.text)
        case None => Throw(NumberFormat)
        case Some(v) =>
          if n.name == "x" then Ok(f.(x := v))
          else if n.name == "y" then Ok(f.(y := v))
          else if n.name == "imageid" then Ok(f.(imageId := v))
          else if n.name == "type" then Ok(f.(tileType := v))
          else Ok(f.(tileSet := v))
  }

  /** The rest of loadToTile's loop. */
  function ScanTile(f: TileFields, nl: seq<Node>): Result<TileFields>
    decreases |nl|
  {
    if nl == [] then Ok(f)
    else
      match TileStep(f, nl[0])
      case Throw(e) => Throw(e)
      case Ok(f1) => ScanTile(f1, nl[1..])
  }

  /**
   * The three writes loadToTile ends with: setImageId, setType, then setSet,
   * an exception stopping the rest.  No write lands before an exception, and
   * inside the room (below the column count, as the write guard has it) the
   * cell becomes exactly the three fields.
   */
  function WriteTile(g: Grid, f: TileFields): (r: (Grid, Status))
    requires WellFormed(g)
    ensures WellFormed(r.0) && r.0.columns == g.columns && r.0.rows == g.rows
    ensures r.1.Raised? ==> r.1.ex == IndexOutOfBounds
    ensures r.1.Raised? <==> !InArray(g, f.x, f.y)
  {
    match WithImageId(g, f.x, f.y, f.imageId)
    case Throw(e) => (g, Raised(e))
    case Ok(g1) =>
      match WithType(g1, f.x, f.y, f.tileType)
      case Throw(e) => (g1, Raised(e))
      case Ok(g2) =>
        match WithSet(g2, f.x, f.y, f.tileSet)
        case Throw(e) => (g2, Raised(e))
        case Ok(g3) => (g3, Done)
  }

  /** A second write to a cell replaces the first. */
  lemma {:induction false} UpdateTwice(g: Grid, x: int, y: int, c: TileInfo, d: TileInfo)
    requires WellFormed(g) && InArray(g, x, y)
    ensures Update(Update(g, x, y, c), x, y, d) == Update(g, x, y, d)
  {
    GridExt(Update(Update(g, x, y, c), x, y, d), Update(g, x, y, d));
  }

  /**
   * No write of loadToTile lands when it raises; inside the room and below
   * the column count the cell becomes the three fields; in a row at or past
   * the column count only the sheet is written.
   */
  lemma {:induction false} WriteTileEffect(g: Grid, f: TileFields)
    requires WellFormed(g)
    ensures WriteTile(g, f).1.Raised? ==> WriteTile(g, f).0 == g
    ensures InArray(g, f.x, f.y) && f.y < g.columns ==>
      WriteTile(g, f) == (Update(g, f.x, f.y, TileInfo(f.imageId, f.tileType, f.tileSet)), Done)
    ensures InArray(g, f.x, f.y) && f.y >= g.columns ==>
      WriteTile(g, f) == (Update(g, f.x, f.y, g.cells[f.x][f.y].(tileSet := f.tileSet)), Done)
  {
    var x, y := f.x, f.y;
    if InArray(g, x, y) && y < g.columns {
      var c := g.cells[x][y];
      var g1 := Update(g, x, y, c.(imageId := f.imageId));
      var g2 := Update(g1, x, y, c.(imageId := f.imageId, tileType := f.tileType));
      UpdateTwice(g, x, y, c.(imageId := f.imageId), c.(imageId := f.imageId, tileType := f.tileType));
      UpdateTwice(g, x, y, c.(imageId := f.imageId, tileType := f.tileType), TileInfo(f.imageId, f.tileType, f.tileSet));
      assert WithImageId(g, x, y, f.imageId) == Ok(g1);
      assert WithType(g1, x, y, f.tileType) == Ok(g2);
    }
  }

  // -------------------------------------------------------------------------
  // processNode: the passes over the document

  /** The room the manager holds, and whether the pass so far raised. */
  datatype Run = Run(room: Option<Room>, status: Status)

  predicate Sound(r: Option<Room>) {
    r.Some? ==> WellFormed(r.value.grid)
  }

  /** loadRoomInfo(nl): the room is replaced unless a field raised. */
  function InfoRun(r: Option<Room>, nl: seq<Node>): (p: Run)
    requires Sound(r)
    ensures Sound(p.room)
    ensures p.status.Done? ==> p.room.Some?
    ensures p.status.Raised? ==> p.room == r
  {
    match ScanInfo(NO_INFO, nl)
    case Throw(e) => Run(r, Raised(e))
    case Ok(f) =>
      match RoomFromInfo(f)
      case Throw(e) => Run(r, Raised(e))
      case Ok(room) => Run(Some(room), Done)
  }

  /** loadToTile(nl): with no room yet, a NullPointerException once the fields are read. */
  function TileRun(r: Option<Room>, nl: seq<Node>): (p: Run)
    requires Sound(r)
    ensures Sound(p.room)
    ensures r.None? ==> p.room == None && p.status.Raised?
    ensures r.None? && ScanTile(NO_TILE, nl).Ok? ==> p.status == Raised(NullPointer)
  {
    match ScanTile(NO_TILE, nl)
    case Throw(e) => Run(r, Raised(e))
    case Ok(f) =>
      if r.None? then Run(r, Raised(NullPointer))
      else
        var wrote := WriteTile(r.value.grid, f);
        Run(Some(r.value.(grid := wrote.0)), wrote.1)
  }

  /** The rest of the loop over the children of a tiles element: every element with children is a tile. */
  function TilesRun(r: Option<Room>, nodes: seq<Node>): (p: Run)
    requires Sound(r)
    ensures Sound(p.room)
    decreases |nodes|
  {
    if nodes == [] then Run(r, Done)
    else
      var p1 := if Parent(nodes[0]) then TileRun(r, nodes[0].children) else Run(r, Done);
      if p1.status.Raised? then p1 else TilesRun(p1.room, nodes[1..])
  }

  /** The rest of the loop over the root's children: only information and tiles elements are read. */
  function RootRun(r: Option<Room>, nodes: seq<Node>): (p: Run)
    requires Sound(r)
    ensures Sound(p.room)
    decreases |nodes|
  {
    if nodes == [] then Run(r, Done)
    else
      var n := nodes[0];
      var p1 :=
        if !Parent(n) then Run(r, Done)
        else if n.name == "information" then InfoRun(r, n.children)
        else if n.name == "tiles" then TilesRun(r, n.children)
        else Run(r, Done);
      if p1.status.Raised? then p1 else RootRun(p1.room, nodes[1..])
  }

  /** processNode(nodes): the rest of the loop over the document's top-level nodes. */
  function DocRun(r: Option<Room>, nodes: seq<Node>): (p: Run)
    requires Sound(r)
    ensures Sound(p.room)
    decreases |nodes|
  {
    if nodes == [] then Run(r, Done)
    else
      var p1 := if Parent(nodes[0]) then RootRun(r, nodes[0].children) else Run(r, Done);
      if p1.status.Raised? then p1 else DocRun(p1.room, nodes[1..])
  }

  /**
   * load(): false without a file name.  A missing file makes the parser
   * raise; text the parser rejects is reported and ignored; a document
   * whose root is a room is processed, and an exception from processing
   * escapes.  The room as processing left it is kept either way.
   */
  function Loaded(fileName: Option<string>, r: Option<Room>, input: Input): (q: (Result<bool>, Option<Room>))
    requires Sound(r)
    ensures Sound(q.1)
    ensures fileName.None? ==> q == (Ok(false), r)
    ensures fileName.Some? && q.0.Ok? ==> q.0.value
    ensures input.Malformed? || (input.Parsed? && RootName(input.nodes) != Some("room")) ==>
      q == (if fileName.None? then Ok(false) else Ok(true), r)
  {
    if fileName.None? then (Ok(false), r)
    else
      match input
      case Missing => (Throw(IllegalArgument), r)
      case Malformed => (Ok(true), r)
      case Parsed(nodes) =>
        if RootName(nodes) == Some("room") && |nodes| > 0 then
          var p := DocRun(r, nodes);
          (if p.status.Raised? then Throw(p.status.ex) else Ok(true), p.room)
        // A parsed document always has a root element, so the case of no root, where
        // getDocumentElement() would be null, does not arise from the parser.
        else (Ok(true), r)
  }

  // -------------------------------------------------------------------------
  // saveRoom: the document written

  /** Column-major numbering: number k of a columns x rows room is the cell (k / rows, k % rows). */
  lemma {:induction false} IndexCell(k: int, columns: int, rows: int)
    requires columns >= 0 && rows >= 0 && 0 <= k < columns * rows
    ensures rows > 0 && 0 <= k / rows < columns && 0 <= k % rows < rows
    ensures (k / rows) * rows + k % rows == k
  {
    assert rows != 0;
    var q := k / rows;
    assert q * rows <= k;
    assert (columns - q) * rows > 0;
  }

  /** The number of a cell is below the number of cells. */
  lemma {:induction false} CellIndexBelow(x: int, y: int, columns: int, rows: int)
    requires 0 <= x < columns && 0 <= y < rows
    ensures 0 <= x * rows + y < columns * rows
  {
    assert (columns - 1 - x) * rows >= 0;
  }

  function CellOfIndex(k: int, columns: int, rows: int): (p: (int, int))
    requires columns >= 0 && rows >= 0 && 0 <= k < columns * rows
    ensures 0 <= p.0 < columns && 0 <= p.1 < rows && p.0 * rows + p.1 == k
  {
    IndexCell(k, columns, rows);
    (k / rows, k % rows)
  }

  /** The tile element saveRoom writes for the cell (x, y), numbered n. */
  function TileNode(g: Grid, x: int, y: int, n: int): Node
    requires WellFormed(g) && InArray(g, x, y)
  {
    Branch("tile", [("id", IntToString(n)), ("x", IntToString(x)), ("y", IntToString(y))],
      TileLeaves(x, y, ImageIdAt(g, x, y).value, TypeAt(g, x, y), SheetAt(g, x, y).value))
  }

  /** The five children of a tile element. */
  function TileLeaves(x: int, y: int, imageId: int, tileType: int, tileSet: int): seq<Node> {
    [Leaf("x", IntToString(x)),
     Leaf("y", IntToString(y)),
     Leaf("imageid", IntToString(imageId)),
     Leaf("type", IntToString(tileType)),
     Leaf("set", IntToString(tileSet))]
  }

  /** One leaf holding an int, read by loadToTile. */
  lemma {:induction false} TileLeafReads(f: TileFields, tag: string, v: int)
    requires IsInt32(v) && (tag == "x" || tag == "y" || tag == "imageid" || tag == "type" || tag == "set")
    ensures TileStep(f, Leaf(tag, IntToString(v))) ==
      Ok(if tag == "x" then f.(x := v) else if tag == "y" then f.(y := v)
         else if tag == "imageid" then f.(imageId := v) else if tag == "type" then f.(tileType := v)
         else f.(tileSet := v))
  {
    ParseIntToString(v);
  }

  /** The tiles element's children, one per cell, the k-th for the cell numbered k. */
  function TileNodes(g: Grid): (r: seq<Node>)
    requires WellFormed(g)
    ensures |r| == g.columns * g.rows
  {
    seq(g.columns * g.rows, k requires 0 <= k < g.columns * g.rows =>
      var p := CellOfIndex(k, g.columns, g.rows);
      TileNode(g, p.0, p.1, k))
  }

  /** saveRoom numbers the cells column by column: the cell (x, y) is tile x * rows + y. */
  lemma {:induction false} TileOrder(g: Grid, x: int, y: int)
    requires WellFormed(g) && InArray(g, x, y)
    ensures 0 <= x * g.rows + y < |TileNodes(g)|
    ensures TileNodes(g)[x * g.rows + y] == TileNode(g, x, y, x * g.rows + y)
  {
    CellIndexBelow(x, y, g.columns, g.rows);
    DivModUnique(x * g.rows + y, g.rows, x, y);
  }

  function InfoNode(room: Room): Node {
    Branch("information", [],
      [Leaf("name", room.name),
       Leaf("width", IntToString(room.grid.columns)),
       Leaf("height", IntToString(room.grid.rows)),
       Leaf("info", room.info)])
  }

  /** saveRoom(): an empty document without a room. */
  function RoomDocument(r: Option<Room>): seq<Node>
    requires Sound(r)
  {
    if r.None? then []
    else [Branch("room", [], [InfoNode(r.value), Branch("tiles", [], TileNodes(r.value.grid))])]
  }

  // -------------------------------------------------------------------------
  // The round trip

  /** A room whose numbers are all ints, not taller than it is wide. */
  ghost predicate Storable(room: Room) {
    var g := room.grid;
    WellFormed(g) && IsInt32(g.columns) && IsInt32(g.rows) && g.rows <= g.columns &&
    forall x, y :: InArray(g, x, y) ==>
      IsInt32(g.cells[x][y].imageId) && IsInt32(g.cells[x][y].tileType) && IsInt32(g.cells[x][y].tileSet)
  }

  /** The cells numbered below k as in g, the others blank. */
  function Overlay(g: Grid, k: int): (r: Grid)
    requires WellFormed(g)
    ensures WellFormed(r) && r.columns == g.columns && r.rows == g.rows
    ensures forall x, y :: InArray(g, x, y) ==> r.cells[x][y] == if x * g.rows + y < k then g.cells[x][y] else BLANK
  {
    Grid(g.columns, g.rows, seq(g.columns, x requires 0 <= x < g.columns =>
      seq(g.rows, y requires 0 <= y < g.rows => if x * g.rows + y < k then g.cells[x][y] else BLANK)))
  }

  lemma {:induction false} OverlayStep(g: Grid, k: int)
    requires WellFormed(g) && 0 <= k < g.columns * g.rows
    ensures var p := CellOfIndex(k, g.columns, g.rows);
      Overlay(g, k + 1) == Update(Overlay(g, k), p.0, p.1, g.cells[p.0][p.1])
  {
    var p := CellOfIndex(k, g.columns, g.rows);
    var a := Overlay(g, k + 1);
    var b := Update(Overlay(g, k), p.0, p.1, g.cells[p.0][p.1]);
    forall i, j | InArray(a, i, j)
      ensures a.cells[i][j] == b.cells[i][j]
    {
      if i * g.rows + j == k {
        DivModUnique(k, g.rows, i, j);
        DivModUnique(k, g.rows, p.0, p.1);
      }
    }
    GridExt(a, b);
  }

  lemma {:induction false} OverlayEmpty(g: Grid)
    requires WellFormed(g)
    ensures Overlay(g, 0) == EmptyGrid(g.columns, g.rows)
  {
    var a := Overlay(g, 0);
    var b := EmptyGrid(g.columns, g.rows);
    forall x, y | InArray(a, x, y)
      ensures a.cells[x][y] == b.cells[x][y]
    {
      assert x * g.rows >= 0;
    }
    GridExt(a, b);
  }

  lemma {:induction false} OverlayFull(g: Grid)
    requires WellFormed(g)
    ensures Overlay(g, g.columns * g.rows) == g
  {
    var a := Overlay(g, g.columns * g.rows);
    forall x, y | InArray(a, x, y)
      ensures a.cells[x][y] == g.cells[x][y]
    {
      CellIndexBelow(x, y, g.columns, g.rows);
    }
    GridExt(a, g);
  }

  /** The information element reads back as the four fields, all four counted. */
  lemma {:induction false} InfoReadsBack(room: Room)
    requires IsInt32(room.grid.columns) && IsInt32(room.grid.rows)
    ensures ScanInfo(NO_INFO, InfoNode(room).children) ==
      Ok(InfoFields(room.grid.rows, room.grid.columns, room.name, room.info, 4))
  {
    var kids := InfoNode(room).children;
    ParseIntToString(room.grid.columns);
    ParseIntToString(room.grid.rows);
    var f1 := InfoFields(0, 0, room.name, "", 1);
    var f2 := f1.(columns := room.grid.columns, count := 2);
    var f3 := f2.(rows := room.grid.rows, count := 3);
    var f4 := f3.(info := room.info, count := 4);
    assert kids[1..][1..][1..][1..] == [];
    assert ScanInfo(f4, kids[1..][1..][1..][1..]) == Ok(f4);
    assert ScanInfo(f3, kids[1..][1..][1..]) == Ok(f4);
    assert ScanInfo(f2, kids[1..][1..]) == Ok(f4);
    assert ScanInfo(f1, kids[1..]) == Ok(f4);
  }

  /** A tile element reads back as its cell's coordinates and fields. */
  lemma {:induction false} TileReadsBack(room: Room, x: int, y: int, n: int)
    requires Storable(room) && InArray(room.grid, x, y)
    ensures var c := room.grid.cells[x][y];
      ScanTile(NO_TILE, TileNode(room.grid, x, y, n).children) == Ok(TileFields(x, y, c.imageId, c.tileType, c.tileSet))
  {
    var c := room.grid.cells[x][y];
    LeavesReadBack(x, y, c.imageId, c.tileType, c.tileSet);
  }

  /** The five leaves read back as the five fields. */
  lemma {:induction false} LeavesReadBack(x: int, y: int, imageId: int, tileType: int, tileSet: int)
    requires IsInt32(x) && IsInt32(y) && IsInt32(imageId) && IsInt32(tileType) && IsInt32(tileSet)
    ensures ScanTile(NO_TILE, TileLeaves(x, y, imageId, tileType, tileSet)) == Ok(TileFields(x, y, imageId, tileType, tileSet))
  {
    var kids := TileLeaves(x, y, imageId, tileType, tileSet);
    var f1 := TileFields(x, 0, 0, 0, 0);
    var f2 := f1.(y := y);
    var f3 := f2.(imageId := imageId);
    var f4 := f3.(tileType := tileType);
    var f5 := f4.(tileSet := tileSet);
    TileLeafReads(NO_TILE, "x", x);
    TileLeafReads(f1, "y", y);
    TileLeafReads(f2, "imageid", imageId);
    TileLeafReads(f3, "type", tileType);
    TileLeafReads(f4, "set", tileSet);
    assert kids[1..][1..][1..][1..][1..] == [];
    assert ScanTile(f4, kids[1..][1..][1..][1..]) == Ok(f5);
    assert ScanTile(f3, kids[1..][1..][1..]) == Ok(f5);
    assert ScanTile(f2, kids[1..][1..]) == Ok(f5);
    assert ScanTile(f1, kids[1..]) == Ok(f5);
  }

  /** Loading the tiles from number k on completes the room. */
  lemma {:induction false} TilesReadBack(room: Room, k: int)
    requires Storable(room) && 0 <= k <= room.grid.columns * room.grid.rows
    ensures TilesRun(Some(room.(grid := Overlay(room.grid, k))), TileNodes(room.grid)[k..]) == Run(Some(room), Done)
    decreases room.grid.columns * room.grid.rows - k
  {
    var g := room.grid;
    var nodes := TileNodes(g)[k..];
    if k == g.columns * g.rows {
      OverlayFull(g);
      assert nodes == [];
    } else {
      var p := CellOfIndex(k, g.columns, g.rows);
      var c := g.cells[p.0][p.1];
      assert nodes[0] == TileNode(g, p.0, p.1, k);
      assert nodes[1..] == TileNodes(g)[k + 1..];
      TileReadsBack(room, p.0, p.1, k);
      var before := room.(grid := Overlay(g, k));
      WriteTileEffect(Overlay(g, k), TileFields(p.0, p.1, c.imageId, c.tileType, c.tileSet));
      OverlayStep(g, k);
      assert TileRun(Some(before), nodes[0].children) == Run(Some(room.(grid := Overlay(g, k + 1))), Done);
      TilesReadBack(room, k + 1);
    }
  }

  /** The tiles element after the information element completes the blank room it made. */
  lemma {:induction false} TilesElementReadsBack(room: Room)
    requires Storable(room)
    ensures TilesRun(Some(room.(grid := EmptyGrid(room.grid.columns, room.grid.rows))), TileNodes(room.grid)) == Run(Some(room), Done)
  {
    OverlayEmpty(room.grid);
    TilesReadBack(room, 0);
    assert TileNodes(room.grid)[0..] == TileNodes(room.grid);
  }

  /** The room element's two children rebuild the room. */
  lemma {:induction false} RootReadsBack(room: Room, before: Option<Room>)
    requires Storable(room) && Sound(before)
    ensures RootRun(before, [InfoNode(room), Branch("tiles", [], TileNodes(room.grid))]) == Run(Some(room), Done)
  {
    var g := room.grid;
    var tiles := Branch("tiles", [], TileNodes(g));
    var blank := room.(grid := EmptyGrid(g.columns, g.rows));
    InfoReadsBack(room);
    assert InfoRun(before, InfoNode(room).children) == Run(Some(blank), Done);
    if g.columns * g.rows > 0 {
      TilesElementReadsBack(room);
      assert TilesRun(Some(blank), tiles.children) == Run(Some(room), Done);
    } else {
      OverlayEmpty(g);
      OverlayFull(g);
      assert blank == room;
    }
    assert [tiles][1..] == [];
    assert RootRun(Some(blank), [tiles]) == Run(Some(room), Done);
    var kids := [InfoNode(room), tiles];
    assert kids[1..] == [tiles];
    assert RootRun(before, kids) == RootRun(Some(blank), [tiles]);
  }

  /**
   * A saved room loads back as the same room, whatever room was held
   * before; this needs every number to be an int and the room to be no
   * taller than wide (the write guards compare y with the column count).
   */
  lemma {:induction false} SaveThenLoad(room: Room, fileName: string, before: Option<Room>)
    requires Storable(room) && Sound(before)
    ensures Loaded(Some(fileName), before, Parsed(RoomDocument(Some(room)))) == (Ok(true), Some(room))
  {
    var doc := RoomDocument(Some(room));
    RootReadsBack(room, before);
    assert doc[1..] == [];
    assert DocRun(before, doc) == Run(Some(room), Done);
  }

  /** A room of one column and two rows whose lower cell is solid. */
  const TALL_ROOM: Room := Room("tall", "", Grid(1, 2, [[BLANK, TileInfo(3, 1, 0)]]))

  /**
   * A room taller than wide does not survive saving and loading: the lower
   * cell of the one-column room is written with its type and image, but
   * loading leaves both at 0, because the write guards test y against the
   * column count, and the image is even saved as 0.
   */
  lemma {:induction false} TallRoomLosesItsLowerRow()
    ensures TALL_ROOM.grid.cells[0][1].tileType == 1
    ensures Loaded(Some("tall.xml"), None, Parsed(RoomDocument(Some(TALL_ROOM)))) ==
      (Ok(true), Some(TALL_ROOM.(grid := EmptyGrid(1, 2))))
  {
    var after := Some(TALL_ROOM.(grid := EmptyGrid(1, 2)));
    TallTilesLoad();
    InfoReadsBack(TALL_ROOM);
    var tiles := Branch("tiles", [], TileNodes(TALL_ROOM.grid));
    var kids := [InfoNode(TALL_ROOM), tiles];
    assert RootRun(after, [tiles]) == Run(after, Done) by {
      assert [tiles][1..] == [];
    }
    assert kids[1..] == [tiles];
    assert RootRun(None, kids) == Run(after, Done);
    var doc := RoomDocument(Some(TALL_ROOM));
    assert doc == [Branch("room", [], kids)] && doc[1..] == [];
    assert DocRun(None, doc) == Run(after, Done);
  }

  /** The two tile elements of the tall room: the lower one carries type 1 but image 0. */
  lemma {:induction false} TallTilesSaved()
    ensures TileNodes(TALL_ROOM.grid) == [TileNode(TALL_ROOM.grid, 0, 0, 0), TileNode(TALL_ROOM.grid, 0, 1, 1)]
    ensures TileNode(TALL_ROOM.grid, 0, 0, 0).children == TileLeaves(0, 0, 0, 0, 0)
    ensures TileNode(TALL_ROOM.grid, 0, 1, 1).children == TileLeaves(0, 1, 0, 1, 0)
  {
  }

  /** Loading the tall room's tiles into the blank room written first leaves it blank. */
  lemma {:induction false} TallTilesLoad()
    ensures var after := Some(TALL_ROOM.(grid := EmptyGrid(1, 2)));
      TilesRun(after, TileNodes(TALL_ROOM.grid)) == Run(after, Done)
  {
    var g := TALL_ROOM.grid;
    var blank := EmptyGrid(1, 2);
    var after := Some(TALL_ROOM.(grid := blank));
    var top := TileNode(g, 0, 0, 0);
    var bottom := TileNode(g, 0, 1, 1);
    TallTilesSaved();
    LeavesReadBack(0, 0, 0, 0, 0);
    LeavesReadBack(0, 1, 0, 1, 0);
    WriteTileEffect(blank, TileFields(0, 0, 0, 0, 0));
    WriteTileEffect(blank, TileFields(0, 1, 0, 1, 0));
    GridExt(Update(blank, 0, 0, BLANK), blank);
    GridExt(Update(blank, 0, 1, BLANK), blank);
    assert TileRun(after, top.children) == Run(after, Done);
    assert TileRun(after, bottom.children) == Run(after, Done);
    assert TilesRun(after, [bottom]) == Run(after, Done) by {
      assert [bottom][1..] == [];
    }
    assert [top, bottom][1..] == [bottom];
  }

  /** Tiles before any information block meet no room: the load raises a NullPointerException and no room is made. */
  lemma {:induction false} TilesNeedARoom(tile: Node, rest: seq<Node>)
    requires Parent(tile) && ScanTile(NO_TILE, tile.children).Ok?
    ensures Loaded(Some("room.xml"), None, Parsed([Branch("room", [], [Branch("tiles", [], [tile] + rest)])])) ==
      (Throw(NullPointer), None)
  {
    var tiles := Branch("tiles", [], [tile] + rest);
    assert ([tile] + rest)[0] == tile;
    assert TilesRun(None, tiles.children) == Run(None, Raised(NullPointer));
    var root := Branch("room", [], [tiles]);
    assert RootRun(None, root.children) == Run(None, Raised(NullPointer));
  }

  /** Fewer than four recognised fields give the default room; four copies of one field count as four. */
  lemma {:induction false} CountNotKinds(f: InfoFields, a: string, b: string, c: string, d: string)
    ensures f.count <= 3 ==> RoomFromInfo(f) == Ok(DefaultRoom())
    ensures ScanInfo(NO_INFO, [Leaf("name", a), Leaf("name", b), Leaf("name", c), Leaf("name", d)]) ==
      Ok(InfoFields(0, 0, d, "", 4))
    ensures RoomFromInfo(InfoFields(0, 0, d, "", 4)) == Ok(Room(d, "", EmptyGrid(0, 0)))
  {
    var nl := [Leaf("name", a), Leaf("name", b), Leaf("name", c), Leaf("name", d)];
    var last := Ok(InfoFields(0, 0, d, "", 4));
    assert nl[1..][1..][1..][1..] == [];
    assert ScanInfo(InfoFields(0, 0, c, "", 3), nl[1..][1..][1..]) == last;
    assert ScanInfo(InfoFields(0, 0, b, "", 2), nl[1..][1..]) == last;
    assert ScanInfo(InfoFields(0, 0, a, "", 1), nl[1..]) == last;
  }

  /** In loadToTile a field given twice takes its later value, and a missing one stays 0. */
  lemma {:induction false} LaterFieldWins(v: int, w: int)
    requires IsInt32(v) && IsInt32(w)
    ensures ScanTile(NO_TILE, [Leaf("x", IntToString(v)), Leaf("x", IntToString(w))]) == Ok(NO_TILE.(x := w))
    ensures ScanTile(NO_TILE, []) == Ok(NO_TILE)
  {
    ParseIntToString(v);
    ParseIntToString(w);
    var nl := [Leaf("x", IntToString(v)), Leaf("x", IntToString(w))];
    assert nl[1..][1..] == [];
    assert ScanTile(NO_TILE.(x := w), nl[1..][1..]) == Ok(NO_TILE.(x := w));
  }

  // -------------------------------------------------------------------------
  // The class

  /** The tile element of the cell (x, y) extends the elements of the cells numbered before it. */
  lemma {:induction false} NextTile(g: Grid, tiles: seq<Node>, x: int, y: int)
    requires WellFormed(g) && InArray(g, x, y)
    requires x * g.rows + y <= |TileNodes(g)| && tiles == TileNodes(g)[..x * g.rows + y]
    ensures x * g.rows + y + 1 <= |TileNodes(g)|
    ensures tiles + [TileNode(g, x, y, x * g.rows + y)] == TileNodes(g)[..x * g.rows + y + 1]
  {
    TileOrder(g, x, y);
    PrefixGrows(TileNodes(g), x * g.rows + y);
  }

  /** A prefix one longer is the prefix and the next element. */
  lemma {:induction false} PrefixGrows(all: seq<Node>, m: int)
    requires 0 <= m < |all|
    ensures all[..m + 1] == all[..m] + [all[m]]
  {
    assert all[..m + 1] == all[..m] + [all[m]];
  }

  /** saveRoom's nested loop over the cells, x outer and y inner, numbering them as it goes. */
  method TileElements(g: Grid) returns (tiles: seq<Node>)
    requires WellFormed(g)
    ensures tiles == TileNodes(g)
  {
    tiles := [];
    var n := 0;
    var x := 0;
    while x < g.columns
      invariant 0 <= x <= g.columns && n == x * g.rows && |tiles| == n
      invariant n <= g.columns * g.rows && tiles == TileNodes(g)[..n]
    {
      var y := 0;
      while y < g.rows
        invariant 0 <= y <= g.rows && n == x * g.rows + y && |tiles| == n
        invariant n <= g.columns * g.rows && tiles == TileNodes(g)[..n]
      {
        NextTile(g, tiles, x, y);
        tiles := tiles + [TileNode(g, x, y, n)];
        n := n + 1;
        y := y + 1;
      }
      assert n == (x + 1) * g.rows;
      x := x + 1;
    }
  }

  class IoManager {
    var roomMap: Option<Room>
    var fileName: Option<string>

    ghost predicate Valid()
      reads this
    {
      Sound(roomMap)
    }

    /** IoManager(fileName): no room yet. */
    constructor (fileName: Option<string>)
      ensures Valid() && roomMap == None && this.fileName == fileName
    {
      roomMap := None;
      this.fileName := fileName;
    }

    /** IoManager(roomMap, fileName). */
    constructor WithRoom(roomMap: Option<Room>, fileName: Option<string>)
      requires Sound(roomMap)
      ensures Valid() && this.roomMap == roomMap && this.fileName == fileName
    {
      this.roomMap := roomMap;
      this.fileName := fileName;
    }

    method SetFileName(fileName: Option<string>)
      modifies this
      ensures this.fileName == fileName && roomMap == old(roomMap)
    {
      this.fileName := fileName;
    }

    method GetFileName() returns (f: Option<string>)
      ensures f == fileName
    {
      f := fileName;
    }

    method GetRoom() returns (r: Option<Room>)
      ensures r == roomMap
    {
      r := roomMap;
    }

    /** save(): true whenever there is a file name, whatever became of the writing. */
    method Save() returns (ok: bool, written: seq<Node>)
      requires Valid()
      ensures ok <==> fileName.Some?
      ensures written == if ok then RoomDocument(roomMap) else []
    {
      if fileName.Some? {
        written := SaveRoom();
        ok := true;
      } else {
        written := [];
        ok := false;
      }
    }

    /** saveRoom(): the room element, its information and its tiles. */
    method SaveRoom() returns (doc: seq<Node>)
      requires Valid()
      ensures doc == RoomDocument(roomMap)
    {
      doc := [];
      if roomMap.Some? {
        var room := roomMap.value;
        var info := Branch("information", [],
          [Leaf("name", room.name),
           Leaf("width", IntToString(room.grid.columns)),
           Leaf("height", IntToString(room.grid.rows)),
           Leaf("info", room.info)]);
        var tiles := TileElements(room.grid);
        doc := [Branch("room", [], [info, Branch("tiles", [], tiles)])];
      }
    }

    /** load(). */
    method Load(input: Input) returns (r: Result<bool>)
      requires Valid()
      modifies this
      ensures Valid() && fileName == old(fileName)
      ensures (r, roomMap) == Loaded(fileName, old(roomMap), input)
    {
      if fileName.None? {
        return Ok(false);
      }
      if input.Missing? {
        return Throw(IllegalArgument);
      }
      if input.Parsed? && RootName(input.nodes) == Some("room") && |input.nodes| > 0 {
        var s := ProcessNode(input.nodes);
        if s.Raised? {
          return Throw(s.ex);
        }
      }
      return Ok(true);
    }

    /** processNode(nodes): every top-level element with children is taken as the room element. */
    method ProcessNode(nodes: seq<Node>) returns (s: Status)
      requires Valid()
      modifies this
      ensures Valid() && fileName == old(fileName)
      ensures Run(roomMap, s) == DocRun(old(roomMap), nodes)
    {
      var i := 0;
      while i < |nodes|
        invariant 0 <= i <= |nodes| && Valid() && fileName == old(fileName)
        invariant DocRun(old(roomMap), nodes) == DocRun(roomMap, nodes[i..])
      {
        assert nodes[i..][0] == nodes[i] && nodes[i..][1..] == nodes[i + 1..];
        if Parent(nodes[i]) {
          var s1 := ProcessRoot(nodes[i].children);
          if s1.Raised? {
            return s1;
          }
        }
        i := i + 1;
      }
      return Done;
    }

    /** The loop over the room element's children. */
    method ProcessRoot(nodes: seq<Node>) returns (s: Status)
      requires Valid()
      modifies this
      ensures Valid() && fileName == old(fileName)
      ensures Run(roomMap, s) == RootRun(old(roomMap), nodes)
    {
      var i := 0;
      while i < |nodes|
        invariant 0 <= i <= |nodes| && Valid() && fileName == old(fileName)
        invariant RootRun(old(roomMap), nodes) == RootRun(roomMap, nodes[i..])
      {
        assert nodes[i..][0] == nodes[i] && nodes[i..][1..] == nodes[i + 1..];
        var n := nodes[i];
        if Parent(n) {
          var s1 := Done;
          if n.name == "information" {
            s1 := LoadRoomInfo(n.children);
          } else if n.name == "tiles" {
            s1 := LoadTiles(n.children);
          }
          if s1.Raised? {
            return s1;
          }
        }
        i := i + 1;
      }
      return Done;
    }

    /** The loop over a tiles element's children. */
    method LoadTiles(nodes: seq<Node>) returns (s: Status)
      requires Valid()
      modifies this
      ensures Valid() && fileName == old(fileName)
      ensures Run(roomMap, s) == TilesRun(old(roomMap), nodes)
    {
      var i := 0;
      while i < |nodes|
        invariant 0 <= i <= |nodes| && Valid() && fileName == old(fileName)
        invariant TilesRun(old(roomMap), nodes) == TilesRun(roomMap, nodes[i..])
      {
        assert nodes[i..][0] == nodes[i] && nodes[i..][1..] == nodes[i + 1..];
        if Parent(nodes[i]) {
          var s1 := LoadToTile(nodes[i].children);
          if s1.Raised? {
            return s1;
          }
        }
        i := i + 1;
      }
      return Done;
    }

    /** loadRoomInfo(nl). */
    method LoadRoomInfo(nl: seq<Node>) returns (s: Status)
      requires Valid()
      modifies this
      ensures Valid() && fileName == old(fileName)
      ensures Run(roomMap, s) == InfoRun(old(roomMap), nl)
    {
      var rows, columns, name, info, c := 0, 0, "", "", 0;
      var i := 0;
      while i < |nl|
        invariant 0 <= i <= |nl|
        invariant ScanInfo(NO_INFO, nl) == ScanInfo(InfoFields(rows, columns, name, info, c), nl[i..])
      {
        assert nl[i..][0] == nl[i] && nl[i..][1..] == nl[i + 1..];
        var n := nl[i];
        if n.Element? {
          if n.name == "name" {
            name := n.text;
            c := c + 1;
          } else if n.name == "width" {
            var v := ParseInt(n.text);
            if v.None? {
              return Raised(NumberFormat);
            }
            columns := v.value;
            c := c + 1;
          } else if n.name == "height" {
            var v := ParseInt(n.text);
            if v.None? {
              return Raised(NumberFormat);
            }
            rows := v.value;
            c := c + 1;
          } else if n.name == "info" {
            info := n.text;
            c := c + 1;
          }
        }
        i := i + 1;
      }
      if c > 3 {
        if columns < 0 || rows < 0 {
          return Raised(NegativeArraySize);
        }
        roomMap := Some(Room(name, info, EmptyGrid(columns, rows)));
      } else {
        roomMap := Some(Room("newroom", "A New Room", EmptyGrid(20, 16)));
      }
      return Done;
    }

    /** loadToTile(nl): the fields, then the three writes into the room. */
    method LoadToTile(nl: seq<Node>) returns (s: Status)
      requires Valid()
      modifies this
      ensures Valid() && fileName == old(fileName)
      ensures Run(roomMap, s) == TileRun(old(roomMap), nl)
    {
      var x, y, imageId, tileType, tileSet := 0, 0, 0, 0, 0;
      var i := 0;
      while i < |nl|
        invariant 0 <= i <= |nl|
        invariant ScanTile(NO_TILE, nl) == ScanTile(TileFields(x, y, imageId, tileType, tileSet), nl[i..])
      {
        assert nl[i..][0] == nl[i] && nl[i..][1..] == nl[i + 1..];
        var n := nl[i];
        if n.Element? && (n.name == "x" || n.name == "y" || n.name == "imageid" || n.name == "type" || n.name == "set") {
          var v := ParseInt(n.text);
          if v.None? {
            return Raised(NumberFormat);
          }
          if n.name == "x" {
            x := v.value;
          } else if n.name == "y" {
            y := v.value;
          } else if n.name == "imageid" {
            imageId := v.value;
          } else if n.name == "type" {
            tileType := v.value;
          } else {
            tileSet := v.value;
          }
        }
        i := i + 1;
      }
      if roomMap.None? {
        return Raised(NullPointer);
      }
      var room := roomMap.value;
      var w1 := WithImageId(room.grid, x, y, imageId);
      if w1.Throw? {
        return Raised(w1.ex);
      }
      roomMap := Some(room.(grid := w1.value));
      var w2 := WithType(w1.value, x, y, tileType);
      // setType applies the same test as setImageId, which passed
      assert w2.Ok?;
      roomMap := Some(room.(grid := w2.value));
      var w3 := WithSet(w2.value, x, y, tileSet);
      if w3.Throw? {
        return Raised(w3.ex);
      }
      roomMap := Some(room.(grid := w3.value));
      return Done;
    }
  }
}
