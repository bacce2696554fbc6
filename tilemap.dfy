/**
 * A room: a grid of tiles, each with the image drawn for it, its collision
 * type (1 is solid) and the tile sheet the image comes from.  The pure part
 * describes a room as a value; RoomMap is the mutable room the game and the
 * editor work on, proved against it.
 *
 * The bounds checks are the ones the room's accessors perform, including
 * the ones that test y against the column count instead of the row count
 * and the write guard that admits x == columns.
 */
module TileMap {
  import opened JavaLang

  const TILE_SIZE: int := 16

  /** One cell of a room. */
  datatype TileInfo = TileInfo(imageId: int, tileType: int, tileSet: int)

  /** A cell as the room's constructor creates it: image 0, type 0, sheet 0. */
  const BLANK: TileInfo := TileInfo(0, 0, 0)

  /** The value of a room's grid: `cells[x][y]` for column x and row y. */
  datatype Grid = Grid(columns: int, rows: int, cells: seq<seq<TileInfo>>)

  /** A room with its name and description, as the room files store it. */
  datatype Room = Room(name: string, info: string, grid: Grid)

  predicate WellFormed(g: Grid) {
    g.columns >= 0 && g.rows >= 0 && |g.cells| == g.columns &&
    forall x :: 0 <= x < g.columns ==> |g.cells[x]| == g.rows
  }

  /** The cell exists in the underlying array. */
  predicate InArray(g: Grid, x: int, y: int) {
    0 <= x < g.columns && 0 <= y < g.rows
  }

  /** The test setType and setImageId apply before writing. */
  predicate WriteGuard(g: Grid, x: int, y: int) {
    x >= 0 && x <= g.columns && y >= 0 && y < g.columns
  }

  /** The test getImageId applies before reading. */
  predicate ImageReadGuard(g: Grid, x: int, y: int) {
    0 <= x < g.columns && 0 <= y < g.columns
  }

  /** Two rooms with the same size and the same cells are the same value. */
  lemma GridExt(a: Grid, b: Grid)
    requires WellFormed(a) && WellFormed(b)
    requires a.columns == b.columns && a.rows == b.rows
    requires forall x, y :: InArray(a, x, y) ==> a.cells[x][y] == b.cells[x][y]
    ensures a == b
  {
    forall x | 0 <= x < a.columns
      ensures a.cells[x] == b.cells[x]
    {
      assert forall y :: 0 <= y < a.rows ==> a.cells[x][y] == b.cells[x][y];
    }
  }

  /** The grid the room's constructor builds. */
  function EmptyGrid(columns: nat, rows: nat): (g: Grid)
    ensures WellFormed(g) && g.columns == columns && g.rows == rows
    ensures forall x, y :: InArray(g, x, y) ==> g.cells[x][y] == BLANK
  {
    Grid(columns, rows, seq(columns, _ => seq(rows, _ => BLANK)))
  }

  /** The grid with one existing cell replaced. */
  function Update(g: Grid, x: int, y: int, c: TileInfo): (r: Grid)
    requires WellFormed(g) && InArray(g, x, y)
    ensures WellFormed(r) && r.columns == g.columns && r.rows == g.rows
    ensures r.cells[x][y] == c
    ensures forall i, j :: InArray(g, i, j) && (i != x || j != y) ==> r.cells[i][j] == g.cells[i][j]
  {
    g.(cells := g.cells[x := g.cells[x][y := c]])
  }

  /** getType(Point): the collision type of a cell, 0 for every cell outside the room. */
  function TypeAt(g: Grid, x: int, y: int): int
    requires WellFormed(g)
  {
    if 0 <= x < g.columns && 0 <= y < g.rows then g.cells[x][y].tileType else 0
  }

  /** getType(Point2D): the type of the cell under a pixel position. */
  function TypeAtPixel(g: Grid, px: real, py: real): (t: int)
    requires WellFormed(g)
    ensures t == TypeAt(g, Trunc(px / TILE_SIZE as real), Trunc(py / TILE_SIZE as real))
  {
    TypeAt(g, Trunc(px / 16.0), Trunc(py / 16.0))
  }

  /**
   * setType(Point, type): writes inside the write guard; a cell the guard
   * admits but the array does not have raises IndexOutOfBounds.
   */
  function WithType(g: Grid, x: int, y: int, t: int): (r: Result<Grid>)
    requires WellFormed(g)
    ensures r.Throw? <==> (x == g.columns && 0 <= y < g.columns) || (0 <= x < g.columns && g.rows <= y < g.columns)
    ensures r.Throw? ==> r.ex == IndexOutOfBounds
    ensures r.Ok? ==> WellFormed(r.value) && r.value.columns == g.columns && r.value.rows == g.rows
    ensures r.Ok? ==> forall i, j :: InArray(g, i, j) && (i != x || j != y) ==> r.value.cells[i][j] == g.cells[i][j]
    ensures r.Ok? && InArray(g, x, y) ==>
      r.value.cells[x][y] == if y < g.columns then g.cells[x][y].(tileType := t) else g.cells[x][y]
  {
    if !WriteGuard(g, x, y) then Ok(g)
    else if !InArray(g, x, y) then Throw(IndexOutOfBounds)
    else Ok(Update(g, x, y, g.cells[x][y].(tileType := t)))
  }

  /** setImageId(Point, id): the same guard as setType. */
  function WithImageId(g: Grid, x: int, y: int, id: int): (r: Result<Grid>)
    requires WellFormed(g)
    ensures r.Throw? <==> (x == g.columns && 0 <= y < g.columns) || (0 <= x < g.columns && g.rows <= y < g.columns)
    ensures r.Throw? ==> r.ex == IndexOutOfBounds
    ensures r.Ok? ==> WellFormed(r.value) && r.value.columns == g.columns && r.value.rows == g.rows
    ensures r.Ok? ==> forall i, j :: InArray(g, i, j) && (i != x || j != y) ==> r.value.cells[i][j] == g.cells[i][j]
    ensures r.Ok? && InArray(g, x, y) ==>
      r.value.cells[x][y] == if y < g.columns then g.cells[x][y].(imageId := id) else g.cells[x][y]
  {
    if !WriteGuard(g, x, y) then Ok(g)
    else if !InArray(g, x, y) then Throw(IndexOutOfBounds)
    else Ok(Update(g, x, y, g.cells[x][y].(imageId := id)))
  }

  /** setSet(Point, set): no bounds check, so any cell outside the array raises. */
  function WithSet(g: Grid, x: int, y: int, s: int): (r: Result<Grid>)
    requires WellFormed(g)
    ensures r.Throw? <==> !InArray(g, x, y)
    ensures r.Ok? ==> r.value == Update(g, x, y, g.cells[x][y].(tileSet := s))
  {
    if InArray(g, x, y) then Ok(Update(g, x, y, g.cells[x][y].(tileSet := s))) else Throw(IndexOutOfBounds)
  }

  /** setTile(Point, id, type): setImageId, then setType (not reached if the first raised). */
  function WithTile(g: Grid, x: int, y: int, id: int, t: int): (r: Result<Grid>)
    requires WellFormed(g)
    ensures r.Throw? <==> WithImageId(g, x, y, id).Throw?
    ensures r.Ok? ==> WellFormed(r.value) && r.value.columns == g.columns && r.value.rows == g.rows
    ensures r.Ok? && InArray(g, x, y) && y < g.columns ==>
      r.value.cells[x][y] == g.cells[x][y].(imageId := id, tileType := t)
  {
    match WithImageId(g, x, y, id)
    case Throw(e) => Throw(e)
    case Ok(g1) => WithType(g1, x, y, t)
  }

  /** getImageId(Point): 0 outside its guard, IndexOutOfBounds for a row the guard admits but the array lacks. */
  function ImageIdAt(g: Grid, x: int, y: int): (r: Result<int>)
    requires WellFormed(g)
    ensures r.Throw? <==> 0 <= x < g.columns && g.rows <= y < g.columns
    ensures r.Ok? && InArray(g, x, y) && y < g.columns ==> r.value == g.cells[x][y].imageId
    ensures r.Ok? && !InArray(g, x, y) ==> r.value == 0
  {
    if !ImageReadGuard(g, x, y) then Ok(0)
    else if !InArray(g, x, y) then Throw(IndexOutOfBounds)
    else Ok(g.cells[x][y].imageId)
  }

  /** getSet(Point): no bounds check. */
  function SheetAt(g: Grid, x: int, y: int): (r: Result<int>)
    requires WellFormed(g)
    ensures r.Throw? <==> !InArray(g, x, y)
    ensures r.Ok? ==> r.value == g.cells[x][y].tileSet
  {
    if InArray(g, x, y) then Ok(g.cells[x][y].tileSet) else Throw(IndexOutOfBounds)
  }

  /** A type written to a cell that exists and passes the guard reads back; nothing else changes. */
  lemma {:induction false} TypeReadBack(g: Grid, x: int, y: int, t: int, i: int, j: int)
    requires WellFormed(g) && InArray(g, x, y) && y < g.columns
    ensures WithType(g, x, y, t).Ok?
    ensures TypeAt(WithType(g, x, y, t).value, i, j) == if i == x && j == y then t else TypeAt(g, i, j)
  {
    var r := WithType(g, x, y, t).value;
    if InArray(g, i, j) && (i != x || j != y) {
      assert r.cells[i][j] == g.cells[i][j];
    }
  }

  /**
   * In a room with more rows than columns, a type written to a row at or
   * beyond the column count is silently dropped: the cell keeps its old type.
   */
  lemma {:induction false} TypeDroppedBelowColumnCount(g: Grid, x: int, y: int, t: int)
    requires WellFormed(g) && InArray(g, x, y) && y >= g.columns
    ensures WithType(g, x, y, t) == Ok(g)
    ensures TypeAt(WithType(g, x, y, t).value, x, y) == TypeAt(g, x, y)
  {
  }

  /** The mutable room. */
  class RoomMap {
    var name: string
    var info: string
    const columns: int
    const rows: int
    const room: array2<TileInfo>

    ghost predicate Valid() {
      room.Length0 == columns && room.Length1 == rows
    }

    /** The room's grid as a value. */
    function Snapshot(): (g: Grid)
      reads room
      requires Valid()
      ensures WellFormed(g) && g.columns == columns && g.rows == rows
      ensures forall x, y :: InArray(g, x, y) ==> g.cells[x][y] == room[x, y]
    {
      Grid(columns, rows,
        seq(columns, x requires 0 <= x < columns reads room =>
          seq(rows, y requires 0 <= y < rows reads room => room[x, y])))
    }

    /** The room with its name and description. */
    function Value(): (r: Room)
      reads this, room
      requires Valid()
      ensures r.name == name && r.info == info && r.grid == Snapshot()
    {
      Room(name, info, Snapshot())
    }

    /** RoomMap(name, columns, rows, info): every cell blank. */
    constructor (name: string, columns: int, rows: int, info: string)
      requires columns >= 0 && rows >= 0
      ensures Valid() && fresh(room)
      ensures this.name == name && this.info == info
      ensures this.columns == columns && this.rows == rows
      ensures Snapshot() == EmptyGrid(columns, rows)
    {
      this.name := name;
      this.info := info;
      this.columns := columns;
      this.rows := rows;
      var cells := new TileInfo[columns, rows];
      var x := 0;
      while x < columns
        invariant 0 <= x <= columns
        invariant forall i, j :: 0 <= i < x && 0 <= j < rows ==> cells[i, j] == BLANK
      {
        var y := 0;
        while y < rows
          invariant 0 <= y <= rows
          invariant forall i, j :: 0 <= i < x && 0 <= j < rows ==> cells[i, j] == BLANK
          invariant forall j :: 0 <= j < y ==> cells[x, j] == BLANK
        {
          cells[x, y] := BLANK;
          y := y + 1;
        }
        x := x + 1;
      }
      room := cells;
      new;
      GridExt(Snapshot(), EmptyGrid(columns, rows));
    }

    /** getType(Point). */
    function GetType(x: int, y: int): (t: int)
      reads this, room
      requires Valid()
      ensures t == TypeAt(Snapshot(), x, y)
    {
      if 0 <= x < columns && 0 <= y < rows then room[x, y].tileType else 0
    }

    /** getType(Point2D). */
    function GetTypeAtPixel(px: real, py: real): (t: int)
      reads this, room
      requires Valid()
      ensures t == TypeAtPixel(Snapshot(), px, py)
    {
      GetType(Trunc(px / 16.0), Trunc(py / 16.0))
    }

    /** getImageId(Point). */
    function GetImageId(x: int, y: int): (r: Result<int>)
      reads this, room
      requires Valid()
      ensures r == ImageIdAt(Snapshot(), x, y)
    {
      if !(0 <= x < columns && 0 <= y < columns) then Ok(0)
      else if y >= rows then Throw(IndexOutOfBounds)
      else Ok(room[x, y].imageId)
    }

    /** getImageId(Point2D). */
    function GetImageIdAtPixel(px: real, py: real): (r: Result<int>)
      reads this, room
      requires Valid()
      ensures r == ImageIdAt(Snapshot(), Trunc(px / 16.0), Trunc(py / 16.0))
    {
      GetImageId(Trunc(px / 16.0), Trunc(py / 16.0))
    }

    /** getSet(Point). */
    function GetSet(x: int, y: int): (r: Result<int>)
      reads this, room
      requires Valid()
      ensures r == SheetAt(Snapshot(), x, y)
    {
      if 0 <= x < columns && 0 <= y < rows then Ok(room[x, y].tileSet) else Throw(IndexOutOfBounds)
    }

    /** Writes one cell and shows the new grid is Update of the old one. */
    method Put(x: int, y: int, c: TileInfo)
      requires Valid() && 0 <= x < columns && 0 <= y < rows
      modifies room
      ensures Valid()
      ensures Snapshot() == Update(old(Snapshot()), x, y, c)
    {
      ghost var before := Snapshot();
      room[x, y] := c;
      GridExt(Snapshot(), Update(before, x, y, c));
    }

    /** setType(Point, type). */
    method SetType(x: int, y: int, t: int) returns (s: Status)
      requires Valid()
      modifies room
      ensures Valid()
      ensures Applied(old(Snapshot()), WithType(old(Snapshot()), x, y, t), s, Snapshot())
    {
      if x >= 0 && x <= columns && y >= 0 && y < columns {
        if x >= columns || y >= rows {
          return Raised(IndexOutOfBounds);
        }
        Put(x, y, room[x, y].(tileType := t));
      }
      s := Done;
    }

    /** setImageId(Point, id). */
    method SetImageId(x: int, y: int, id: int) returns (s: Status)
      requires Valid()
      modifies room
      ensures Valid()
      ensures Applied(old(Snapshot()), WithImageId(old(Snapshot()), x, y, id), s, Snapshot())
    {
      if x >= 0 && x <= columns && y >= 0 && y < columns {
        if x >= columns || y >= rows {
          return Raised(IndexOutOfBounds);
        }
        Put(x, y, room[x, y].(imageId := id));
      }
      s := Done;
    }

    /** setSet(Point, set). */
    method SetSet(x: int, y: int, sheet: int) returns (s: Status)
      requires Valid()
      modifies room
      ensures Valid()
      ensures Applied(old(Snapshot()), WithSet(old(Snapshot()), x, y, sheet), s, Snapshot())
    {
      if !(0 <= x < columns && 0 <= y < rows) {
        return Raised(IndexOutOfBounds);
      }
      Put(x, y, room[x, y].(tileSet := sheet));
      s := Done;
    }

    /** setTile(Point, id, type). */
    method SetTile(x: int, y: int, id: int, t: int) returns (s: Status)
      requires Valid()
      modifies room
      ensures Valid()
      ensures Applied(old(Snapshot()), WithTile(old(Snapshot()), x, y, id, t), s, Snapshot())
    {
      s := SetImageId(x, y, id);
      if s.Raised? {
        return;
      }
      s := SetType(x, y, t);
    }

    method SetName(n: string)
      modifies this`name
      ensures name == n
    {
      name := n;
    }

    method SetInfo(i: string)
      modifies this`info
      ensures info == i
    {
      info := i;
    }
  }
}
