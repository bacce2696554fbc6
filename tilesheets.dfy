/**
 * The tile sheets: images cut into 16x16 tiles, addressed either by column
 * and row or by a running number counted along the rows of the last sheet
 * loaded.  Image data is not modelled; an image is named by the sheet and the
 * cell it was cut from (and, for a quarter tile, the pixel offset inside it).
 */
module TileSheets {
  import opened JavaLang

  const TILE_SIZE: int := 16
  const HALF_TILE: int := 8

  /** A loaded sheet, by the number of tile columns and rows its image holds. */
  datatype Sheet = Sheet(columns: int, rows: int)

  /** The sub-image a lookup hands out. */
  datatype Image =
    | TileImage(sheet: int, x: int, y: int)
    | QuarterImage(sheet: int, x: int, y: int, xOffset: int, yOffset: int)

  /** The column and row of tile number `num` on a sheet `columns` tiles wide. */
  function SheetCell(num: int, columns: int): (c: (int, int))
    requires columns != 0
  {
    (IRem(num, columns), IDiv(num, columns))
  }

  /** For a non-negative number, the cell lies on the sheet's width and numbers back to `num`. */
  lemma {:induction false} SheetCellNumbers(num: int, columns: int)
    requires columns > 0 && num >= 0
    ensures 0 <= SheetCell(num, columns).0 < columns && SheetCell(num, columns).1 >= 0
    ensures SheetCell(num, columns).1 * columns + SheetCell(num, columns).0 == num
  {
    DivRem(num, columns);
  }

  /** Numbering the cell (x, y) row by row and looking the number up gives (x, y) again. */
  lemma {:induction false} SheetCellOfNumber(x: int, y: int, columns: int)
    requires columns > 0 && 0 <= x < columns && y >= 0
    ensures SheetCell(y * columns + x, columns) == (x, y)
  {
    var n := y * columns + x;
    assert y * columns >= 0;
    DivModUnique(n, columns, y, x);
  }

  /**
   * The pixel offset of quarter `q` inside a tile: 1 is the top-right quarter,
   * 2 the bottom-right, 3 the bottom-left, anything else the top-left.
   */
  function QuarterOffset(q: int): (o: (int, int))
    ensures o.0 in {0, HALF_TILE} && o.1 in {0, HALF_TILE}
    ensures !(1 <= q <= 3) ==> o == (0, 0)
  {
    if q == 1 then (HALF_TILE, 0)
    else if q == 2 then (HALF_TILE, HALF_TILE)
    else if q == 3 then (0, HALF_TILE)
    else (0, 0)
  }

  /** Quarters 0 to 3 are the four different corners of the tile. */
  lemma {:induction false} QuartersDistinct(p: int, q: int)
    requires 0 <= p <= 3 && 0 <= q <= 3 && p != q
    ensures QuarterOffset(p) != QuarterOffset(q)
  {
  }

  /** Every loaded sheet and the registry of them; the class holds what the source keeps in statics. */
  class TileManager {
    var sets: map<int, Sheet>
    var current: int
    var columns: int
    var rows: int

    constructor ()
      ensures sets == map[] && current == 0 && columns == 0 && rows == 0
    {
      sets := map[];
      current := 0;
      columns := 0;
      rows := 0;
    }

    /**
     * load(id, file): the sheet's tile counts become the manager's column and
     * row counts, whatever sheet was loaded before, and the sheet is stored under `id`.
     */
    method Load(id: int, widthPixels: nat, heightPixels: nat)
      modifies this`sets, this`columns, this`rows
      ensures columns == widthPixels / TILE_SIZE && rows == heightPixels / TILE_SIZE
      ensures sets == old(sets)[id := Sheet(columns, rows)]
    {
      columns := widthPixels / TILE_SIZE;
      rows := heightPixels / TILE_SIZE;
      sets := sets[id := Sheet(columns, rows)];
    }

    /** init(): sheet 0 and sheet 1, from the two images' sizes. */
    method Init(width0: nat, height0: nat, width1: nat, height1: nat)
      modifies this`sets, this`columns, this`rows
      ensures sets == old(sets)[0 := Sheet(width0 / TILE_SIZE, height0 / TILE_SIZE)][1 := Sheet(width1 / TILE_SIZE, height1 / TILE_SIZE)]
      ensures columns == width1 / TILE_SIZE && rows == height1 / TILE_SIZE
    {
      Load(0, width0, height0);
      Load(1, width1, height1);
    }

    /**
     * The cell (x, y) of sheet `sheet`.  A cell outside the manager's column and
     * row counts is replaced by cell (1, 0).  A missing sheet is a null
     * dereference; a cell the sheet itself lacks is an index fault.
     */
    function CellOf(x: int, y: int, sheet: int): (r: Result<(int, int)>)
      reads this
      ensures r.Throw? && sheet !in sets ==> r.ex == NullPointer
      ensures sheet !in sets ==> r.Throw?
      ensures r.Ok? ==> 0 <= r.value.0 < sets[sheet].columns && 0 <= r.value.1 < sets[sheet].rows
      ensures r.Ok? && !(0 <= x < columns && 0 <= y < rows) ==> r.value == (1, 0)
      ensures r.Ok? && 0 <= x < columns && 0 <= y < rows ==> r.value == (x, y)
    {
      if sheet !in sets then Throw(NullPointer)
      else
        var (cx, cy) := if 0 <= x < columns && 0 <= y < rows then (x, y) else (1, 0);
        if 0 <= cx < sets[sheet].columns && 0 <= cy < sets[sheet].rows then Ok((cx, cy))
        else Throw(IndexOutOfBounds)
    }

    /** getTileImage(Point, sheet). */
    function GetTileImage(x: int, y: int, sheet: int): (r: Result<Image>)
      reads this
      ensures r.Ok? <==> CellOf(x, y, sheet).Ok?
      ensures r.Ok? ==> r.value == TileImage(sheet, CellOf(x, y, sheet).value.0, CellOf(x, y, sheet).value.1)
    {
      match CellOf(x, y, sheet)
      case Throw(e) => Throw(e)
      case Ok(c) => Ok(TileImage(sheet, c.0, c.1))
    }

    /** getTileImage(num, sheet): the number read along rows of the manager's width; a width of 0 divides by zero. */
    function GetTileImageByNumber(num: int, sheet: int): (r: Result<Image>)
      reads this
      ensures columns == 0 ==> r == Throw(Arithmetic)
      ensures columns > 0 && num >= 0 && r.Ok? ==>
        r.value.TileImage? && r.value.sheet == sheet &&
        (r.value.y * columns + r.value.x == num || (r.value.x, r.value.y) == (1, 0))
    {
      if columns == 0 then Throw(Arithmetic)
      else
        var c := SheetCell(num, columns);
        var r := GetTileImage(c.0, c.1, sheet);
        if columns > 0 && num >= 0 then SheetCellNumbers(num, columns); r else r
    }

    /** getQuarterTileImage(Point, q, sheet). */
    function GetQuarterTileImage(x: int, y: int, q: int, sheet: int): (r: Result<Image>)
      reads this
      ensures r.Ok? <==> CellOf(x, y, sheet).Ok?
      ensures r.Ok? ==> r.value == QuarterImage(sheet, CellOf(x, y, sheet).value.0, CellOf(x, y, sheet).value.1,
                                                 QuarterOffset(q).0, QuarterOffset(q).1)
    {
      var o := QuarterOffset(q);
      match CellOf(x, y, sheet)
      case Throw(e) => Throw(e)
      case Ok(c) => Ok(QuarterImage(sheet, c.0, c.1, o.0, o.1))
    }

    /** getQuarterTileImage(num, q, sheet). */
    function GetQuarterTileImageByNumber(num: int, q: int, sheet: int): (r: Result<Image>)
      reads this
      ensures columns == 0 ==> r == Throw(Arithmetic)
      ensures columns != 0 ==> r == GetQuarterTileImage(SheetCell(num, columns).0, SheetCell(num, columns).1, q, sheet)
    {
      if columns == 0 then Throw(Arithmetic)
      else GetQuarterTileImage(IRem(num, columns), IDiv(num, columns), q, sheet)
    }

    /** getTileImage(Point) and getTileImage(num): the same lookups on the current sheet. */
    function GetCurrentTileImage(x: int, y: int): (r: Result<Image>)
      reads this
      ensures r == GetTileImage(x, y, current)
    {
      GetTileImage(x, y, current)
    }

    function GetCurrentTileImageByNumber(num: int): (r: Result<Image>)
      reads this
      ensures r == GetTileImageByNumber(num, current)
    {
      if columns == 0 then Throw(Arithmetic)
      else GetTileImage(IRem(num, columns), IDiv(num, columns), current)
    }

    /** getQuarterTileImage(num, q) on the current sheet. */
    function GetCurrentQuarterTileImageByNumber(num: int, q: int): (r: Result<Image>)
      reads this
      ensures r == GetQuarterTileImageByNumber(num, q, current)
    {
      if columns == 0 then Throw(Arithmetic)
      else GetQuarterTileImage(IRem(num, columns), IDiv(num, columns), q, current)
    }

    /** setTileSet(sheet): accepted only when it is below the number of sheets loaded. */
    method SetTileSet(sheet: int)
      modifies this`current
      ensures current == if 0 <= sheet < |sets| then sheet else old(current)
    {
      if sheet >= 0 && sheet < |sets| {
        current := sheet;
      }
    }

    /** getTileSet(): the sheet the current-sheet lookups use. */
    function GetTileSet(): (r: int)
      reads this
      ensures r == current
    {
      current
    }

    function GetNumSheets(): (n: nat)
      reads this
      ensures n == |sets.Keys|
    {
      |sets|
    }
  }
}
