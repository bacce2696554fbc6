/**
 * The map editor's console: the line being typed, a log of messages that
 * only grows, and the status the editor reports (mode, type, coordinates,
 * sheet, room name and description).
 */
module MapConsoles {
  import opened JavaLang
  import opened KeyCodes

  /** The most log lines displayConsole draws. */
  const SHOWN_LINES: int := 6

  /** Everything the console holds, as a value. */
  datatype Console = Console(
    mode: int, tileType: int,
    mapX: int, mapY: int, tileX: int, tileY: int, tileSheet: int,
    name: string, info: string, input: string, lines: seq<string>)

  /** A console as MapConsole(...) leaves it: every number 0 and every text empty. */
  const NEW_CONSOLE: Console := Console(0, 0, 0, 0, 0, 0, 0, "", "", "", [])

  /** (char) k for a key code. */
  function KeyChar(k: int): char
    requires 0 <= k < 0xD800
  {
    k as char
  }

  /** addInput(k): backspace takes the last character off, any other code adds its lower-case character. */
  function Typed(input: string, k: int): (r: string)
    requires 0 <= k < 0xD800
    ensures k == VK_BACK_SPACE ==> r == if |input| > 0 then input[..|input| - 1] else input
    ensures k != VK_BACK_SPACE ==> r == input + [ToLower(KeyChar(k))]
  {
    if k == VK_BACK_SPACE then
      if |input| > 0 then input[..|input| - 1] else input
    else input + [ToLower(KeyChar(k))]
  }

  /** A backspace takes back the character just typed, and on an empty line does nothing. */
  lemma {:induction false} BackspaceUndoes(input: string, k: int)
    requires 0 <= k < 0xD800 && k != VK_BACK_SPACE
    ensures Typed(Typed(input, k), VK_BACK_SPACE) == input
    ensures Typed("", VK_BACK_SPACE) == ""
  {
    assert (input + [ToLower(KeyChar(k))])[..|input|] == input;
  }

  /** The letter keys type lower-case letters, the digit keys digits. */
  lemma {:induction false} KeysTypeLowerCase(input: string, k: int)
    requires VK_A <= k <= VK_Z || VK_0 <= k <= VK_9
    ensures |Typed(input, k)| == |input| + 1 && Typed(input, k)[..|input|] == input
    ensures VK_A <= k <= VK_Z ==> Typed(input, k)[|input|] as int == k + 32 && 'a' <= Typed(input, k)[|input|] <= 'z'
    ensures VK_0 <= k <= VK_9 ==> Typed(input, k)[|input|] as int == k
  {
    assert Typed(input, k)[..|input|] == input;
  }

  /** The log lines displayConsole draws, top row first: the newest line, then older ones, at most six. */
  function Shown(lines: seq<string>): (r: seq<string>)
    ensures |r| == if |lines| < SHOWN_LINES then |lines| else SHOWN_LINES
    ensures forall i :: 0 <= i < |r| ==> r[i] == lines[|lines| - 1 - i]
  {
    var n := if |lines| < SHOWN_LINES then |lines| else SHOWN_LINES;
    seq(n, i requires 0 <= i < n => lines[|lines| - 1 - i])
  }

  /** A new line goes to the top row and pushes the others one row down, the oldest of six dropping out of view. */
  lemma {:induction false} NewLineOnTop(lines: seq<string>, line: string)
    ensures Shown(lines + [line])[0] == line
    ensures Shown(lines + [line])[1..] == Shown(lines)[..|Shown(lines + [line])| - 1]
  {
    var a := Shown(lines + [line]);
    var b := Shown(lines);
    assert |a| - 1 <= |b|;
    forall i | 0 <= i < |a| - 1
      ensures a[1..][i] == b[i]
    {
      assert a[i + 1] == (lines + [line])[|lines| - 1 - i];
    }
  }

  /** MapConsole. */
  class MapConsole {
    var mode: int
    var tileType: int
    var mapX: int
    var mapY: int
    var tileX: int
    var tileY: int
    var tileSheet: int
    var name: string
    var info: string
    var inputString: string
    /** consoleLines, oldest first. */
    var consoleLines: seq<string>

    function Abs(): (c: Console)
      reads this
      ensures c.lines == consoleLines && c.input == inputString
    {
      Console(mode, tileType, mapX, mapY, tileX, tileY, tileSheet, name, info, inputString, consoleLines)
    }

    /** MapConsole(g, offsets...): the drawing surface and offsets are not part of this model. */
    constructor ()
      ensures Abs() == NEW_CONSOLE
    {
      mode, tileType, mapX, mapY, tileX, tileY, tileSheet := 0, 0, 0, 0, 0, 0, 0;
      name, info, inputString := "", "", "";
      consoleLines := [];
    }

    method SetMode(mode: int)
      modifies this
      ensures Abs() == old(Abs()).(mode := mode)
    {
      this.mode := mode;
    }

    method SetType(t: int)
      modifies this
      ensures Abs() == old(Abs()).(tileType := t)
    {
      tileType := t;
    }

    method SetName(name: string)
      modifies this
      ensures Abs() == old(Abs()).(name := name)
    {
      this.name := name;
    }

    method SetInfo(info: string)
      modifies this
      ensures Abs() == old(Abs()).(info := info)
    {
      this.info := info;
    }

    /** addToConsole(line): the log is appended to and never cut. */
    method AddToConsole(line: string)
      modifies this
      ensures Abs() == old(Abs()).(lines := old(consoleLines) + [line])
    {
      consoleLines := consoleLines + [line];
    }

    /** updateCurrentTileSheet(sheet): stores the sheet and logs exactly one line naming it. */
    method UpdateCurrentTileSheet(sheet: int)
      modifies this
      ensures Abs() == old(Abs()).(tileSheet := sheet, lines := old(consoleLines) + ["Current Tile Sheet #" + IntToString(sheet)])
    {
      tileSheet := sheet;
      AddToConsole("Current Tile Sheet #" + IntToString(sheet));
    }

    method UpdateMapCoords(x: int, y: int)
      modifies this
      ensures Abs() == old(Abs()).(mapX := x, mapY := y)
    {
      mapX := x;
      mapY := y;
    }

    method UpdateTileSheetCoords(x: int, y: int)
      modifies this
      ensures Abs() == old(Abs()).(tileX := x, tileY := y)
    {
      tileX := x;
      tileY := y;
    }

    method GetInput() returns (s: string)
      ensures s == inputString
    {
      s := inputString;
    }

    /** addInput(k). */
    method AddInput(k: int)
      requires 0 <= k < 0xD800
      modifies this
      ensures Abs() == old(Abs()).(input := Typed(old(inputString), k))
    {
      if k == VK_BACK_SPACE {
        if |inputString| > 0 {
          inputString := inputString[..|inputString| - 1];
        }
      } else {
        inputString := inputString + [ToLower(k as char)];
      }
    }

    /** resetInput(). */
    method ResetInput()
      modifies this
      ensures Abs() == old(Abs()).(input := "")
    {
      inputString := "";
    }

    /** The loop of displayConsole: the lines it draws, top row first. */
    method DisplayedLines() returns (rows: seq<string>)
      ensures rows == Shown(consoleLines)
    {
      rows := [];
      var i := 0;
      while i < |consoleLines|
        invariant 0 <= i <= |consoleLines| && i <= SHOWN_LINES && |rows| == i
        invariant forall j :: 0 <= j < i ==> rows[j] == consoleLines[|consoleLines| - 1 - j]
      {
        if i < SHOWN_LINES {
          rows := rows + [consoleLines[|consoleLines| - 1 - i]];
        } else {
          break;
        }
        i := i + 1;
      }
    }
  }
}
