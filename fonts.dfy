/**
 * Where a character's picture lies in the tile sheet.  Text is lower-cased,
 * each character is turned into a font position (26 letters, then '.', ',',
 * '!', '?' and the space; digits reuse the first ten positions), and the
 * small font packs two positions into each tile, one per top quarter, with
 * the digits in the bottom quarters.
 */
module Fonts {
  import opened JavaLang

  /** The first tile of the small font on the sheet (row 0, column 14). */
  const SMALL_FONT_FIRST_TILE: int := 14
  /** The row of the large font on the sheet. */
  const LARGE_FONT_ROW: int := 6
  const SHEET_COLUMNS: int := 32

  /** getAsciiPos(c): the font position of the character code c. */
  function AsciiPos(c: int): (r: int)
    ensures 0 <= r <= 30
  {
    if c == 33 then 28
    else if c == 44 then 27
    else if c == 46 then 26
    else if c == 63 then 29
    else if c == 32 then 30
    else if 97 <= c <= 97 + 26 then c - 97
    else if 48 <= c <= 48 + 10 then c - 48
    else 29
  }

  /** The letters take positions 0 to 25 in alphabet order, the digits 0 to 9; the punctuation has the positions after the letters, and everything else is drawn as '?'. */
  lemma {:induction false} AsciiPositions(c: int)
    ensures 'a' as int <= c <= 'z' as int ==> AsciiPos(c) == c - 'a' as int && AsciiPos(c) < 26
    ensures '0' as int <= c <= '9' as int ==> AsciiPos(c) == c - '0' as int && AsciiPos(c) < 10
    ensures AsciiPos('.' as int) == 26 && AsciiPos(',' as int) == 27 && AsciiPos('!' as int) == 28
    ensures AsciiPos('?' as int) == 29 && AsciiPos(' ' as int) == 30
    ensures c < 32 || 123 < c ==> AsciiPos(c) == 29
  {
  }

  /** Two different letters never share a position. */
  lemma {:induction false} LettersApart(a: char, b: char)
    requires 'a' <= a <= 'z' && 'a' <= b <= 'z' && a != b
    ensures AsciiPos(a as int) != AsciiPos(b as int)
  {
    AsciiPositions(a as int);
    AsciiPositions(b as int);
  }

  /**
   * The letter range runs one past 'z' and the digit range one past '9':
   * '{' lands on the position of '.', and ':' on that of 'k'.
   */
  lemma {:induction false} RangesRunOnePast()
    ensures AsciiPos('{' as int) == AsciiPos('.' as int) == 26
    ensures AsciiPos(':' as int) == AsciiPos('k' as int) == 10
  {
  }

  /** The large-font tile renderTextOverlay draws for position c. */
  function LargeTile(c: int): (t: int)
    ensures 0 <= c <= 30 ==> LARGE_FONT_ROW * SHEET_COLUMNS <= t <= LARGE_FONT_ROW * SHEET_COLUMNS + 30
  {
    LARGE_FONT_ROW * SHEET_COLUMNS + c
  }

  /** In the large font a digit is drawn with the tile of the letter at the same position: '0' as 'a', '1' as 'b', and so on. */
  lemma {:induction false} LargeDigitsLookLikeLetters(d: int)
    requires 0 <= d < 10
    ensures LargeTile(AsciiPos('0' as int + d)) == LargeTile(AsciiPos('a' as int + d))
  {
    AsciiPositions('0' as int + d);
    AsciiPositions('a' as int + d);
  }

  /** getSmallFontPosition(c): two positions per tile. */
  function SmallFontPosition(c: int): (t: int)
    ensures 0 <= c ==> SMALL_FONT_FIRST_TILE <= t && (t - SMALL_FONT_FIRST_TILE) * 2 <= c < (t - SMALL_FONT_FIRST_TILE) * 2 + 2
  {
    0 * SHEET_COLUMNS + SMALL_FONT_FIRST_TILE + IDiv(c, 2)
  }

  /** getSmallFontQuadrant(c, isNumber): letters in the top quarters, digits in the bottom ones, the parity choosing the side. */
  function SmallFontQuadrant(c: int, isNumber: bool): (q: int)
    ensures 0 <= c && !isNumber ==> q == c % 2
    ensures 0 <= c && isNumber ==> q == 3 - c % 2
  {
    if isNumber then (1 - IRem(c, 2)) + 2 else IRem(c, 2)
  }

  /** The small-font tile and quarter of a position. */
  function SmallGlyph(c: int, isNumber: bool): (int, int) {
    (SmallFontPosition(c), SmallFontQuadrant(c, isNumber))
  }

  /**
   * In the small font different positions of the same kind get different
   * pictures, and a letter's picture is never a digit's.
   */
  lemma {:induction false} SmallGlyphsApart(a: int, b: int, aNumber: bool, bNumber: bool)
    requires 0 <= a && 0 <= b
    ensures aNumber != bNumber ==> SmallGlyph(a, aNumber) != SmallGlyph(b, bNumber)
    ensures aNumber == bNumber && a != b ==> SmallGlyph(a, aNumber) != SmallGlyph(b, bNumber)
  {
    if aNumber == bNumber && a != b {
      assert a == 2 * (a / 2) + a % 2 && b == 2 * (b / 2) + b % 2;
    }
  }

  /** The position the text loops use for the character ch: the text is lower-cased first. */
  function CharPos(ch: char): (r: int)
    ensures 0 <= r <= 30
  {
    AsciiPos(ToLower(ch) as int)
  }

  /** Upper- and lower-case letters are drawn alike. */
  lemma {:induction false} CaseIgnored(ch: char)
    requires 'A' <= ch <= 'Z'
    ensures CharPos(ch) == CharPos((ch as int + 32) as char) == ch as int - 'A' as int
  {
    AsciiPositions(ch as int + 32);
  }
}
