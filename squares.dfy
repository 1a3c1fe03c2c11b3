/**
 * Square names and board geometry (components/ChessBoard.tsx): the grid the board is drawn on,
 * the arithmetic that turns a square name back into grid coordinates, and square colouring.
 */
module Squares {

  /** An algebraic square name such as "e4". */
  type Square = string

  /** The file letters left to right and the rank digits top to bottom, as the board grid lists them. */
  const Files: seq<char> := ['a', 'b', 'c', 'd', 'e', 'f', 'g', 'h']
  const Ranks: seq<char> := ['8', '7', '6', '5', '4', '3', '2', '1']

  predicate IsSquare(s: string) {
    |s| == 2 && 'a' <= s[0] <= 'h' && '1' <= s[1] <= '8'
  }

  lemma FileAt(x: nat)
    requires x < 8
    ensures Files[x] as int == 'a' as int + x
  {
    assert x == 0 || x == 1 || x == 2 || x == 3 || x == 4 || x == 5 || x == 6 || x == 7;
  }

  lemma RankAt(y: nat)
    requires y < 8
    ensures Ranks[y] as int == '8' as int - y
  {
    assert y == 0 || y == 1 || y == 2 || y == 3 || y == 4 || y == 5 || y == 6 || y == 7;
  }

  /** The square drawn in grid column `x` (file index) and grid row `y` (rank index). */
  function GridSquare(x: nat, y: nat): (sq: Square)
    requires x < 8 && y < 8
    ensures IsSquare(sq)
    ensures sq[0] as int == 'a' as int + x && sq[1] as int == '8' as int - y
  {
    FileAt(x);
    RankAt(y);
    [Files[x], Ranks[y]]
  }

  datatype Coords = Coords(x: int, y: int)

  /** Grid coordinates recovered from a square name by character arithmetic. */
  function SquareCoords(sq: Square): (c: Coords)
    requires IsSquare(sq)
    ensures 0 <= c.x < 8 && 0 <= c.y < 8
  {
    Coords(sq[0] as int - 'a' as int, 8 - (sq[1] as int - '0' as int))
  }

  /** The grid square at a name's coordinates is that name. */
  lemma CoordsGridSquare(sq: Square)
    requires IsSquare(sq)
    ensures GridSquare(SquareCoords(sq).x, SquareCoords(sq).y) == sq
  {
    var c := SquareCoords(sq);
    assert GridSquare(c.x, c.y) == [sq[0], sq[1]] == sq;
  }

  /** Reading the coordinates of any grid square gives back its column and row. */
  lemma GridSquareCoords(x: nat, y: nat)
    requires x < 8 && y < 8
    ensures SquareCoords(GridSquare(x, y)) == Coords(x, y)
  {
  }

  /** Two squares with the same coordinates are the same square. */
  lemma SquareCoordsInjective(s: Square, t: Square)
    requires IsSquare(s) && IsSquare(t)
    ensures SquareCoords(s) == SquareCoords(t) <==> s == t
  {
    if SquareCoords(s) == SquareCoords(t) {
      CoordsGridSquare(s);
      CoordsGridSquare(t);
    }
  }

  /** Colouring of the grid cell in row `rankIndex`, column `fileIndex`. */
  predicate IsLight(rankIndex: nat, fileIndex: nat) {
    (rankIndex + fileIndex) % 2 == 0
  }

  /** Colouring of a named square, read off its file letter and rank digit. */
  predicate SquareIsLight(sq: Square)
    requires IsSquare(sq)
  {
    IsLight(8 - (sq[1] as int - '0' as int), sq[0] as int - 'a' as int)
  }

  /** The square drawn in a grid cell has that cell's colour. */
  lemma GridSquareLight(x: nat, y: nat)
    requires x < 8 && y < 8
    ensures SquareIsLight(GridSquare(x, y)) <==> IsLight(y, x)
  {
  }

  /** a8 and h1 are light squares, a1 and h8 dark ones. */
  lemma LightCorners()
    ensures SquareIsLight("a8") && SquareIsLight("h1") && !SquareIsLight("a1") && !SquareIsLight("h8")
  {
  }

  /** Horizontally or vertically adjacent cells differ in colour. */
  lemma LightAlternates(x: nat, y: nat)
    requires x < 8 && y < 8
    ensures x < 7 ==> IsLight(y, x) != IsLight(y, x + 1)
    ensures y < 7 ==> IsLight(y, x) != IsLight(y + 1, x)
  {
  }

  /** A square is light exactly when its file number (a = 1) plus its rank number is odd. */
  lemma LightIffOddSum(sq: Square)
    requires IsSquare(sq)
    ensures SquareIsLight(sq) <==> ((sq[0] as int - 'a' as int + 1) + (sq[1] as int - '0' as int)) % 2 == 1
  {
  }
}
