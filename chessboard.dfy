/**
 * The board component (components/ChessBoard.tsx): the per-square predicates used while
 * drawing, the animation origin of a piece that just moved, and the two-field selection
 * cursor driven by clicks.
 */
module ChessBoard {
  import opened Wrappers
  import opened Squares
  import opened Oracle

  /** The square is the selected one or an endpoint of the last move. */
  predicate IsSquareHighlighted(sq: Square, selected: Option<Square>, lastMove: Option<FromTo>) {
    selected == Some(sq) || (lastMove.Some? && (lastMove.value.from == sq || lastMove.value.to == sq))
  }

  /** The squares a highlight can fall on. */
  function HighlightSet(selected: Option<Square>, lastMove: Option<FromTo>): set<Square> {
    (if selected.Some? then {selected.value} else {}) +
    (if lastMove.Some? then {lastMove.value.from, lastMove.value.to} else {})
  }

  /** Exactly the selection and the last move's endpoints are highlighted: at most three squares. */
  lemma HighlightedSquares(selected: Option<Square>, lastMove: Option<FromTo>)
    ensures forall sq :: IsSquareHighlighted(sq, selected, lastMove) <==> sq in HighlightSet(selected, lastMove)
    ensures |HighlightSet(selected, lastMove)| <= 3
  {
    var s := if selected.Some? then {selected.value} else {};
    var m := if lastMove.Some? then {lastMove.value.from, lastMove.value.to} else {};
    assert |s| <= 1;
    assert |m| <= 2;
    assert |s + m| <= |s| + |m| by { SubadditiveUnion(s, m); }
  }

  lemma SubadditiveUnion<T>(a: set<T>, b: set<T>)
    ensures |a + b| <= |a| + |b|
  {
    assert a + b == a + (b - a);
    assert |a + (b - a)| == |a| + |b - a|;
  }

  /** Some listed move ends on the square. */
  predicate IsValidDestination(sq: Square, validMoves: seq<MoveRecord>) {
    exists i :: 0 <= i < |validMoves| && validMoves[i].to == sq
  }

  /** The square holds the king of the side to move, and that side is in check. */
  predicate IsCheckSquare(r: Rules, fen: Fen, sq: Square) {
    match r.pieceAt(fen, sq)
    case None => false
    case Some(piece) => piece.kind == King && r.inCheck(fen) && piece.color == r.turn(fen)
  }

  /** The check square is marked only while the side to move is in check, and only on its king. */
  lemma CheckSquareIsKingInCheck(r: Rules, fen: Fen, sq: Square)
    ensures IsCheckSquare(r, fen, sq) <==> r.inCheck(fen) && r.pieceAt(fen, sq) == Some(Piece(King, r.turn(fen)))
  {
  }

  /** An animation offset, in percent of a square, per axis. */
  datatype Offset = Offset(x: int, y: int)

  /** The offset that draws a piece standing on `to` over the square `from`. */
  function Displacement(from: Square, to: Square): Offset
    requires IsSquare(from) && IsSquare(to)
  {
    var a, b := SquareCoords(from), SquareCoords(to);
    Offset((a.x - b.x) * 100, (a.y - b.y) * 100)
  }

  /** Where the rook of a castling king move starts and ends (the rule of chess). */
  function CastlingRook(kingFrom: Square, kingTo: Square): Option<FromTo> {
    if kingFrom == "e1" && kingTo == "g1" then Some(FromTo("h1", "f1"))
    else if kingFrom == "e1" && kingTo == "c1" then Some(FromTo("a1", "d1"))
    else if kingFrom == "e8" && kingTo == "g8" then Some(FromTo("h8", "f8"))
    else if kingFrom == "e8" && kingTo == "c8" then Some(FromTo("a8", "d8"))
    else None
  }

  function Abs(n: int): nat {
    if n < 0 then -n else n
  }

  predicate HoldsKing(p: Option<Piece>) {
    p.Some? && p.value.kind == King
  }

  /**
   * The offset a piece arriving on `square` is animated from. The moved piece starts over the
   * last move's origin; after castling, the rook starts over its own corner square.
   */
  function AnimationOrigin(r: Rules, fen: Fen, square: Square, lastMove: Option<FromTo>): (o: Option<Offset>)
    requires IsSquare(square)
    requires lastMove.Some? ==> IsSquare(lastMove.value.from) && IsSquare(lastMove.value.to)
    ensures lastMove.None? || r.pieceAt(fen, square).None? ==> o.None?
    ensures lastMove.Some? && r.pieceAt(fen, square).Some? && square == lastMove.value.to ==>
      o == Some(Displacement(lastMove.value.from, lastMove.value.to))
  {
    if lastMove.None? || r.pieceAt(fen, square).None? then None
    else
      var fromSq, toSq := lastMove.value.from, lastMove.value.to;
      if square == toSq then Some(Displacement(fromSq, toSq))
      else if HoldsKing(r.pieceAt(fen, toSq)) && Abs(SquareCoords(fromSq).x - SquareCoords(toSq).x) > 1 then
        if fromSq == "e1" && toSq == "g1" && square == "f1" then Some(Offset(200, 0))
        else if fromSq == "e1" && toSq == "c1" && square == "d1" then Some(Offset(-300, 0))
        else if fromSq == "e8" && toSq == "g8" && square == "f8" then Some(Offset(200, 0))
        else if fromSq == "e8" && toSq == "c8" && square == "d8" then Some(Offset(-300, 0))
        else None
      else None
  }

  /**
   * Every other animated square is the rook's landing square after a king castled, animated
   * from its corner.
   */
  lemma AnimationOriginCastling(r: Rules, fen: Fen, square: Square, lastMove: Option<FromTo>)
    requires IsSquare(square)
    requires lastMove.Some? ==> IsSquare(lastMove.value.from) && IsSquare(lastMove.value.to)
    ensures var o := AnimationOrigin(r, fen, square, lastMove);
      o.Some? && square != lastMove.value.to ==>
        && HoldsKing(r.pieceAt(fen, lastMove.value.to))
        && CastlingRook(lastMove.value.from, lastMove.value.to).Some?
        && var rook := CastlingRook(lastMove.value.from, lastMove.value.to).value;
           square == rook.to && o.value == Displacement(rook.from, rook.to)
  {
    if lastMove.Some? && r.pieceAt(fen, square).Some? && square != lastMove.value.to {
      CastlingGeometry();
    }
  }

  /** After a king castled, its rook is animated from its corner. */
  lemma CastlingRookAnimated(r: Rules, fen: Fen, square: Square, lastMove: Option<FromTo>)
    requires IsSquare(square)
    requires lastMove.Some? ==> IsSquare(lastMove.value.from) && IsSquare(lastMove.value.to)
    ensures lastMove.Some? && r.pieceAt(fen, square).Some? && HoldsKing(r.pieceAt(fen, lastMove.value.to))
            && CastlingRook(lastMove.value.from, lastMove.value.to) == Some(FromTo(CornerOf(square), square)) ==>
      AnimationOrigin(r, fen, square, lastMove) == Some(Displacement(CornerOf(square), square))
  {
    if lastMove.Some? && r.pieceAt(fen, square).Some? {
      CastlingGeometry();
    }
  }

  /** The four castling moves: the king travels two files, and the rook offsets are +2 and -3 files. */
  lemma CastlingGeometry()
    ensures SquareCoords("e1").x == 4 && SquareCoords("g1").x == 6 && SquareCoords("c1").x == 2
    ensures SquareCoords("e8").x == 4 && SquareCoords("g8").x == 6 && SquareCoords("c8").x == 2
    ensures Displacement("h1", "f1") == Offset(200, 0) && Displacement("a1", "d1") == Offset(-300, 0)
    ensures Displacement("h8", "f8") == Offset(200, 0) && Displacement("a8", "d8") == Offset(-300, 0)
  {
    assert SquareCoords("h1") == Coords(7, 7) && SquareCoords("f1") == Coords(5, 7);
    assert SquareCoords("a1") == Coords(0, 7) && SquareCoords("d1") == Coords(3, 7);
    assert SquareCoords("h8") == Coords(7, 0) && SquareCoords("f8") == Coords(5, 0);
    assert SquareCoords("a8") == Coords(0, 0) && SquareCoords("d8") == Coords(3, 0);
  }

  /** The corner a castling rook comes from, given the square it lands on. */
  function CornerOf(rookTo: Square): Square {
    if rookTo == "f1" then "h1" else if rookTo == "d1" then "a1"
    else if rookTo == "f8" then "h8" else if rookTo == "d8" then "a8" else rookTo
  }

  /** A piece of the side to move stands on `sq`. */
  predicate OwnPiece(r: Rules, fen: Fen, sq: Square) {
    r.pieceAt(fen, sq).Some? && r.pieceAt(fen, sq).value.color == r.turn(fen)
  }

  /**
   * The board's selection state. A selection is always a piece of the side to move in the
   * position the board last saw, and the remembered moves are that piece's legal moves.
   */
  class BoardInput {
    const rules: Rules
    var selected: Option<Square>
    var validMoves: seq<MoveRecord>
    var seenFen: Fen

    ghost predicate Valid()
      reads this
    {
      && (selected.None? ==> validMoves == [])
      && (selected.Some? ==> OwnPiece(rules, seenFen, selected.value) && validMoves == rules.movesFrom(seenFen, selected.value))
    }

    constructor (r: Rules, fen: Fen)
      ensures Valid() && rules == r && selected.None? && validMoves == [] && seenFen == fen
    {
      rules := r;
      selected := None;
      validMoves := [];
      seenFen := fen;
    }

    /** The effect keyed on the position: any change of position clears the selection. */
    method Sync(fen: Fen)
      requires Valid()
      modifies this
      ensures Valid() && seenFen == fen
      ensures fen != old(seenFen) ==> selected.None? && validMoves == []
      ensures fen == old(seenFen) ==> selected == old(selected) && validMoves == old(validMoves)
    {
      if fen != seenFen {
        selected := None;
        validMoves := [];
        seenFen := fen;
      }
    }

    /**
     * A click on `sq` in the position the board shows; the result is the move handed to
     * `onMove`, if any. A submitted move always starts on a piece of the side to move and ends
     * on a destination the rules list for that piece.
     */
    method Click(sq: Square, disabled: bool, thinking: bool) returns (submit: Option<MoveRequest>)
      requires Valid()
      modifies this
      ensures Valid() && seenFen == old(seenFen)
      ensures
        if disabled || thinking then
          submit.None? && selected == old(selected) && validMoves == old(validMoves)
        else if old(selected) == Some(sq) then
          submit.None? && selected.None? && validMoves == []
        else if old(selected).Some? && IsValidDestination(sq, old(validMoves)) then
          submit == Some(MoveRequest(old(selected).value, sq, Some("q"))) && selected.None? && validMoves == []
        else if OwnPiece(rules, seenFen, sq) then
          submit.None? && selected == Some(sq) && validMoves == rules.movesFrom(seenFen, sq)
        else if old(selected).Some? then
          submit.None? && selected.None? && validMoves == []
        else
          submit.None? && selected == old(selected) && validMoves == old(validMoves)
      ensures submit.Some? ==>
        && OwnPiece(rules, seenFen, submit.value.from)
        && IsValidDestination(submit.value.to, rules.movesFrom(seenFen, submit.value.from))
    {
      submit := None;
      if disabled || thinking {
        return;
      }
      if selected == Some(sq) {
        selected := None;
        validMoves := [];
        return;
      }
      var piece := rules.pieceAt(seenFen, sq);
      var isPieceMine := piece.Some? && piece.value.color == rules.turn(seenFen);
      if selected.Some? {
        if IsValidDestination(sq, validMoves) {
          submit := Some(MoveRequest(selected.value, sq, Some("q")));
          selected := None;
          validMoves := [];
          return;
        }
        if isPieceMine {
          selected := Some(sq);
          validMoves := rules.movesFrom(seenFen, sq);
          return;
        }
        selected := None;
        validMoves := [];
      } else {
        if isPieceMine {
          selected := Some(sq);
          validMoves := rules.movesFrom(seenFen, sq);
        }
      }
    }
  }
}
