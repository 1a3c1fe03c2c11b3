/**
 * The chess rules library the front end delegates to (chess.js), as an abstract oracle.
 * Chess itself is not implemented: `Rules` is a record of functions over positions (FEN strings)
 * and `WellFormed` states the few facts about those functions that the front end relies on.
 * `Chess` is the mutable game object the front end holds: a current position plus the undo log.
 */
module Oracle {
  import opened Wrappers
  import opened Squares

  /** A position in Forsyth-Edwards Notation. */
  type Fen = string

  /** The position a freshly constructed game starts from. */
  const StartFen: Fen := "rnbqkbnr/pppppppp/8/8/8/8/PPPPPPPP/RNBQKBNR w KQkq - 0 1"

  datatype Color = White | Black

  function Opposite(c: Color): (o: Color)
    ensures o != c
  {
    if c == White then Black else White
  }

  function ColorName(c: Color): string {
    if c == White then "White" else "Black"
  }

  datatype PieceType = Pawn | Knight | Bishop | Rook | Queen | King

  datatype Piece = Piece(kind: PieceType, color: Color)

  /** The board as an 8x8 grid, rank 8 first, file a first in each rank; empty cells are None. */
  type Board = seq<seq<Option<Piece>>>

  function BackRank(c: Color): seq<Option<Piece>> {
    [Some(Piece(Rook, c)), Some(Piece(Knight, c)), Some(Piece(Bishop, c)), Some(Piece(Queen, c)),
     Some(Piece(King, c)), Some(Piece(Bishop, c)), Some(Piece(Knight, c)), Some(Piece(Rook, c))]
  }

  function PawnRank(c: Color): seq<Option<Piece>> {
    [Some(Piece(Pawn, c)), Some(Piece(Pawn, c)), Some(Piece(Pawn, c)), Some(Piece(Pawn, c)),
     Some(Piece(Pawn, c)), Some(Piece(Pawn, c)), Some(Piece(Pawn, c)), Some(Piece(Pawn, c))]
  }

  const EmptyRank: seq<Option<Piece>> := [None, None, None, None, None, None, None, None]

  /** The standard starting arrangement. */
  const StartBoard: Board :=
    [BackRank(Black), PawnRank(Black), EmptyRank, EmptyRank,
     EmptyRank, EmptyRank, PawnRank(White), BackRank(White)]

  /** A move as submitted: `move({from, to, promotion})`. */
  datatype MoveRequest = MoveRequest(from: Square, to: Square, promotion: Option<string>)

  /** The verbose record of an accepted move. */
  datatype MoveRecord = MoveRecord(from: Square, to: Square, san: string, captured: Option<PieceType>, flags: string)

  /** What `move` does: accept (giving the new position), return null, or throw. */
  datatype MoveOutcome = Accepted(next: Fen, record: MoveRecord) | Rejected | Raised(message: string)

  /** The endpoints of a move, as the board highlights them. */
  datatype FromTo = FromTo(from: Square, to: Square)

  /** The rules oracle: every query the front end makes of chess.js, as a function of the position. */
  datatype Rules = Rules(
    play: (Fen, MoveRequest) -> MoveOutcome,   // move({from, to, promotion})
    playSan: (Fen, string) -> MoveOutcome,     // move(san)
    turn: Fen -> Color,
    inCheck: Fen -> bool,                      // inCheck() and its alias isCheck()
    isCheckmate: Fen -> bool,
    isDraw: Fen -> bool,
    isGameOver: Fen -> bool,
    pieceAt: (Fen, Square) -> Option<Piece>,   // get(square)
    movesFrom: (Fen, Square) -> seq<MoveRecord>, // moves({square, verbose: true})
    legalMoves: Fen -> seq<string>,            // moves()
    board: Fen -> Board)                       // board()

  /** An accepted move passes the turn, names real squares and never starts from a mated position. */
  ghost predicate LegalStep(r: Rules, p: Fen, o: MoveOutcome) {
    o.Accepted? ==>
      && r.turn(o.next) == Opposite(r.turn(p))
      && IsSquare(o.record.from) && IsSquare(o.record.to)
      && !r.isCheckmate(p)
  }

  /** The SAN of an accepted move names that same move in that position. */
  ghost predicate SanReplays(r: Rules, p: Fen, m: MoveRequest) {
    r.play(p, m).Accepted? ==> r.playSan(p, r.play(p, m).record.san) == r.play(p, m)
  }

  /** chess.js reads back the SAN it writes; kept apart from `WellFormed`, which the game needs. */
  ghost predicate ReadsOwnSan(r: Rules) {
    forall p, m :: SanReplays(r, p, m)
  }

  ghost predicate WellFormed(r: Rules) {
    && (forall p, m :: LegalStep(r, p, r.play(p, m)))
    && (forall p, san :: LegalStep(r, p, r.playSan(p, san)))
    && (forall p :: r.isGameOver(p) == (r.isCheckmate(p) || r.isDraw(p)))
    && (forall p :: r.isCheckmate(p) ==> r.inCheck(p))
    && r.turn(StartFen) == White
  }

  /** `board()` of the start position is the standard arrangement; kept apart like `ReadsOwnSan`. */
  ghost predicate StandardStart(r: Rules) {
    r.board(StartFen) == StartBoard
  }

  /** One undo-log entry: the position before a move and the move's record. */
  datatype Entry = Entry(before: Fen, record: MoveRecord)

  /** `history()`: the SAN of every logged move, oldest first. */
  function Sans(log: seq<Entry>): (h: seq<string>)
    ensures |h| == |log|
    ensures forall i :: 0 <= i < |log| ==> h[i] == log[i].record.san
  {
    seq(|log|, i requires 0 <= i < |log| => log[i].record.san)
  }

  /** The position reached by the move of entry `i`. */
  function After(log: seq<Entry>, current: Fen, i: nat): Fen
    requires i < |log|
  {
    if i + 1 < |log| then log[i + 1].before else current
  }

  /** The position the log starts from. */
  function Origin(log: seq<Entry>, current: Fen): Fen {
    if |log| == 0 then current else log[0].before
  }

  /** Every logged move passed the turn to the other side. */
  ghost predicate Alternating(r: Rules, log: seq<Entry>, current: Fen) {
    forall i {:trigger After(log, current, i)} :: 0 <= i < |log| ==> r.turn(log[i].before) == Opposite(r.turn(After(log, current, i)))
  }

  /** Dropping the newest entry (and returning to its position) keeps the log alternating. */
  lemma AlternatingPrefix(r: Rules, log: seq<Entry>, current: Fen)
    requires |log| > 0 && Alternating(r, log, current)
    ensures Alternating(r, log[..|log| - 1], log[|log| - 1].before)
    ensures Origin(log[..|log| - 1], log[|log| - 1].before) == Origin(log, current)
    ensures r.turn(log[|log| - 1].before) == Opposite(r.turn(current))
  {
    var prefix, prev := log[..|log| - 1], log[|log| - 1].before;
    assert After(log, current, |log| - 1) == current;
    forall i | 0 <= i < |prefix|
      ensures r.turn(prefix[i].before) == Opposite(r.turn(After(prefix, prev, i)))
    {
      assert prefix[i] == log[i];
      assert After(prefix, prev, i) == After(log, current, i);
    }
  }

  /** Side-to-move parity: an even number of logged moves leaves the starting side to move. */
  lemma {:induction false} TurnParity(r: Rules, log: seq<Entry>, current: Fen)
    requires Alternating(r, log, current)
    ensures r.turn(current) == if |log| % 2 == 0 then r.turn(Origin(log, current)) else Opposite(r.turn(Origin(log, current)))
  {
    if |log| > 0 {
      AlternatingPrefix(r, log, current);
      TurnParity(r, log[..|log| - 1], log[|log| - 1].before);
    }
  }

  function LastMoveOf(log: seq<Entry>): Option<FromTo> {
    if |log| == 0 then None else Some(FromTo(log[|log| - 1].record.from, log[|log| - 1].record.to))
  }

  /** The chess.js game object: it is updated in place by `move` and `undo`. */
  class Chess {
    const rules: Rules
    var current: Fen
    var log: seq<Entry>

    ghost predicate Valid()
      reads this
    {
      WellFormed(rules) && Alternating(rules, log, current) && Origin(log, current) == StartFen
    }

    /** `new Chess()`: the starting position with an empty log. */
    constructor (r: Rules)
      requires WellFormed(r)
      ensures Valid() && rules == r && current == StartFen && log == [] && History() == []
    {
      rules := r;
      current := StartFen;
      log := [];
    }

    function History(): seq<string>
      reads this
    {
      Sans(log)
    }

    /** White is to move exactly after an even number of moves. */
    lemma WhiteToMoveIffEven()
      requires Valid()
      ensures rules.turn(current) == White <==> |log| % 2 == 0
    {
      TurnParity(rules, log, current);
    }

    method Move(req: MoveRequest) returns (o: MoveOutcome)
      requires Valid()
      modifies this
      ensures Valid()
      ensures o == rules.play(old(current), req)
      ensures o.Accepted? ==> current == o.next && log == old(log) + [Entry(old(current), o.record)]
      ensures !o.Accepted? ==> current == old(current) && log == old(log)
    {
      o := rules.play(current, req);
      if o.Accepted? {
        Extend(o);
      }
    }

    method MoveSan(san: string) returns (o: MoveOutcome)
      requires Valid()
      modifies this
      ensures Valid()
      ensures o == rules.playSan(old(current), san)
      ensures o.Accepted? ==> current == o.next && log == old(log) + [Entry(old(current), o.record)]
      ensures !o.Accepted? ==> current == old(current) && log == old(log)
    {
      o := rules.playSan(current, san);
      if o.Accepted? {
        Extend(o);
      }
    }

    /** Logs an accepted move that passes the turn. */
    method Extend(o: MoveOutcome)
      requires Valid() && o.Accepted? && LegalStep(rules, current, o)
      modifies this
      ensures Valid()
      ensures current == o.next && log == old(log) + [Entry(old(current), o.record)]
    {
      ghost var was := log;
      log := log + [Entry(current, o.record)];
      current := o.next;
      forall i | 0 <= i < |log|
        ensures rules.turn(log[i].before) == Opposite(rules.turn(After(log, current, i)))
      {
        if i < |was| {
          assert log[i] == was[i];
          assert After(log, current, i) == After(was, old(current), i);
        }
      }
    }

    /** `undo()`: take back the newest move, or do nothing on an empty log. */
    method Undo() returns (undone: Option<MoveRecord>)
      requires Valid()
      modifies this
      ensures Valid()
      ensures |old(log)| == 0 ==> undone.None? && log == old(log) && current == old(current)
      ensures |old(log)| > 0 ==>
        && undone == Some(old(log)[|old(log)| - 1].record)
        && log == old(log)[..|old(log)| - 1]
        && current == old(log)[|old(log)| - 1].before
    {
      if |log| == 0 {
        undone := None;
      } else {
        AlternatingPrefix(rules, log, current);
        undone := Some(log[|log| - 1].record);
        current := log[|log| - 1].before;
        log := log[..|log| - 1];
      }
    }
  }
}
