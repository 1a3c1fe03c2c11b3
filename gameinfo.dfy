/**
 * The information panel (components/GameInfo.tsx): the captured-piece tally computed from
 * the board, and the pairing of the move history into numbered rows.
 */
module GameInfo {
  import opened Wrappers
  import opened Oracle

  /** The types tallied, in the order the lists are built; kings are never tallied. */
  const TalliedTypes: seq<PieceType> := [Pawn, Knight, Bishop, Rook, Queen]

  /** The number of pieces of each tallied type a side starts with. */
  function StartingCount(t: PieceType): nat
    requires t != King
  {
    match t
    case Pawn => 8
    case Knight => 2
    case Bishop => 2
    case Rook => 2
    case Queen => 1
  }

  /** Position of a tallied type in TalliedTypes. */
  function TypeRank(t: PieceType): nat {
    match t
    case Pawn => 0
    case Knight => 1
    case Bishop => 2
    case Rook => 3
    case Queen => 4
    case King => 5
  }

  /** Pieces of colour `c` and type `t` in one row. */
  function CountInRow(row: seq<Option<Piece>>, c: Color, t: PieceType): nat
    decreases |row|
  {
    if row == [] then 0
    else CountInRow(row[..|row| - 1], c, t) + Hit(row[|row| - 1], c, t)
  }

  /** One cell's contribution to a count. */
  function Hit(cell: Option<Piece>, c: Color, t: PieceType): nat {
    if cell == Some(Piece(t, c)) then 1 else 0
  }

  /** Pieces of colour `c` and type `t` on the board. */
  function CountOnBoard(board: Board, c: Color, t: PieceType): nat
    decreases |board|
  {
    if board == [] then 0
    else CountOnBoard(board[..|board| - 1], c, t) + CountInRow(board[|board| - 1], c, t)
  }

  /** How many pieces of type `t` colour `c` has lost; never negative. */
  function Loss(board: Board, c: Color, t: PieceType): nat
    requires t != King
  {
    var d := StartingCount(t) - CountOnBoard(board, c, t);
    if d > 0 then d else 0
  }

  function Repeat(t: PieceType, n: nat): (s: seq<PieceType>)
    ensures |s| == n && forall i :: 0 <= i < n ==> s[i] == t
  {
    seq(n, _ => t)
  }

  /** The captured list over a prefix of the tallied types. */
  function LostOver(board: Board, c: Color, types: seq<PieceType>): seq<PieceType>
    requires King !in types
    decreases |types|
  {
    if types == [] then []
    else LostOver(board, c, types[..|types| - 1]) + Repeat(types[|types| - 1], Loss(board, c, types[|types| - 1]))
  }

  /** The list of colour `c`'s pieces that are off the board. */
  function Captured(board: Board, c: Color): seq<PieceType> {
    LostOver(board, c, TalliedTypes)
  }

  /** A count for every tallied piece, all zero (the `currentPieces` dictionary as initialised). */
  function ZeroCounts(): (counts: map<Piece, nat>)
    ensures forall t, c :: t != King ==> Piece(t, c) in counts && counts[Piece(t, c)] == 0
  {
    var counts := map[
      Piece(Pawn, White) := 0, Piece(Knight, White) := 0, Piece(Bishop, White) := 0,
      Piece(Rook, White) := 0, Piece(Queen, White) := 0,
      Piece(Pawn, Black) := 0, Piece(Knight, Black) := 0, Piece(Bishop, Black) := 0,
      Piece(Rook, Black) := 0, Piece(Queen, Black) := 0];
    assert forall t: PieceType, c: Color :: t != King ==> Piece(t, c) in counts && counts[Piece(t, c)] == 0 by {
      forall t: PieceType, c: Color | t != King
        ensures Piece(t, c) in counts && counts[Piece(t, c)] == 0
      {
        assert t.Pawn? || t.Knight? || t.Bishop? || t.Rook? || t.Queen?;
        assert c.White? || c.Black?;
      }
    }
    counts
  }

  /** `counts` holds, for every tallied piece, its number in the rows `done` and then the cells `cells`. */
  ghost predicate Tallied(counts: map<Piece, nat>, done: Board, cells: seq<Option<Piece>>) {
    forall t, c :: t != King ==>
      Piece(t, c) in counts && counts[Piece(t, c)] == CountOnBoard(done, c, t) + CountInRow(cells, c, t)
  }

  /** The first half of `getCapturedPieces`: count every non-king piece on the board. */
  method CountPieces(board: Board) returns (counts: map<Piece, nat>)
    ensures forall t, c :: t != King ==> Piece(t, c) in counts && counts[Piece(t, c)] == CountOnBoard(board, c, t)
  {
    counts := ZeroCounts();
    assert board[..0] == [];
    var i := 0;
    while i < |board|
      invariant 0 <= i <= |board|
      invariant Tallied(counts, board[..i], [])
    {
      counts := CountRowCells(counts, board[..i], board[i]);
      assert board[..i + 1] == board[..i] + [board[i]];
      i := i + 1;
    }
    assert board[..i] == board;
  }

  /** The inner `row.forEach`: every non-king piece of the row bumps its own count by one. */
  method CountRowCells(counts: map<Piece, nat>, ghost done: Board, row: seq<Option<Piece>>) returns (out: map<Piece, nat>)
    requires Tallied(counts, done, [])
    ensures Tallied(out, done + [row], [])
  {
    out := counts;
    var j := 0;
    while j < |row|
      invariant 0 <= j <= |row|
      invariant Tallied(out, done, row[..j])
    {
      CountCell(out, done, row, j);
      if row[j].Some? && row[j].value.kind != King {
        out := out[row[j].value := out[row[j].value] + 1];
      }
      j := j + 1;
    }
    assert row[..j] == row;
    CountRow(out, done, row);
  }

  /** Counting cell `j` of `row`: only the count of the piece standing there grows, by one. */
  lemma CountCell(counts: map<Piece, nat>, done: Board, row: seq<Option<Piece>>, j: nat)
    requires j < |row| && Tallied(counts, done, row[..j])
    ensures Tallied(if row[j].Some? && row[j].value.kind != King then counts[row[j].value := counts[row[j].value] + 1] else counts,
      done, row[..j + 1])
  {
    assert row[..j + 1][..j] == row[..j];
  }

  /** A finished row adds its own counts to those of the rows before it. */
  lemma CountRow(counts: map<Piece, nat>, done: Board, row: seq<Option<Piece>>)
    requires Tallied(counts, done, row)
    ensures Tallied(counts, done + [row], [])
  {
    assert (done + [row])[..|done|] == done;
  }

  /** `getCapturedPieces`: count the board's pieces, then list each type's shortfall. */
  method GetCapturedPieces(board: Board) returns (white: seq<PieceType>, black: seq<PieceType>)
    ensures white == Captured(board, White) && black == Captured(board, Black)
  {
    var counts := CountPieces(board);
    white, black := [], [];
    var k := 0;
    while k < |TalliedTypes|
      invariant 0 <= k <= |TalliedTypes|
      invariant white == LostOver(board, White, TalliedTypes[..k])
      invariant black == LostOver(board, Black, TalliedTypes[..k])
    {
      var t := TalliedTypes[k];
      assert t != King by { assert k == 0 || k == 1 || k == 2 || k == 3 || k == 4; }
      assert TalliedTypes[..k + 1][..k] == TalliedTypes[..k];
      var whiteLoss := StartingCount(t) - counts[Piece(t, White)];
      var blackLoss := StartingCount(t) - counts[Piece(t, Black)];
      white := PushLoss(white, t, whiteLoss);
      black := PushLoss(black, t, blackLoss);
      k := k + 1;
    }
    assert TalliedTypes[..k] == TalliedTypes;
  }

  /** Appends the piece type once per unit of loss; a loss of zero or less appends nothing. */
  method PushLoss(list: seq<PieceType>, t: PieceType, loss: int) returns (out: seq<PieceType>)
    ensures out == list + Repeat(t, if loss > 0 then loss else 0)
  {
    out := list;
    var n := 0;
    while n < loss
      invariant 0 <= n <= (if loss > 0 then loss else 0)
      invariant out == list + Repeat(t, n)
    {
      out := out + [t];
      n := n + 1;
    }
  }

  lemma RepeatCount(x: PieceType, n: nat, t: PieceType)
    ensures multiset(Repeat(x, n))[t] == if t == x then n else 0
  {
    if n > 0 {
      assert Repeat(x, n) == Repeat(x, n - 1) + [x];
      RepeatCount(x, n - 1, t);
    } else {
      assert Repeat(x, n) == [];
    }
  }

  /** The tally is the five per-type runs, pawns first and queens last. */
  lemma {:induction false} CapturedShape(board: Board, c: Color)
    ensures Captured(board, c) ==
      Repeat(Pawn, Loss(board, c, Pawn)) + Repeat(Knight, Loss(board, c, Knight)) + Repeat(Bishop, Loss(board, c, Bishop))
      + Repeat(Rook, Loss(board, c, Rook)) + Repeat(Queen, Loss(board, c, Queen))
  {
    var T := TalliedTypes;
    assert T[..5] == T;
    assert T[..5][..4] == T[..4] && T[..4][..3] == T[..3] && T[..3][..2] == T[..2] && T[..2][..1] == T[..1] && T[..1][..0] == [];
    assert LostOver(board, c, T[..1]) == Repeat(Pawn, Loss(board, c, Pawn));
    assert LostOver(board, c, T[..2]) == LostOver(board, c, T[..1]) + Repeat(Knight, Loss(board, c, Knight));
    assert LostOver(board, c, T[..3]) == LostOver(board, c, T[..2]) + Repeat(Bishop, Loss(board, c, Bishop));
    assert LostOver(board, c, T[..4]) == LostOver(board, c, T[..3]) + Repeat(Rook, Loss(board, c, Rook));
    assert LostOver(board, c, T[..5]) == LostOver(board, c, T[..4]) + Repeat(Queen, Loss(board, c, Queen));
  }

  /** Each tallied type occurs exactly as often as that side is short of it; kings never occur. */
  lemma CapturedCounts(board: Board, c: Color, t: PieceType)
    ensures multiset(Captured(board, c))[t] == if t == King then 0 else Loss(board, c, t)
  {
    CapturedShape(board, c);
    RepeatCount(Pawn, Loss(board, c, Pawn), t);
    RepeatCount(Knight, Loss(board, c, Knight), t);
    RepeatCount(Bishop, Loss(board, c, Bishop), t);
    RepeatCount(Rook, Loss(board, c, Rook), t);
    RepeatCount(Queen, Loss(board, c, Queen), t);
  }

  /** A side can have lost at most 8 + 2 + 2 + 2 + 1 = 15 pieces. */
  lemma CapturedBound(board: Board, c: Color)
    ensures |Captured(board, c)| <= 15
  {
    CapturedShape(board, c);
  }

  /** The list is grouped by type in the order pawn, knight, bishop, rook, queen. */
  lemma {:induction false} LostOverGrouped(board: Board, c: Color, types: seq<PieceType>)
    requires King !in types
    requires forall i, j :: 0 <= i < j < |types| ==> TypeRank(types[i]) < TypeRank(types[j])
    ensures forall i, j :: 0 <= i <= j < |LostOver(board, c, types)| ==>
      TypeRank(LostOver(board, c, types)[i]) <= TypeRank(LostOver(board, c, types)[j])
    ensures forall i :: 0 <= i < |LostOver(board, c, types)| ==> LostOver(board, c, types)[i] in types
    decreases |types|
  {
    if types != [] {
      var pre, last := types[..|types| - 1], types[|types| - 1];
      LostOverGrouped(board, c, pre);
      var p := LostOver(board, c, pre);
      var r := LostOver(board, c, types);
      assert r == p + Repeat(last, Loss(board, c, last));
      forall i | 0 <= i < |r| ensures r[i] in types && (i < |p| ==> r[i] in pre) {
        if i < |p| {
          assert r[i] == p[i];
          assert p[i] in pre;
        }
      }
      forall i, j | 0 <= i <= j < |r| ensures TypeRank(r[i]) <= TypeRank(r[j]) {
        if j < |p| {
          assert r[i] == p[i] && r[j] == p[j];
        } else if i < |p| {
          var k :| 0 <= k < |pre| && pre[k] == r[i];
          assert TypeRank(types[k]) < TypeRank(types[|types| - 1]);
        }
      }
    }
  }

  lemma CapturedGrouped(board: Board, c: Color)
    ensures forall i, j :: 0 <= i <= j < |Captured(board, c)| ==> TypeRank(Captured(board, c)[i]) <= TypeRank(Captured(board, c)[j])
    ensures King !in Captured(board, c)
  {
    LostOverGrouped(board, c, TalliedTypes);
  }

  /** Nothing is captured in the starting arrangement. */
  lemma CapturedAtStart(r: Rules, c: Color)
    requires StandardStart(r)
    ensures Captured(r.board(StartFen), c) == []
  {
    CapturedShape(StartBoard, c);
    StartCount(c, Pawn);
    StartCount(c, Knight);
    StartCount(c, Bishop);
    StartCount(c, Rook);
    StartCount(c, Queen);
  }

  lemma StartCount(c: Color, t: PieceType)
    requires t != King
    ensures CountOnBoard(StartBoard, c, t) == StartingCount(t)
  {
    StartTopHalf(c, t);
    StartBottomHalf(c, t);
    BackRankCount(Black, c, t);
    PawnRankCount(Black, c, t);
    EmptyRankCount(c, t);
    PawnRankCount(White, c, t);
    BackRankCount(White, c, t);
  }

  /** Ranks 8 to 5 of the start board: Black's pieces and two empty ranks. */
  lemma StartTopHalf(c: Color, t: PieceType)
    ensures CountOnBoard(StartBoard[..4], c, t) ==
      CountInRow(BackRank(Black), c, t) + CountInRow(PawnRank(Black), c, t) + 2 * CountInRow(EmptyRank, c, t)
  {
    var B := StartBoard;
    assert B[0] == BackRank(Black) && B[1] == PawnRank(Black) && B[2] == EmptyRank && B[3] == EmptyRank;
    assert B[..4][..3] == B[..3];
    assert CountOnBoard(B[..4], c, t) == CountOnBoard(B[..3], c, t) + CountInRow(B[3], c, t);
    assert B[..3][..2] == B[..2];
    assert CountOnBoard(B[..3], c, t) == CountOnBoard(B[..2], c, t) + CountInRow(B[2], c, t);
    assert B[..2][..1] == B[..1];
    assert CountOnBoard(B[..2], c, t) == CountOnBoard(B[..1], c, t) + CountInRow(B[1], c, t);
    assert B[..1][..0] == B[..0];
    assert CountOnBoard(B[..1], c, t) == CountOnBoard(B[..0], c, t) + CountInRow(B[0], c, t);
    assert B[..0] == [];
  }

  /** Ranks 4 to 1 of the start board: two empty ranks and White's pieces. */
  lemma StartBottomHalf(c: Color, t: PieceType)
    ensures CountOnBoard(StartBoard, c, t) == CountOnBoard(StartBoard[..4], c, t) +
      2 * CountInRow(EmptyRank, c, t) + CountInRow(PawnRank(White), c, t) + CountInRow(BackRank(White), c, t)
  {
    var B := StartBoard;
    assert B[4] == EmptyRank && B[5] == EmptyRank && B[6] == PawnRank(White) && B[7] == BackRank(White);
    assert B[..8] == B;
    assert B[..8][..7] == B[..7];
    assert CountOnBoard(B[..8], c, t) == CountOnBoard(B[..7], c, t) + CountInRow(B[7], c, t);
    assert B[..7][..6] == B[..6];
    assert CountOnBoard(B[..7], c, t) == CountOnBoard(B[..6], c, t) + CountInRow(B[6], c, t);
    assert B[..6][..5] == B[..5];
    assert CountOnBoard(B[..6], c, t) == CountOnBoard(B[..5], c, t) + CountInRow(B[5], c, t);
    assert B[..5][..4] == B[..4];
    assert CountOnBoard(B[..5], c, t) == CountOnBoard(B[..4], c, t) + CountInRow(B[4], c, t);
  }

  lemma BackRankCount(owner: Color, c: Color, t: PieceType)
    ensures CountInRow(BackRank(owner), c, t) ==
      if c != owner || t == Pawn then 0 else if t == Queen || t == King then 1 else 2
  {
    var R, N, B := Some(Piece(Rook, owner)), Some(Piece(Knight, owner)), Some(Piece(Bishop, owner));
    var Q, K := Some(Piece(Queen, owner)), Some(Piece(King, owner));
    CountEight(R, N, B, Q, K, B, N, R, c, t);
  }

  /** The count over a rank is the sum of its eight cells' contributions. */
  lemma CountEight(a0: Option<Piece>, a1: Option<Piece>, a2: Option<Piece>, a3: Option<Piece>, a4: Option<Piece>, a5: Option<Piece>, a6: Option<Piece>, a7: Option<Piece>, c: Color, t: PieceType)
    ensures CountInRow([a0, a1, a2, a3, a4, a5, a6, a7], c, t) ==
      Hit(a0, c, t) + Hit(a1, c, t) + Hit(a2, c, t) + Hit(a3, c, t) +
      Hit(a4, c, t) + Hit(a5, c, t) + Hit(a6, c, t) + Hit(a7, c, t)
  {
    CountUpperHalf(a0, a1, a2, a3, a4, a5, a6, a7, c, t);
    CountLowerHalf(a0, a1, a2, a3, c, t);
  }

  lemma CountUpperHalf(a0: Option<Piece>, a1: Option<Piece>, a2: Option<Piece>, a3: Option<Piece>, a4: Option<Piece>, a5: Option<Piece>, a6: Option<Piece>, a7: Option<Piece>, c: Color, t: PieceType)
    ensures CountInRow([a0, a1, a2, a3, a4, a5, a6, a7], c, t) ==
      CountInRow([a0, a1, a2, a3], c, t) + Hit(a4, c, t) + Hit(a5, c, t) + Hit(a6, c, t) + Hit(a7, c, t)
  {
    assert [a0, a1, a2, a3, a4, a5, a6, a7][..7] == [a0, a1, a2, a3, a4, a5, a6];
    assert CountInRow([a0, a1, a2, a3, a4, a5, a6, a7], c, t) == CountInRow([a0, a1, a2, a3, a4, a5, a6], c, t) + Hit(a7, c, t);
    assert [a0, a1, a2, a3, a4, a5, a6][..6] == [a0, a1, a2, a3, a4, a5];
    assert CountInRow([a0, a1, a2, a3, a4, a5, a6], c, t) == CountInRow([a0, a1, a2, a3, a4, a5], c, t) + Hit(a6, c, t);
    assert [a0, a1, a2, a3, a4, a5][..5] == [a0, a1, a2, a3, a4];
    assert CountInRow([a0, a1, a2, a3, a4, a5], c, t) == CountInRow([a0, a1, a2, a3, a4], c, t) + Hit(a5, c, t);
    assert [a0, a1, a2, a3, a4][..4] == [a0, a1, a2, a3];
    assert CountInRow([a0, a1, a2, a3, a4], c, t) == CountInRow([a0, a1, a2, a3], c, t) + Hit(a4, c, t);
  }

  lemma CountLowerHalf(a0: Option<Piece>, a1: Option<Piece>, a2: Option<Piece>, a3: Option<Piece>, c: Color, t: PieceType)
    ensures CountInRow([a0, a1, a2, a3], c, t) == Hit(a0, c, t) + Hit(a1, c, t) + Hit(a2, c, t) + Hit(a3, c, t)
  {
    assert [a0, a1, a2, a3][..3] == [a0, a1, a2];
    assert CountInRow([a0, a1, a2, a3], c, t) == CountInRow([a0, a1, a2], c, t) + Hit(a3, c, t);
    assert [a0, a1, a2][..2] == [a0, a1];
    assert CountInRow([a0, a1, a2], c, t) == CountInRow([a0, a1], c, t) + Hit(a2, c, t);
    assert [a0, a1][..1] == [a0];
    assert CountInRow([a0, a1], c, t) == CountInRow([a0], c, t) + Hit(a1, c, t);
    assert [a0][..0] == [];
  }

  lemma PawnRankCount(owner: Color, c: Color, t: PieceType)
    ensures CountInRow(PawnRank(owner), c, t) == if c == owner && t == Pawn then 8 else 0
  {
    CountIsMultiplicity(PawnRank(owner), c, t);
  }

  lemma EmptyRankCount(c: Color, t: PieceType)
    ensures CountInRow(EmptyRank, c, t) == 0
  {
    CountIsMultiplicity(EmptyRank, c, t);
  }

  lemma {:induction false} CountIsMultiplicity(row: seq<Option<Piece>>, c: Color, t: PieceType)
    ensures CountInRow(row, c, t) == multiset(row)[Some(Piece(t, c))]
    decreases |row|
  {
    if row != [] {
      CountIsMultiplicity(row[..|row| - 1], c, t);
      assert row == row[..|row| - 1] + [row[|row| - 1]];
    }
  }

  /** One row of the move-history panel: move number, white's move and black's reply if shown. */
  datatype HistoryRow = HistoryRow(number: nat, white: string, black: Option<string>)

  /** The history split into numbered white/black pairs, ceil(n / 2) rows. */
  function HistoryRows(history: seq<string>): (rows: seq<HistoryRow>)
    ensures |history| <= 2 * |rows| <= |history| + 1
  {
    seq((|history| + 1) / 2, i requires 0 <= i < (|history| + 1) / 2 =>
      HistoryRow(i + 1, history[2 * i],
        if 2 * i + 1 < |history| && history[2 * i + 1] != "" then Some(history[2 * i + 1]) else None))
  }

  function RowMoves(row: HistoryRow): seq<string> {
    [row.white] + (if row.black.Some? then [row.black.value] else [])
  }

  /** The moves shown in the rows, read left to right and top to bottom. */
  function Flatten(rows: seq<HistoryRow>): seq<string>
    decreases |rows|
  {
    if rows == [] then [] else Flatten(rows[..|rows| - 1]) + RowMoves(rows[|rows| - 1])
  }

  lemma {:induction false} FlattenPrefix(history: seq<string>, k: nat)
    requires forall i :: 0 <= i < |history| ==> history[i] != ""
    requires k <= |HistoryRows(history)|
    ensures Flatten(HistoryRows(history)[..k]) == history[..if 2 * k < |history| then 2 * k else |history|]
  {
    var rows := HistoryRows(history);
    if k > 0 {
      FlattenPrefix(history, k - 1);
      assert rows[..k][..k - 1] == rows[..k - 1];
      var row := rows[k - 1];
      var lo := 2 * (k - 1);
      var hi := if 2 * k < |history| then 2 * k else |history|;
      assert RowMoves(row) == history[lo..hi];
      assert history[..hi] == history[..lo] + history[lo..hi];
    } else {
      assert rows[..0] == [];
    }
  }

  /** Reading the rows back gives the whole history, in order. */
  lemma RowsRebuildHistory(history: seq<string>)
    requires forall i :: 0 <= i < |history| ==> history[i] != ""
    ensures Flatten(HistoryRows(history)) == history
  {
    var rows := HistoryRows(history);
    FlattenPrefix(history, |rows|);
    assert rows[..|rows|] == rows;
    assert history[..|history|] == history;
  }
}
