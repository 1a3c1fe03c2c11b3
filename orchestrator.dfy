/**
 * The game orchestrator (App.tsx): the mode and engine settings, the game object and the
 * state derived from it (position, history, last move, status), and the engine-turn flags.
 */
module Orchestrator {
  import opened Wrappers
  import opened Strings
  import opened Squares
  import opened Oracle
  import opened ChessBoard
  import opened EngineService

  datatype GameMode = Pve | Pvp | Online

  /** The main menu's choices: the three modes and the 3D view of the engine game. */
  datatype StartChoice = StartPve | StartPvp | StartOnline | Start3D

  /** The sound cues `processMoveResult` chooses between, most urgent first. */
  datatype Sound = WinSound | DrawSound | CheckSound | CaptureSound | MoveSound

  function Priority(s: Sound): nat {
    match s
    case WinSound => 0
    case DrawSound => 1
    case CheckSound => 2
    case CaptureSound => 3
    case MoveSound => 4
  }

  /** A capture is reported by the record's captured piece or by the `c` or `e` (en passant) flag. */
  predicate IsCapture(record: MoveRecord) {
    record.captured.Some? || Contains(record.flags, "c") || Contains(record.flags, "e")
  }

  /** Whether a cue fits the move that led to `fen`. */
  predicate CueApplies(r: Rules, fen: Fen, record: MoveRecord, s: Sound) {
    match s
    case WinSound => r.isCheckmate(fen)
    case DrawSound => r.isGameOver(fen)
    case CheckSound => r.inCheck(fen)
    case CaptureSound => IsCapture(record)
    case MoveSound => true
  }

  /** The cue played after a move: the most urgent one that fits. */
  function SoundFor(r: Rules, fen: Fen, record: MoveRecord): (s: Sound)
    ensures CueApplies(r, fen, record, s)
    ensures forall t :: Priority(t) < Priority(s) ==> !CueApplies(r, fen, record, t)
  {
    if r.isCheckmate(fen) then WinSound
    else if r.isGameOver(fen) then DrawSound
    else if r.inCheck(fen) then CheckSound
    else if IsCapture(record) then CaptureSound
    else MoveSound
  }

  /** The status line after a move: checkmate (naming the winner), draw, check, or nothing. */
  function StatusText(r: Rules, fen: Fen): (s: string)
    ensures StartsWith(s, "Checkmate! ") <==> r.isCheckmate(fen)
    ensures r.isCheckmate(fen) ==> s == "Checkmate! " + ColorName(Opposite(r.turn(fen))) + " wins."
    ensures s == "Draw!" <==> !r.isCheckmate(fen) && r.isDraw(fen)
    ensures s == "Check!" <==> !r.isCheckmate(fen) && !r.isDraw(fen) && r.inCheck(fen)
    ensures s == "" <==> !r.isCheckmate(fen) && !r.isDraw(fen) && !r.inCheck(fen)
  {
    if r.isCheckmate(fen) then "Checkmate! " + ColorName(Opposite(r.turn(fen))) + " wins."
    else if r.isDraw(fen) then "Draw!"
    else if r.inCheck(fen) then "Check!"
    else ""
  }

  /**
   * The winner the victory overlay names: it appears only on checkmate, and names the side not
   * to move, the same winner the status line announces.
   */
  function OverlayWinner(r: Rules, fen: Fen): (w: Option<Color>)
    ensures w.Some? <==> StartsWith(StatusText(r, fen), "Checkmate! ")
    ensures w.Some? ==> StatusText(r, fen) == "Checkmate! " + ColorName(w.value) + " wins."
  {
    if r.isCheckmate(fen) then Some(Opposite(r.turn(fen))) else None
  }

  /** The overlay comes only with a finished game in which the side to move is in check. */
  lemma OverlayEndsGame(r: Rules, fen: Fen)
    requires WellFormed(r)
    ensures OverlayWinner(r, fen).Some? ==> r.isGameOver(fen) && r.inCheck(fen)
    ensures OverlayWinner(r, fen).Some? ==> OverlayWinner(r, fen).value != r.turn(fen)
  {
    assert r.isGameOver(fen) == (r.isCheckmate(fen) || r.isDraw(fen));
  }

  /** The sound and the status tell the same story: win, draw and check cues match their texts. */
  lemma FeedbackAgrees(r: Rules, fen: Fen, record: MoveRecord)
    requires WellFormed(r)
    ensures SoundFor(r, fen, record) == WinSound <==> StartsWith(StatusText(r, fen), "Checkmate! ")
    ensures SoundFor(r, fen, record) == DrawSound <==> StatusText(r, fen) == "Draw!"
    ensures SoundFor(r, fen, record) == CheckSound <==> StatusText(r, fen) == "Check!"
    ensures SoundFor(r, fen, record) in {CaptureSound, MoveSound} <==> StatusText(r, fen) == ""
  {
    assert r.isGameOver(fen) == (r.isCheckmate(fen) || r.isDraw(fen));
  }

  /** The error shown when the engine turn fails: the error's message, or a generic text. */
  function ErrorText(message: string): (t: string)
    ensures t != ""
    ensures message != "" ==> t == message
  {
    if message == "" then "Engine encountered an error." else message
  }

  /** What the engine call does: resolve with an analysis, or reject with a message. */
  datatype EngineReply = Answered(result: AnalysisResult) | Failed(message: string)

  /** The arguments of one engine call: the position, its legal moves and the side to move. */
  datatype EngineRequest = EngineRequest(fen: Fen, moves: seq<string>, turn: Color)

  class App {
    const rules: Rules
    var mode: GameMode
    var is3D: bool
    var aiMode: bool
    var playerColor: Color
    var game: Chess
    var fen: Fen
    var history: seq<string>
    var status: string
    var lastMove: Option<FromTo>
    var thinking: bool
    var reasoning: Option<string>
    var error: Option<string>

    /** The position, history and last move always mirror the game object. */
    ghost predicate Valid()
      reads this, game
    {
      && game.Valid()
      && game.rules == rules
      && fen == game.current
      && history == game.History()
      && lastMove == LastMoveOf(game.log)
    }

    /** The first render: an engine game as White, at the start position. */
    constructor (r: Rules)
      requires WellFormed(r)
      ensures Valid() && rules == r
      ensures mode == Pve && !is3D && aiMode && playerColor == White
      ensures fen == StartFen && history == [] && status == "" && lastMove.None?
      ensures !thinking && reasoning.None? && error.None?
    {
      rules := r;
      mode, is3D, aiMode, playerColor := Pve, false, true, White;
      game := new Chess(r);
      fen, history, status, lastMove := StartFen, [], "", None;
      thinking, reasoning, error := false, None, None;
    }

    /** The engine plays a move only in an engine game, with the engine on, on its side's turn. */
    predicate EngineTurnDue()
      reads this
    {
      mode == Pve && aiMode && !rules.isGameOver(fen) && rules.turn(fen) != playerColor
    }

    /** The board's `disabled` flag as the program computes it. */
    predicate DisabledAsWritten()
      reads this
    {
      (mode == Pve && rules.turn(fen) != playerColor) || thinking
    }

    /** The board's `disabled` flag as intended: only the engine's turn locks the board. */
    predicate Disabled()
      reads this
    {
      (mode == Pve && aiMode && rules.turn(fen) != playerColor) || thinking
    }

    /** `handleReset`: a new game at the start position and every derived field cleared. */
    method Reset()
      requires Valid()
      modifies this
      ensures Valid() && fresh(game)
      ensures fen == StartFen && history == [] && status == "" && lastMove.None?
      ensures !thinking && reasoning.None? && error.None?
      ensures mode == old(mode) && is3D == old(is3D) && aiMode == old(aiMode) && playerColor == old(playerColor)
    {
      assert WellFormed(rules) by { assert game.Valid(); }
      game := new Chess(rules);
      fen, history, status, lastMove := game.current, [], "", None;
      thinking, reasoning, error := false, None, None;
    }

    /** `handleStartGame`: set the mode and engine settings, then reset. */
    method StartGame(choice: StartChoice)
      requires Valid()
      modifies this
      ensures Valid() && fresh(game)
      ensures fen == StartFen && history == [] && status == "" && lastMove.None?
      ensures !thinking && reasoning.None? && error.None?
      ensures mode == (if choice == StartPvp then Pvp else if choice == StartOnline then Online else Pve)
      ensures is3D <==> choice == Start3D
      ensures aiMode <==> mode == Pve
      ensures mode == Pve ==> playerColor == White
      ensures mode != Pve ==> playerColor == old(playerColor)
    {
      match choice {
        case Start3D =>
          mode, is3D, aiMode, playerColor := Pve, true, true, White;
        case StartPve =>
          mode, is3D, aiMode, playerColor := Pve, false, true, White;
        case StartPvp =>
          mode, is3D, aiMode := Pvp, false, false;
        case StartOnline =>
          mode, is3D, aiMode := Online, false, false;
      }
      Reset();
    }

    /** `processMoveResult` after an accepted move: record the status and pick the cue. */
    method RecordMove(record: MoveRecord) returns (cue: Sound)
      requires Valid()
      modifies this
      ensures Valid()
      ensures status == StatusText(rules, fen) && cue == SoundFor(rules, fen, record)
      ensures lastMove == old(lastMove) && fen == old(fen) && history == old(history) && game == old(game)
      ensures mode == old(mode) && is3D == old(is3D) && aiMode == old(aiMode) && playerColor == old(playerColor)
      ensures thinking == old(thinking) && reasoning == old(reasoning) && error == old(error)
    {
      cue := SoundFor(rules, game.current, record);
      status := StatusText(rules, game.current);
    }

    /**
     * `makeMove`: true exactly when the rules accept the move; then the position, history, last
     * move and status follow it. A refused or throwing move changes nothing.
     */
    method MakeMove(req: MoveRequest) returns (ok: bool, cue: Option<Sound>)
      requires Valid()
      modifies this, game
      ensures Valid() && game == old(game)
      ensures ok <==> rules.play(old(fen), req).Accepted?
      ensures ok ==>
        var o := rules.play(old(fen), req);
        && fen == o.next
        && history == old(history) + [o.record.san]
        && lastMove == Some(FromTo(o.record.from, o.record.to))
        && status == StatusText(rules, fen)
        && cue == Some(SoundFor(rules, fen, o.record))
      ensures !ok ==>
        fen == old(fen) && history == old(history) && lastMove == old(lastMove) && status == old(status) && cue.None?
      ensures mode == old(mode) && is3D == old(is3D) && aiMode == old(aiMode) && playerColor == old(playerColor)
      ensures thinking == old(thinking) && reasoning == old(reasoning) && error == old(error)
    {
      var o := game.Move(req);
      if o.Accepted? {
        assert game.History() == old(history) + [o.record.san];
        Mirror();
        var s := RecordMove(o.record);
        ok, cue := true, Some(s);
      } else {
        ok, cue := false, None;
      }
    }

    /**
     * The engine-turn effect when its timer fires: if the engine is due, raise the thinking flag
     * and clear the error; with no legal move to offer it stops at once.
     */
    method BeginEngineTurn() returns (request: Option<EngineRequest>)
      requires Valid()
      modifies this
      ensures Valid() && game == old(game)
      ensures fen == old(fen) && history == old(history) && lastMove == old(lastMove) && status == old(status)
      ensures mode == old(mode) && is3D == old(is3D) && aiMode == old(aiMode) && playerColor == old(playerColor)
      ensures reasoning == old(reasoning)
      ensures !old(EngineTurnDue()) ==> request.None? && thinking == old(thinking) && error == old(error)
      ensures old(EngineTurnDue()) ==> error.None?
      ensures old(EngineTurnDue()) && rules.legalMoves(fen) == [] ==> request.None? && !thinking
      ensures old(EngineTurnDue()) && rules.legalMoves(fen) != [] ==>
        thinking && request == Some(EngineRequest(fen, rules.legalMoves(fen), rules.turn(fen)))
    {
      if !EngineTurnDue() {
        return None;
      }
      thinking, error := true, None;
      var moves := rules.legalMoves(game.current);
      if |moves| == 0 {
        thinking := false;
        return None;
      }
      request := Some(EngineRequest(game.current, moves, rules.turn(game.current)));
    }

    /**
     * The rest of the engine turn once the engine call settles: show its reasoning and play its
     * move by SAN; a refused move, a throwing move or a failed call sets the error instead.
     * The thinking flag is always lowered.
     */
    method FinishEngineTurn(reply: EngineReply) returns (cue: Option<Sound>)
      requires Valid()
      modifies this, game
      ensures Valid() && game == old(game) && !thinking
      ensures mode == old(mode) && is3D == old(is3D) && aiMode == old(aiMode) && playerColor == old(playerColor)
      ensures reply.Failed? ==>
        && error == Some(ErrorText(reply.message)) && reasoning == old(reasoning) && cue.None?
        && fen == old(fen) && history == old(history) && lastMove == old(lastMove) && status == old(status)
      ensures reply.Answered? ==> reasoning == Some(reply.result.reasoning)
      ensures reply.Answered? ==>
        var o := rules.playSan(old(fen), reply.result.bestMove);
        && (o.Accepted? ==>
          && fen == o.next && history == old(history) + [o.record.san]
          && lastMove == Some(FromTo(o.record.from, o.record.to))
          && status == StatusText(rules, fen)
          && cue == Some(SoundFor(rules, fen, o.record))
          && error == old(error))
        && (!o.Accepted? ==>
          && fen == old(fen) && history == old(history) && lastMove == old(lastMove) && status == old(status)
          && cue.None?)
        && (o.Rejected? ==> error == Some("Failed to execute move: " + reply.result.bestMove))
        && (o.Raised? ==> error == Some(ErrorText(o.message)))
    {
      match reply {
        case Failed(message) =>
          cue := None;
          error := Some(ErrorText(message));
        case Answered(result) =>
          reasoning := Some(result.reasoning);
          cue := PlayReply(result.bestMove);
      }
      thinking := false;
    }

    /** Plays the engine's move by SAN; a refused or throwing move sets the error instead. */
    method PlayReply(san: string) returns (cue: Option<Sound>)
      requires Valid()
      modifies this, game
      ensures Valid() && game == old(game)
      ensures mode == old(mode) && is3D == old(is3D) && aiMode == old(aiMode) && playerColor == old(playerColor)
      ensures thinking == old(thinking) && reasoning == old(reasoning)
      ensures
        var o := rules.playSan(old(fen), san);
        && (o.Accepted? ==>
          && fen == o.next && history == old(history) + [o.record.san]
          && lastMove == Some(FromTo(o.record.from, o.record.to))
          && status == StatusText(rules, fen)
          && cue == Some(SoundFor(rules, fen, o.record))
          && error == old(error))
        && (!o.Accepted? ==>
          && fen == old(fen) && history == old(history) && lastMove == old(lastMove) && status == old(status)
          && cue.None?)
        && (o.Rejected? ==> error == Some("Failed to execute move: " + san))
        && (o.Raised? ==> error == Some(ErrorText(o.message)))
    {
      cue := None;
      var o := game.MoveSan(san);
      match o {
        case Accepted(_, record) =>
          assert game.History() == old(history) + [record.san];
          Mirror();
          var s := RecordMove(record);
          cue := Some(s);
        case Rejected =>
          error := Some(ErrorText("Failed to execute move: " + san));
        case Raised(message) =>
          error := Some(ErrorText(message));
      }
    }

    /**
     * `handleUndo`: take back one move, and in an engine game a second one when that leaves the
     * engine to move. The status keeps only a check.
     */
    method Undo()
      requires Valid()
      modifies this, game
      ensures Valid() && game == old(game)
      ensures game.log == UndoLog(rules, old(game.log), old(game.current), mode == Pve && aiMode, playerColor)
      ensures game.current == PositionAt(old(game.log), old(game.current), |game.log|)
      ensures mode == Pve && aiMode ==> rules.turn(fen) == playerColor || history == []
      ensures history == old(history)[..|history|] && |old(history)| <= |history| + 2
      ensures reasoning.None?
      ensures status == (if rules.inCheck(fen) then "Check!" else "")
      ensures mode == old(mode) && is3D == old(is3D) && aiMode == old(aiMode) && playerColor == old(playerColor)
      ensures thinking == old(thinking) && error == old(error)
    {
      ghost var log0, current0 := game.log, game.current;
      ghost var engineGame := mode == Pve && aiMode;
      TakeBack();
      UndoHistory(rules, log0, current0, engineGame, playerColor);
      Mirror();
      reasoning := None;
      status := if rules.inCheck(game.current) then "Check!" else "";
    }

    /** The `undo()` calls of `handleUndo`, on the game object alone. */
    method TakeBack()
      requires Valid()
      modifies game
      ensures game.Valid()
      ensures game.log == UndoLog(rules, old(game.log), old(game.current), mode == Pve && aiMode, playerColor)
      ensures game.current == PositionAt(old(game.log), old(game.current), |game.log|)
    {
      ghost var log0, current0 := game.log, game.current;
      var first := game.Undo();
      assert game.log == Pop(log0) && game.current == PositionAt(log0, current0, |game.log|);
      if mode == Pve && aiMode && rules.turn(game.current) != playerColor {
        ghost var log1 := game.log;
        var second := game.Undo();
        assert game.log == Pop(log1);
        assert |log1| > 0 ==> game.current == log0[|game.log|].before;
      }
    }

    /** Mirror the game object's position, history and last move. */
    method Mirror()
      requires game.Valid() && game.rules == rules
      modifies this
      ensures Valid() && game == old(game)
      ensures status == old(status)
      ensures mode == old(mode) && is3D == old(is3D) && aiMode == old(aiMode) && playerColor == old(playerColor)
      ensures thinking == old(thinking) && reasoning == old(reasoning) && error == old(error)
    {
      fen := game.current;
      history := game.History();
      lastMove := LastMoveOf(game.log);
    }

    /** `toggleAiMode`: only in an engine game; it flips the engine switch and resets. */
    method ToggleAiMode()
      requires Valid()
      modifies this
      ensures Valid()
      ensures old(mode) != Pve ==> aiMode == old(aiMode) && game == old(game) && fen == old(fen) && history == old(history)
      ensures old(mode) != Pve ==> thinking == old(thinking) && reasoning == old(reasoning) && error == old(error)
      ensures old(mode) != Pve ==> status == old(status) && lastMove == old(lastMove)
      ensures old(mode) == Pve ==> aiMode == !old(aiMode) && fresh(game)
      ensures old(mode) == Pve ==> fen == StartFen && history == [] && status == "" && lastMove.None?
      ensures old(mode) == Pve ==> !thinking && reasoning.None? && error.None?
      ensures mode == old(mode) && is3D == old(is3D) && playerColor == old(playerColor)
    {
      if mode != Pve {
        return;
      }
      aiMode := !aiMode;
      Reset();
    }

    /** The colour buttons of the engine panel: choose a side, then reset. */
    method ChoosePlayerColor(c: Color)
      requires Valid()
      modifies this
      ensures Valid() && fresh(game) && playerColor == c
      ensures fen == StartFen && history == [] && status == "" && lastMove.None?
      ensures !thinking && reasoning.None? && error.None?
      ensures mode == old(mode) && is3D == old(is3D) && aiMode == old(aiMode)
    {
      playerColor := c;
      Reset();
    }
  }

  /** `undo()` on a log: drop the newest entry, if any. */
  function Pop(log: seq<Entry>): (p: seq<Entry>)
    ensures |log| > 0 ==> p == log[..|log| - 1]
    ensures |log| == 0 ==> p == []
  {
    if |log| == 0 then log else log[..|log| - 1]
  }

  /** The position after the first `k` logged moves. */
  function PositionAt(log: seq<Entry>, current: Fen, k: nat): Fen
    requires k <= |log|
  {
    if k == |log| then current else log[k].before
  }

  /**
   * The log after `handleUndo`: one move taken back, and in an engine game with the engine on
   * a second one when the first leaves the engine's side to move.
   */
  function UndoLog(r: Rules, log: seq<Entry>, current: Fen, engineGame: bool, player: Color): seq<Entry> {
    var once := Pop(log);
    if engineGame && r.turn(PositionAt(log, current, |once|)) != player then Pop(once) else once
  }

  /** Undo keeps a prefix of the log and takes back one move, or two, or everything if fewer. */
  lemma UndoLogShape(r: Rules, log: seq<Entry>, current: Fen, engineGame: bool, player: Color)
    ensures var u := UndoLog(r, log, current, engineGame, player);
      && u == log[..|u|]
      && (|log| > 0 ==> |u| < |log|)
      && |log| <= |u| + 2
      && (!engineGame ==> |u| == if |log| == 0 then 0 else |log| - 1)
  {
    var once := Pop(log);
    if |once| > 0 {
      assert once[..|once| - 1] == log[..|once| - 1];
    }
  }

  /** In an engine game, after undo it is the player's turn, unless the whole game was taken back. */
  lemma UndoLogTurn(r: Rules, log: seq<Entry>, current: Fen, engineGame: bool, player: Color)
    requires Alternating(r, log, current)
    ensures var u := UndoLog(r, log, current, engineGame, player);
      engineGame ==> u == [] || r.turn(PositionAt(log, current, |u|)) == player
  {
    var once := Pop(log);
    if engineGame && |once| > 0 && r.turn(PositionAt(log, current, |once|)) != player {
      var k := |once| - 1;
      assert After(log, current, k) == PositionAt(log, current, |once|);
    }
  }

  lemma SansPrefix(log: seq<Entry>, k: nat)
    requires k <= |log|
    ensures Sans(log[..k]) == Sans(log)[..k]
  {
  }

  /** What undo leaves of the history: a prefix, at most two moves shorter, ending on the player's turn. */
  lemma UndoHistory(r: Rules, log: seq<Entry>, current: Fen, engineGame: bool, player: Color)
    requires Alternating(r, log, current)
    ensures var u := UndoLog(r, log, current, engineGame, player);
      && Sans(u) == Sans(log)[..|Sans(u)|]
      && |Sans(log)| <= |Sans(u)| + 2
      && (engineGame ==> Sans(u) == [] || r.turn(PositionAt(log, current, |u|)) == player)
  {
    var u := UndoLog(r, log, current, engineGame, player);
    UndoLogShape(r, log, current, engineGame, player);
    UndoLogTurn(r, log, current, engineGame, player);
    SansPrefix(log, |u|);
  }

  /** An empty log leaves the start position, with White to move. */
  lemma WhiteIsFirst(game: Chess)
    requires game.Valid() && |game.log| == 0
    ensures game.current == StartFen && game.rules.turn(game.current) == White
  {
  }

  /** Whenever the engine is due, the board is locked, so the human can never move for it. */
  lemma EngineDueLocksBoard(app: App)
    ensures app.EngineTurnDue() ==> app.Disabled() && app.DisabledAsWritten()
  {
  }

  /**
   * With the corrected flag a live game never stalls: unless the engine is thinking, either the
   * board takes clicks or the engine turn is due.
   */
  lemma {:induction false} NoStall(app: App)
    requires app.Valid() && !app.thinking && !app.rules.isGameOver(app.fen)
    ensures !app.Disabled() || app.EngineTurnDue()
  {
    if app.Disabled() {
      assert app.mode == Pve && app.aiMode && app.rules.turn(app.fen) != app.playerColor;
    }
  }

  /**
   * As written the flag stalls an engine game with the engine switched off: once the human has
   * moved, the board is locked for the other side and no engine turn ever comes.
   */
  method StallAsWritten(r: Rules, opening: MoveRequest) returns (app: App)
    requires WellFormed(r) && r.play(StartFen, opening).Accepted? && !r.isGameOver(r.play(StartFen, opening).next)
    ensures app.Valid() && app.mode == Pve && !app.aiMode && !app.thinking
    ensures !app.rules.isGameOver(app.fen) && app.history == [r.play(StartFen, opening).record.san]
    ensures app.DisabledAsWritten() && !app.EngineTurnDue() && !app.Disabled()
  {
    app := new App(r);
    app.ToggleAiMode();
    var ok, cue := app.MakeMove(opening);
    assert r.turn(app.fen) == Black;
  }

  /**
   * A click on the board as the two components run it together: the board's selection logic
   * (locked by the flag as the program computes it), the move it submits, and the board
   * catching up with the new position.
   */
  method HandleSquareClick(app: App, board: BoardInput, sq: Square) returns (cue: Option<Sound>)
    requires app.Valid() && board.Valid() && board.seenFen == app.fen && board.rules == app.rules
    modifies app, app.game, board
    ensures app.Valid() && board.Valid() && board.seenFen == app.fen && app.game == old(app.game)
    ensures old(app.DisabledAsWritten()) ==> app.fen == old(app.fen) && app.history == old(app.history) && cue.None?
    ensures old(app.DisabledAsWritten()) ==>
      && board.selected == old(board.selected) && board.validMoves == old(board.validMoves)
      && app.status == old(app.status) && app.lastMove == old(app.lastMove)
      && app.error == old(app.error) && app.thinking == old(app.thinking)
    ensures app.history != old(app.history) ==>
      && !old(app.DisabledAsWritten())
      && old(board.selected).Some?
      && OwnPiece(app.rules, old(app.fen), old(board.selected).value)
      && IsValidDestination(sq, app.rules.movesFrom(old(app.fen), old(board.selected).value))
      && var o := app.rules.play(old(app.fen), MoveRequest(old(board.selected).value, sq, Some("q")));
         o.Accepted? && app.fen == o.next && app.history == old(app.history) + [o.record.san]
    ensures app.fen != old(app.fen) ==> board.selected.None? && board.validMoves == []
  {
    var disabled := app.DisabledAsWritten();
    var submit := board.Click(sq, disabled, app.thinking);
    cue := None;
    if submit.Some? {
      var ok;
      ok, cue := app.MakeMove(submit.value);
    }
    board.Sync(app.fen);
  }

  /**
   * One whole engine turn: the effect fires, the engine's output lines are read by the
   * listener, and its answer is played. A listener that never resolves leaves the engine
   * thinking; a move the rules accept is the one the game plays.
   */
  method PlayEngineTurn(app: App, lines: seq<string>) returns (cue: Option<Sound>)
    requires app.Valid() && ReadsOwnSan(app.rules)
    modifies app, app.game
    ensures app.Valid() && app.game == old(app.game)
    ensures !old(app.EngineTurnDue()) ==> app.history == old(app.history) && app.thinking == old(app.thinking)
    ensures old(app.EngineTurnDue()) && app.rules.legalMoves(old(app.fen)) != [] ==>
      match Respond(app.rules, old(app.fen), lines, Calculating)
      case Pending(_) => app.thinking && app.history == old(app.history) && app.error.None?
      case Resolved(result) => !app.thinking && app.reasoning == Some(result.reasoning)
    ensures old(app.EngineTurnDue()) && app.rules.legalMoves(old(app.fen)) != [] && FirstBestMove(lines).Some? ==>
      var uci := BestMoveToken(lines[FirstBestMove(lines).value]).value;
      var o := app.rules.play(old(app.fen), SplitUci(uci));
      o.Accepted? ==> app.fen == o.next && app.history == old(app.history) + [o.record.san] && app.error.None?
  {
    cue := None;
    var request := app.BeginEngineTurn();
    if request.Some? {
      var outcome := Listen(app.rules, request.value.fen, lines);
      ListenOutcome(app.rules, request.value.fen, lines, Calculating);
      if FirstBestMove(lines).Some? {
        ResolvedMoveReplays(app.rules, request.value.fen, BestMoveToken(lines[FirstBestMove(lines).value]).value);
      }
      if outcome.Resolved? {
        cue := app.FinishEngineTurn(Answered(outcome.result));
      }
    }
  }
}
