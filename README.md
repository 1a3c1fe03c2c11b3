# Chess front end: a verified model of its game logic

This project models the logic of a browser chess front end in Dafny:

- the game orchestrator (`App.tsx`): modes, the engine switch, the player's colour, the engine turn, undo and reset;
- the board component's click handling, highlighting, check marking, square geometry and move animation (`components/ChessBoard.tsx`);
- the info panel's captured-piece tally and move-history rows (`components/GameInfo.tsx`);
- the listener that reads the chess engine's UCI (Universal Chess Interface) output (`services/geminiService.ts`).

The chess rules come from the chess.js library, which is not part of this model. They are an abstract oracle: `Oracle.Rules` is a record of functions over FEN position strings. Every query, `isDraw` and `isGameOver` included, therefore sees only the position, not the game's history (see "## Left out" on threefold repetition). The ghost predicate `Oracle.WellFormed` states the few facts about chess.js that the front end relies on:

- an accepted move passes the turn;
- a move names two real squares;
- no move is possible from a checkmate;
- game over means checkmate or draw;
- checkmate implies check;
- the start position has White to move.

Two more facts are separate predicates, each assumed only by the lemma that needs it. `Oracle.ReadsOwnSan` says that chess.js reads back the SAN it writes; only `EngineService.ResolvedMoveReplays` and the end-to-end engine turn `Orchestrator.PlayEngineTurn`, which uses that lemma, need it. `Oracle.StandardStart` says that `board()` of the start position is the standard arrangement; only `GameInfo.CapturedAtStart` needs it.

The chess.js game object, which the program updates in place, is the class `Oracle.Chess`. It keeps an undo log of positions and move records, the way chess.js keeps one. Its invariant is that the side to move alternates along the log. The React state of `App` is the class `Orchestrator.App`, whose invariant is that the position, history and last move mirror the game object. The board's selection state is the class `ChessBoard.BoardInput`, whose invariant is that a selection is always a piece of the side to move and that the remembered moves are that piece's legal moves.

Modules follow the program's files:

- `Squares` (board coordinates and colouring);
- `Oracle` (chess.js);
- `ChessBoard`;
- `GameInfo`;
- `Strings` (the JavaScript string and number built-ins the listener uses: `split`, `indexOf`, `startsWith`, `includes`, `parseInt` and integer-to-text);
- `EngineService`;
- `Orchestrator`.

## Model

| member | source | states |
|---|---|---|
| Squares.GridSquare | components/ChessBoard.tsx:189-191 | the square at grid column x and row y is a real square whose file letter is `a`+x and whose rank digit is `8`-y |
| Squares.SquareCoords | components/ChessBoard.tsx:112-116 | `getSquareCoords` gives file index 0..7 from `a` and rank index 0..7 from rank 8 |
| Squares.CoordsGridSquare | components/ChessBoard.tsx:112-116 | the grid square at a square's coordinates is that same square |
| Squares.GridSquareCoords | components/ChessBoard.tsx:112-116 | the coordinates of the square drawn at (x, y) are (x, y): the board grid and `getSquareCoords` are inverse |
| Squares.SquareCoordsInjective | components/ChessBoard.tsx:112-116 | two squares have the same coordinates exactly when they are the same square |
| Squares.IsLight | components/ChessBoard.tsx:192 | the grid's colouring: the cell at rank index r and file index f is light when r + f is even; its properties are stated by `GridSquareLight`, `LightCorners`, `LightAlternates` and `LightIffOddSum` |
| Squares.SquareIsLight | components/ChessBoard.tsx:189-192 | the colour of a named square, read from its file letter and rank digit; `GridSquareLight` ties it to the grid's colouring |
| Squares.GridSquareLight | components/ChessBoard.tsx:189-192 | the square drawn in a grid cell has that cell's colour |
| Squares.LightCorners | components/ChessBoard.tsx:192 | a8 and h1 are light, a1 and h8 are dark |
| Squares.LightAlternates | components/ChessBoard.tsx:192 | on the whole board, including the last file and the last rank, a cell differs in colour from its right-hand neighbour and from the neighbour below it |
| Squares.LightIffOddSum | components/ChessBoard.tsx:192 | a square is light exactly when its file number (1..8) plus its rank number is odd |
| Oracle.Sans | App.tsx:107 | `history()` lists the SAN of every logged move, oldest first, one per move |
| Oracle.AlternatingPrefix | App.tsx:175 | taking back the newest move keeps the log alternating and returns to a position where the other side was to move |
| Oracle.TurnParity | App.tsx:176 | after an even number of moves the starting side is to move, after an odd number the other side |
| Oracle.Chess.constructor | App.tsx:163 | `new Chess()` is the start position with an empty log |
| Oracle.Chess.WhiteToMoveIffEven | App.tsx:123 | White is to move exactly when an even number of moves has been played |
| Oracle.Chess.Move | App.tsx:103 | `move({from, to, promotion})` logs the move and adopts the new position when accepted; a null result or a throw changes nothing |
| Oracle.Chess.MoveSan | App.tsx:138 | `move(san)` does the same for a SAN string |
| Oracle.Chess.Undo | App.tsx:175 | `undo()` removes the newest entry and returns to its position; on an empty log it does nothing and returns null |
| ChessBoard.IsSquareHighlighted | components/ChessBoard.tsx:97-99 | the highlight test; `HighlightedSquares` states which squares pass it |
| ChessBoard.IsValidDestination | components/ChessBoard.tsx:101-103 | some listed move ends on the square; `BoardInput.Click` and `Orchestrator.HandleSquareClick` use it to decide that a click submits a move |
| ChessBoard.IsCheckSquare | components/ChessBoard.tsx:105-109 | the check marker's test; `CheckSquareIsKingInCheck` states which squares pass it |
| ChessBoard.HighlightedSquares | components/ChessBoard.tsx:97-99 | exactly the selected square and the last move's two endpoints are highlighted, so at most three squares |
| ChessBoard.CheckSquareIsKingInCheck | components/ChessBoard.tsx:105-109 | a square is marked as in check exactly when the side to move is in check and its king stands there |
| ChessBoard.AnimationOrigin | components/ChessBoard.tsx:119-133 | no animation without a last move or a piece; the piece on the destination starts at the move's displacement |
| ChessBoard.AnimationOriginCastling | components/ChessBoard.tsx:135-156 | any other animated square is the rook's destination after a king castles, and it starts from the rook's corner |
| ChessBoard.CastlingRookAnimated | components/ChessBoard.tsx:137-154 | after a king castles, the rook on its destination square is animated from its corner |
| ChessBoard.CastlingGeometry | components/ChessBoard.tsx:137-153 | the castling king moves two files, and the rook offsets drawn are two files right for the short side and three files left for the long side |
| ChessBoard.BoardInput.constructor | components/ChessBoard.tsx:36-37 | the board starts with no selection and no remembered moves |
| ChessBoard.BoardInput.Sync | components/ChessBoard.tsx:40-44 | a change of position clears the selection and its moves; the same position keeps them |
| ChessBoard.BoardInput.Click | components/ChessBoard.tsx:50-95 | the click handler: a locked board ignores clicks; re-clicking deselects; a listed destination submits the move with queen promotion and clears the selection; one's own piece is selected with its legal moves; anything else deselects. A submitted move always starts on a piece of the side to move and ends on a destination the rules list for it |
| GameInfo.ZeroCounts | components/GameInfo.tsx:33 | the initial tally holds a zero for each colour and each non-king piece type |
| GameInfo.CountPieces | components/GameInfo.tsx:32-41 | the nested loops leave, for every colour and non-king type, the number of such pieces on the board |
| GameInfo.CountRowCells | components/GameInfo.tsx:36-40 | counting one more row adds exactly that row's pieces to every count |
| GameInfo.CountCell | components/GameInfo.tsx:37-39 | a cell bumps only the count of the piece standing on it, by one |
| GameInfo.PushLoss | components/GameInfo.tsx:54-55 | the push loop appends the type as many times as the loss, and nothing when the loss is zero or negative |
| GameInfo.GetCapturedPieces | components/GameInfo.tsx:31-59 | the two lists pushed by the loss loops are the captured lists of each colour |
| GameInfo.CapturedShape | components/GameInfo.tsx:50-56 | a captured list is the pawns lost, then knights, bishops, rooks and queens, each repeated by its loss |
| GameInfo.CapturedCounts | components/GameInfo.tsx:43-56 | each type occurs as many times as the starting count exceeds the count on the board (never negative), and the king never occurs |
| GameInfo.CapturedBound | components/GameInfo.tsx:43 | at most 15 pieces of one colour are listed as captured |
| GameInfo.CapturedGrouped | components/GameInfo.tsx:50 | a captured list is grouped by type in the order pawn, knight, bishop, rook, queen, and holds no king |
| GameInfo.StartCount | components/GameInfo.tsx:43 | the start board holds exactly the starting count of each non-king type for each colour |
| GameInfo.CapturedAtStart | components/GameInfo.tsx:43-56 | nothing is listed as captured on the board of the start position |
| GameInfo.HistoryRows | components/GameInfo.tsx:140-151 | there are ceil(n/2) rows; row i is numbered i+1, shows move 2i, and shows move 2i+1 exactly when it exists and is non-empty |
| GameInfo.FlattenPrefix | components/GameInfo.tsx:140-151 | the first k rows, read in order, show the first 2k moves |
| GameInfo.RowsRebuildHistory | components/GameInfo.tsx:140-151 | reading all rows left to right and top to bottom gives back the history |
| Strings.StartsWith | services/geminiService.ts:73 | `startsWith`: the string begins with the prefix; `ScoreUpdateConditions`, `BestMoveReadsBack` and `JoinStartsWith` use it |
| Strings.Contains | services/geminiService.ts:73 | `includes`: the text occurs at some position; `PieceIsContained` shows that every split token passes it |
| Strings.Split | services/geminiService.ts:74 | `split(" ")` gives at least one piece and no piece contains the separator |
| Strings.JoinSplit | services/geminiService.ts:74 | joining the pieces with the separator gives back the line, so no character is lost |
| Strings.SplitNoSep | services/geminiService.ts:74 | a line without a space splits into itself alone |
| Strings.SplitAppend | services/geminiService.ts:74 | the first space ends the first token, and the rest splits on its own |
| Strings.SplitJoin | services/geminiService.ts:74 | splitting tokens joined by spaces gives the tokens back when none holds a space, so `split` and `join` are inverse both ways |
| Strings.IndexOf | services/geminiService.ts:75 | `indexOf` gives the first position of the token, and -1 exactly when it is absent |
| Strings.DigitRun | services/geminiService.ts:78 | the digit prefix `parseInt` reads is the longest run of digits of the radix |
| Strings.ParseInt | services/geminiService.ts:78 | `parseInt` yields a number only when at least one digit follows the optional white space, sign and hexadecimal prefix; otherwise NaN |
| Strings.ParseIntToString | services/geminiService.ts:78 | `parseInt` reads back every integer written in decimal |
| Strings.IntTextShape | services/geminiService.ts:78 | the decimal text of an integer has no leading white space, its digits are those of the magnitude, and it starts with a minus exactly when the integer is negative |
| Strings.ParseIntIgnoresTrailing | services/geminiService.ts:78 | any printed integer followed by text that starts with a non-digit reads as that integer (after a lone `0`, an `x` would start a hexadecimal number instead) |
| Strings.ParseIntHex | services/geminiService.ts:78 | `0x` followed by any non-empty run of hexadecimal digits reads as their value, whatever non-digit text follows |
| Strings.ParseIntNaN | services/geminiService.ts:78-80 | every token without a decimal digit, the empty token and words such as `mate` included, gives NaN, which the listener ignores |
| Strings.TrimStartSuffix | services/geminiService.ts:78 | skipping leading white space only drops characters from the front |
| Strings.DigitRunPrefix | services/geminiService.ts:78 | the digits `parseInt` reads stop exactly at the first non-digit |
| Strings.NatToString | services/geminiService.ts:82 | the decimal text of a number is made of digits without a leading zero |
| Strings.NatToStringValue | services/geminiService.ts:82 | the decimal text denotes the number it was written from |
| EngineService.PawnsText | services/geminiService.ts:84 | the text of cp / 100 with at most two decimals and no trailing zero; `ScoreTextSign` states its sign |
| EngineService.EvaluationText | services/geminiService.ts:62-85 | the text of an evaluation; `MateTextReadsBack` and `ScoreTextSign` state what it shows |
| EngineService.MateTextReadsBack | services/geminiService.ts:81-82 | a mate evaluation reads `Mate in ` followed by the move count, which parses back to the count |
| EngineService.ScoreTextSign | services/geminiService.ts:83-85 | a centipawn score reads `Score: ` and then `+` exactly when positive, `-` exactly when negative, and a digit exactly when zero |
| EngineService.ScoreUpdate | services/geminiService.ts:73-89 | a recognised score line never resets the evaluation to `Calculating...`; `ScoreUpdateConditions` says exactly which lines are recognised and `ScoreLineReadsBack` which evaluation they yield |
| EngineService.ScoreOfPieces | services/geminiService.ts:77-86 | the two tokens after `score` give a mate count without its sign for `mate`, a centipawn value for `cp`, and nothing for another kind or a NaN value |
| EngineService.ScoreOfTokens | services/geminiService.ts:73-86 | a line of space-free tokens starting with `info` is read from the tokens after its first `score` |
| EngineService.ScoreLineReadsBack | services/geminiService.ts:73-86 | an `info` line whose first `score` token is followed by `cp v` yields the score v, by `mate v` the count \|v\|, and by any other kind nothing, whatever tokens come before and after |
| EngineService.PieceIsContained | services/geminiService.ts:73-74 | every token of a split line occurs in the line as a substring |
| EngineService.ScoreUpdateConditions | services/geminiService.ts:73-89 | a line updates the evaluation exactly when it starts with `info`, has an exact `score` token, the next token is `mate` or `cp`, and the one after parses as an integer; the substring test for "score" is implied |
| EngineService.BestMoveToken | services/geminiService.ts:92-95 | a line resolves the request exactly when it starts with `bestmove` and has a second token, which is the move |
| EngineService.BestMoveReadsBack | services/geminiService.ts:92-95 | the line `bestmove m`, alone or followed by ` ponder p` or any other space-separated text, yields exactly the move m |
| EngineService.BestMoveNeedsMove | services/geminiService.ts:92-94 | a line without a space, such as a bare `bestmove`, or one that does not start with `bestmove`, resolves nothing |
| EngineService.Substring | services/geminiService.ts:103-105 | `substring` clamps both ends to the length: within the string it is the slice, past its end it is empty or runs to the end |
| EngineService.SplitUci | services/geminiService.ts:103-105 | origin and destination are at most two characters, a promotion letter exists exactly when the move is longer than four characters, and the three pieces together are the first five characters |
| EngineService.SplitUciLossless | services/geminiService.ts:103-105 | a four- or five-character move splits without losing a character |
| EngineService.ResolveMove | services/geminiService.ts:101-119 | the SAN of the move when the rules accept it in the request's position, otherwise the raw UCI text |
| EngineService.ResolvedMoveReplays | services/geminiService.ts:107-112 | assuming `Oracle.ReadsOwnSan` (chess.js reads back the SAN it writes), the SAN handed back names the same move: replaying it gives the same position and record |
| EngineService.Step | services/geminiService.ts:71-89 | one line's effect on the evaluation: a recognised score replaces it, anything else keeps it; `LatestScoreWins` and `LatestWithoutScores` state the effect of many lines |
| EngineService.Respond | services/geminiService.ts:62-122 | the listener over the remaining lines; `ListenOutcome` states its result and `Listen` is proved equal to it |
| EngineService.Listen | services/geminiService.ts:62-122 | the listener loop's outcome is the one `Respond` describes for the whole line sequence |
| EngineService.LatestScoreWins | services/geminiService.ts:71-89 | the evaluation after a run of lines is that of the last recognised score line |
| EngineService.LatestWithoutScores | services/geminiService.ts:71-89 | with no recognised score line the evaluation stays what it was |
| EngineService.RespondSkips | services/geminiService.ts:62-98 | lines without a `bestmove` token only fold their scores into the evaluation before the listener goes on |
| EngineService.FirstBestMove | services/geminiService.ts:92-98 | the first line that resolves the request, after which the listener is removed |
| EngineService.ListenOutcome | services/geminiService.ts:62-122 | the request resolves on the first `bestmove` line with its move (as SAN when legal) and the latest score up to that line; with no such line it never resolves |
| Orchestrator.SoundFor | App.tsx:75-85 | the cue is the most urgent one that fits: win on checkmate, draw on other game ends, check, capture (by captured piece or `c`/`e` flag), else a plain move |
| Orchestrator.StatusText | App.tsx:88-96 | the status names the winner (the side not to move) exactly on checkmate, says `Draw!` exactly on a draw, `Check!` exactly on check, and is empty otherwise |
| Orchestrator.FeedbackAgrees | App.tsx:75-96 | under the rules' facts, the win, draw and check cues come exactly with the matching status text, and capture or move cues with an empty status |
| Orchestrator.OverlayWinner | App.tsx:230-233 | the victory overlay appears exactly when the status line announces a checkmate, and the winner it names is the one that status line names |
| Orchestrator.OverlayEndsGame | App.tsx:230-233 | the overlay comes only in a finished game with the side to move in check, and never names the side to move as winner |
| Orchestrator.ErrorText | App.tsx:149 | the error shown is never empty, and it is the error's message when that is non-empty |
| Orchestrator.App.constructor | App.tsx:17-34 | the first state is an engine game as White at the start position, with nothing pending |
| Orchestrator.App.Reset | App.tsx:162-172 | a fresh game at the start position, empty history and status, no last move, reasoning or error, not thinking; the settings are kept |
| Orchestrator.App.StartGame | App.tsx:37-56 | 3D and engine choices give an engine game as White with the engine on, other modes switch the engine off, and the game resets |
| Orchestrator.App.RecordMove | App.tsx:71-97 | after a move the status and the cue follow the new position and the move's record |
| Orchestrator.App.MakeMove | App.tsx:99-118 | true exactly when the rules accept the move; then position, history, last move, status and cue follow it; otherwise nothing changes |
| Orchestrator.App.BeginEngineTurn | App.tsx:121-131 | the engine is asked only in an engine game with the engine on, the game not over and the engine's side to move; the error is cleared; with no legal move nothing is requested and thinking stops |
| Orchestrator.App.FinishEngineTurn | App.tsx:134-152 | the reasoning is shown before the move; an accepted move updates position, history, last move and status; a refused move, a throwing move or a failed call sets the matching error; thinking always stops |
| Orchestrator.App.PlayReply | App.tsx:138-149 | the engine's SAN move is played: when accepted, position, history, last move, status and cue follow it; when refused or throwing, nothing but the error changes |
| Orchestrator.App.TakeBack | App.tsx:175-178 | the game object's log becomes the undo log, and its position is the one that log reaches |
| Orchestrator.App.Mirror | App.tsx:179-182 | the position, history and last move are copied from the game object |
| Orchestrator.App.Undo | App.tsx:174-188 | undo takes back one move, and a second one in an engine game when the first leaves the engine to move. Afterwards it is the player's turn or the history is empty, at most two moves are gone, the history is a prefix of the old one, reasoning is cleared and the status shows only a check |
| Orchestrator.App.ToggleAiMode | App.tsx:190-194 | outside an engine game nothing changes; in one the engine switch flips and the game resets |
| Orchestrator.App.ChoosePlayerColor | App.tsx:314-321 | choosing a side sets the player's colour and resets the game |
| Orchestrator.Pop | App.tsx:175 | one `undo()` on a log drops its newest entry, or leaves an empty log empty |
| Orchestrator.UndoLogShape | App.tsx:174-178 | the undo log is a prefix of the old log, shorter by one or two entries (or empty), and by exactly one outside an engine game with the engine on |
| Orchestrator.UndoLogTurn | App.tsx:176-178 | in an engine game with the engine on, after undo the player is to move unless the whole game was taken back |
| Orchestrator.UndoHistory | App.tsx:174-180 | the history after undo is a prefix of the old one, at most two moves shorter, and in an engine game ends on the player's turn unless it is empty |
| Orchestrator.WhiteIsFirst | App.tsx:163 | an empty log means the start position with White to move |
| Orchestrator.App.EngineTurnDue | App.tsx:123 | the effect's guard: an engine game, the engine on, the game not over and the engine's side to move; `BeginEngineTurn` and `EngineDueLocksBoard` use it |
| Orchestrator.App.DisabledAsWritten | App.tsx:247 | the board's `disabled` flag exactly as the program computes it (the same expression is at App.tsx:372); `HandleSquareClick` uses it and `StallAsWritten` shows its flaw |
| Orchestrator.App.Disabled | App.tsx:247 | the corrected flag, which also requires the engine to be on; `NoStall` is proved about it |
| Orchestrator.EngineDueLocksBoard | App.tsx:247 | whenever the engine is due to move, the board is locked, so the human can never move for the engine |
| Orchestrator.NoStall | App.tsx:372 | with the corrected `disabled` flag, a game that is not over and not waiting for the engine either takes clicks or has the engine due |
| Orchestrator.StallAsWritten | App.tsx:247 | with `disabled` as written, an engine game with the engine switched off is stuck after the first move: the board is locked and no engine turn is due |
| Orchestrator.HandleSquareClick | components/ChessBoard.tsx:50-95 | a click on a board locked by the program's own `disabled` flag changes nothing: position, history, selection, listed moves, status, last move, error and thinking flag all stay, and no cue plays; a move is played only from a selected own piece to one of its listed destinations, exactly as the rules accept it; a new position clears the selection |
| Orchestrator.PlayEngineTurn | App.tsx:121-153 | a whole engine turn: a listener that never resolves leaves the engine thinking, a resolved one shows its reasoning and stops thinking, and a legal engine move is the move the game plays, with no error |

## Left out

- Chess rules, search and the engine itself: chess.js and Stockfish are not part of this model. The rules are the `Oracle.Rules` oracle, and the engine is the sequence of text lines it emits, given to `EngineService.Listen` as a parameter.
- Engine start-up (`initEngine` in `services/geminiService.ts`): fetching the script, creating the Worker, the `uci`/`isready` handshake. The `position` and `go depth 12` commands that `getGeminiMove` sends for each request (services/geminiService.ts:125-126) are left out too. This is I/O. A failed start-up is the `Failed` reply of `Orchestrator.App.FinishEngineTurn`.
- Non-string worker messages: they become the empty line, which the listener skips, as the code does.
- The 200 ms timer before the engine turn and the effect's cleanup (App.tsx:155-159): this is time. The timer firing is a call to `Orchestrator.App.BeginEngineTurn`.
- Orchestrator.App.BeginEngineTurn: may be called in any state where the engine's turn is due. The program runs the effect only when one of its dependencies (position, engine switch, player colour, game object, mode; App.tsx:159) changes. So after an engine call that failed, or whose move was refused or threw, the position is unchanged and the program never asks again: the board stays locked (App.tsx:372) until undo or reset. The model does not capture this no-retry behaviour, because it has no record of which dependencies changed since the last run.
- Orchestrator.App.FinishEngineTurn: always applies to the current game object. In the program the engine continuation (App.tsx:125-153) keeps the `game` object of the render that started it, and the Undo, Reset and mode buttons stay enabled while the engine thinks. A reset, a mode change (`toggleAiMode`) or a colour choice during a request puts a new `Chess()` in state (App.tsx:163-164). The late continuation then plays its move on the discarded object, and copies that object's position, history and last move into state while `game` is already the new object. That breaks the invariant that the position, history and last move mirror the game object, and the model does not capture it. After an undo during a request (App.tsx:175-177, the same object), the continuation does play on the current game, as `FinishEngineTurn` models.
- EngineService.ResolvedMoveReplays and Orchestrator.PlayEngineTurn: both assume `Oracle.ReadsOwnSan`, that chess.js accepts the SAN it produced for a move. This is a fact about chess.js, not part of this model's oracle.
- EngineService.EvaluationText: the JavaScript rendering of `val / 100` is modelled with integer arithmetic (sign, integer part, up to two decimals without trailing zeros). This agrees with JavaScript when \|cp\| < 10^15: the value then has at most 15 significant digits, so the two-decimal text is the shortest one that reads back as the same double. Larger values print differently in JavaScript (cp = 9007199254740991 prints `90071992547409.9`, and cp = 10^23 prints `999999999999999900000`), and that rounding is not modelled.
- Strings.ParseInt: reads arbitrarily long digit runs exactly, whereas JavaScript loses precision above 2^53. It does not model radix arguments, which the code never passes.
- The `validMoves` argument of the engine call: the service never reads it. It is carried in `Orchestrator.EngineRequest` only.
- King counting in `getCapturedPieces`: the code increments a missing `k` entry, which yields NaN and is never read. `GameInfo.CountPieces` skips kings.
- Sound playback, muting (`soundService`, `toggleMute`), themes and SVGs (`constants.tsx`), `MainMenu`, the `VictoryOverlay` component's animation (the winner it is given is `OverlayWinner`), fullscreen, the 3D view toggle, the menu/game view switch (`handleBackToMenu`) and all rendering: these are presentation. Sounds are modelled only as the cue `SoundFor` chooses.
- Threefold repetition: chess.js counts repeated positions over the game's history, and its `isDraw` and `isGameOver` include that count. The oracle's `isDraw` and `isGameOver` take only a FEN, so two games that reach the same FEN by different move orders get the same answer. The model does not capture a draw or game end that depends on repetition.
- Promotion choice: the board always submits a queen promotion, and that is modelled as written.

## Findings

| source | as written | input that shows it | evidently intended | confidence | as-written member | corrected member |
|---|---|---|---|---|---|---|
| App.tsx:247 | the board is disabled when the mode is pve and it is not playerColor's turn, or the engine is thinking, whatever `aiMode` is | choose "Vs Engine", switch "Play vs Engine" off (`toggleAiMode`), play 1. e4 as White: it is Black's turn, the board is disabled, and since `aiMode` is off no engine turn is requested, so the game cannot continue | the turn lock applies only while the engine is on: `(gameMode === 'pve' && aiMode && game.turn() !== playerColor) \|\| isAiThinking`; the same expression is repeated at App.tsx:372 | medium, not executed | Orchestrator.StallAsWritten | Orchestrator.NoStall |
