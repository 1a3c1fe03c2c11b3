/**
 * The engine reply parser (services/geminiService.ts): the listener that reads the engine's
 * Universal Chess Interface (UCI) output lines for one request, keeps the latest
 * `info ... score cp|mate <n>` evaluation, and resolves on the first `bestmove <move>` line.
 */
module EngineService {
  import opened Wrappers
  import opened Strings
  import opened Oracle

  /** `AIAnalysisResult`: the move to play and the evaluation text shown beside it. */
  datatype AnalysisResult = AnalysisResult(bestMove: string, reasoning: string)

  /** The listener's `evaluation` variable, before it is rendered as text. */
  datatype Evaluation = Calculating | MateIn(moves: nat) | Centipawns(value: int)

  /** JavaScript's text for the number cp / 100: at most two decimals, no trailing zero. */
  function PawnsText(cp: int): string {
    var a: nat := if cp < 0 then -cp else cp;
    var whole, frac := a / 100, a % 100;
    var digits :=
      if frac == 0 then NatToString(whole)
      else if frac % 10 == 0 then NatToString(whole) + "." + [DigitChar(frac / 10)]
      else NatToString(whole) + "." + [DigitChar(frac / 10), DigitChar(frac % 10)];
    (if cp < 0 then "-" else "") + digits
  }

  function EvaluationText(e: Evaluation): string {
    match e
    case Calculating => "Calculating..."
    case MateIn(n) => "Mate in " + NatToString(n)
    case Centipawns(cp) => "Score: " + (if cp > 0 then "+" else "") + PawnsText(cp)
  }

  /** A mate evaluation reads back as its non-negative move count. */
  lemma MateTextReadsBack(n: nat)
    ensures StartsWith(EvaluationText(MateIn(n)), "Mate in ")
    ensures ParseInt(EvaluationText(MateIn(n))[8..]) == Some(n)
  {
    var t := EvaluationText(MateIn(n));
    assert t[8..] == NatToString(n) == IntToString(n);
    ParseIntToString(n);
  }

  /** A centipawn score is shown with `+` exactly when positive and `-` exactly when negative. */
  lemma ScoreTextSign(cp: int)
    ensures StartsWith(EvaluationText(Centipawns(cp)), "Score: ")
    ensures |EvaluationText(Centipawns(cp))| > 7
    ensures EvaluationText(Centipawns(cp))[7] == '+' <==> cp > 0
    ensures EvaluationText(Centipawns(cp))[7] == '-' <==> cp < 0
    ensures '0' <= EvaluationText(Centipawns(cp))[7] <= '9' <==> cp == 0
  {
    var a: nat := if cp < 0 then -cp else cp;
    var p := PawnsText(cp);
    assert '0' <= NatToString(a / 100)[0] <= '9';
    if cp < 0 {
      assert p[0] == '-';
    } else {
      assert p[0] == NatToString(a / 100)[0];
    }
  }

  /** The evaluation an `info` line carries, if it is a usable score line. */
  function ScoreUpdate(line: string): (e: Option<Evaluation>)
    ensures e.Some? ==> e.value != Calculating
  {
    if !(StartsWith(line, "info") && Contains(line, "score")) then None
    else
      var parts := Split(line, ' ');
      var k := IndexOf(parts, "score");
      if k == -1 || |parts| <= k + 2 then None else ScoreOfPieces(parts, k)
  }

  /** The evaluation the two tokens after a `score` token at position k carry. */
  function ScoreOfPieces(parts: seq<string>, k: nat): (e: Option<Evaluation>)
    requires k + 2 < |parts|
    ensures e.Some? ==> e.value != Calculating
  {
    match ParseInt(parts[k + 2])
    case None => None
    case Some(v) =>
      if parts[k + 1] == "mate" then Some(MateIn(if v < 0 then -v else v))
      else if parts[k + 1] == "cp" then Some(Centipawns(v))
      else None
  }

  lemma {:induction false} FirstPieceIsPrefix(s: string, sep: char)
    ensures StartsWith(s, Split(s, sep)[0])
    decreases |s|
  {
    if s != [] && s[0] != sep {
      FirstPieceIsPrefix(s[1..], sep);
      var rest := Split(s[1..], sep);
      assert s[..|rest[0]| + 1] == [s[0]] + s[1..][..|rest[0]|];
    }
  }

  lemma {:induction false} PieceIsContained(s: string, sep: char, i: nat)
    requires i < |Split(s, sep)|
    ensures Contains(s, Split(s, sep)[i])
    decreases |s|
  {
    if s == [] {
      assert StartsWith(s, "");
    } else {
      var rest := Split(s[1..], sep);
      if i == 0 {
        FirstPieceIsPrefix(s, sep);
      } else if s[0] == sep {
        PieceIsContained(s[1..], sep, i - 1);
      } else {
        PieceIsContained(s[1..], sep, i);
      }
    }
  }

  /**
   * A line updates the evaluation exactly when it starts with `info`, has an exact `score`
   * token followed by a `mate` or `cp` token and a token that parses as an integer. The
   * substring test on "score" is implied by the token test.
   */
  lemma ScoreUpdateConditions(line: string)
    ensures ScoreUpdate(line).Some? <==>
      && StartsWith(line, "info")
      && "score" in Split(line, ' ')
      && var parts := Split(line, ' ');
         var k := IndexOf(parts, "score");
         && k + 2 < |parts|
         && ParseInt(parts[k + 2]).Some?
         && (parts[k + 1] == "mate" || parts[k + 1] == "cp")
  {
    var parts := Split(line, ' ');
    if "score" in parts {
      var k := IndexOf(parts, "score");
      PieceIsContained(line, ' ', k);
    }
  }

  /** The move token of a `bestmove` line: the second space-separated token, if there is one. */
  function BestMoveToken(line: string): (m: Option<string>)
    ensures m.Some? <==> StartsWith(line, "bestmove") && |Split(line, ' ')| >= 2
    ensures m.Some? ==> m.value == Split(line, ' ')[1]
  {
    if StartsWith(line, "bestmove") then
      var parts := Split(line, ' ');
      if |parts| >= 2 then Some(parts[1]) else None
    else None
  }

  /** The engine's `bestmove <move>` line, with or without a `ponder` part, yields its move. */
  lemma BestMoveReadsBack(m: string, rest: string)
    requires ' ' !in m
    requires rest == [] || rest[0] == ' '
    ensures BestMoveToken("bestmove " + m + rest) == Some(m)
  {
    var line := "bestmove " + m + rest;
    assert line[..8] == "bestmove";
    assert line == "bestmove" + [' '] + (m + rest);
    SplitAppend("bestmove", m + rest, ' ');
    if rest == [] {
      assert m + rest == m;
      SplitNoSep(m, ' ');
    } else {
      assert m + rest == m + [' '] + rest[1..];
      SplitAppend(m, rest[1..], ' ');
    }
  }

  /** A line of a single word, or one that does not start with `bestmove`, resolves nothing. */
  lemma BestMoveNeedsMove(line: string)
    requires ' ' !in line || !StartsWith(line, "bestmove")
    ensures BestMoveToken(line).None?
  {
    if ' ' !in line {
      SplitNoSep(line, ' ');
    }
  }

  /** Printed integers contain no space. */
  lemma IntTextNoSpace(v: int)
    ensures ' ' !in IntToString(v)
  {
    var m: nat := if v < 0 then -v else v;
    assert forall i :: 0 <= i < |NatToString(m)| ==> NatToString(m)[i] != ' ';
    if v < 0 {
      assert forall i :: 0 <= i < |IntToString(v)| ==> IntToString(v)[i] == '-' || IntToString(v)[i] in NatToString(m);
    }
  }

  /**
   * An `info` line whose first `score` token is followed by `cp <v>` or `mate <v>` updates the
   * evaluation to that score (a mate count without its sign); any other kind leaves it alone.
   */
  lemma ScoreLineReadsBack(pre: seq<string>, kind: string, v: int, post: seq<string>)
    requires forall i :: 0 <= i < |pre| ==> ' ' !in pre[i] && pre[i] != "score"
    requires forall i :: 0 <= i < |post| ==> ' ' !in post[i]
    requires ' ' !in kind
    ensures var line := Join(["info"] + pre + ["score", kind, IntToString(v)] + post, ' ');
      && (kind == "cp" ==> ScoreUpdate(line) == Some(Centipawns(v)))
      && (kind == "mate" ==> ScoreUpdate(line) == Some(MateIn(if v < 0 then -v else v)))
      && (kind != "cp" && kind != "mate" ==> ScoreUpdate(line).None?)
  {
    var parts := ["info"] + pre + ["score", kind, IntToString(v)] + post;
    var k := |pre| + 1;
    ScoreTokensNoSpace(pre, kind, v, post);
    ScoreTokensAt(pre, kind, v, post);
    TokenIndex(parts, pre, k);
    ScoreOfTokens(parts, k);
    ScoreOfPrintedValue(parts, k, v);
  }

  lemma ScoreOfPrintedValue(parts: seq<string>, k: nat, v: int)
    requires k + 2 < |parts| && parts[k + 2] == IntToString(v)
    ensures ScoreOfPieces(parts, k) ==
      if parts[k + 1] == "mate" then Some(MateIn(if v < 0 then -v else v))
      else if parts[k + 1] == "cp" then Some(Centipawns(v))
      else None
  {
    ParseIntToString(v);
  }

  lemma ScoreTokensAt(pre: seq<string>, kind: string, v: int, post: seq<string>)
    ensures var parts := ["info"] + pre + ["score", kind, IntToString(v)] + post;
      && |parts| == |pre| + |post| + 4 && parts[0] == "info"
      && parts[..|pre| + 1] == ["info"] + pre
      && parts[|pre| + 1] == "score" && parts[|pre| + 2] == kind && parts[|pre| + 3] == IntToString(v)
  {
  }

  /** The score a line of space-free tokens carries is read from the tokens after its first `score`. */
  lemma ScoreOfTokens(parts: seq<string>, k: nat)
    requires |parts| >= 1 && parts[0] == "info" && forall i :: 0 <= i < |parts| ==> ' ' !in parts[i]
    requires IndexOf(parts, "score") == k && k + 2 < |parts|
    ensures ScoreUpdate(Join(parts, ' ')) == ScoreOfPieces(parts, k)
  {
    var line := Join(parts, ' ');
    SplitJoin(parts, ' ');
    JoinStartsWith(parts, ' ');
    PieceIsContained(line, ' ', k);
  }

  lemma ScoreTokensNoSpace(pre: seq<string>, kind: string, v: int, post: seq<string>)
    requires forall i :: 0 <= i < |pre| ==> ' ' !in pre[i]
    requires forall i :: 0 <= i < |post| ==> ' ' !in post[i]
    requires ' ' !in kind
    ensures var parts := ["info"] + pre + ["score", kind, IntToString(v)] + post;
      forall i :: 0 <= i < |parts| ==> ' ' !in parts[i]
  {
    var parts := ["info"] + pre + ["score", kind, IntToString(v)] + post;
    var k := |pre| + 1;
    IntTextNoSpace(v);
    forall i | 0 <= i < |parts| ensures ' ' !in parts[i] {
      if 0 < i < k {
        assert parts[i] == pre[i - 1];
      } else if i > k + 2 {
        assert parts[i] == post[i - k - 3];
      }
    }
  }

  lemma TokenIndex(parts: seq<string>, pre: seq<string>, k: nat)
    requires k == |pre| + 1 && k < |parts| && parts[k] == "score"
    requires parts[..k] == ["info"] + pre
    requires forall i :: 0 <= i < |pre| ==> pre[i] != "score"
    ensures IndexOf(parts, "score") == k
  {
    assert "score" !in parts[..k] by {
      forall i | 0 <= i < k ensures parts[..k][i] != "score" {
        if i > 0 {
          assert parts[..k][i] == pre[i - 1];
        }
      }
    }
  }

  /** A joined line starts with its first piece. */
  lemma JoinStartsWith(parts: seq<string>, sep: char)
    requires |parts| >= 1
    ensures StartsWith(Join(parts, sep), parts[0])
  {
    if |parts| > 1 {
      var line := Join(parts, sep);
      assert line[..|parts[0]|] == parts[0];
    }
  }

  /** `s.substring(start, end)` for start <= end: both ends are clamped to the length. */
  function Substring(s: string, start: nat, end: nat): (t: string)
    requires start <= end
    ensures |t| <= end - start
    ensures end <= |s| ==> t == s[start..end]
    ensures start >= |s| ==> t == ""
    ensures start < |s| <= end ==> t == s[start..]
  {
    var a := if start < |s| then start else |s|;
    var b := if end < |s| then end else |s|;
    s[a..b]
  }

  /** A UCI long-algebraic move split into origin, destination and optional promotion letter. */
  function SplitUci(uci: string): (req: MoveRequest)
    ensures |req.from| <= 2 && |req.to| <= 2
    ensures req.promotion.Some? <==> |uci| > 4
    ensures req.promotion.Some? ==> |req.promotion.value| == 1
    ensures req.from + req.to + (if req.promotion.Some? then req.promotion.value else "")
            == uci[..if |uci| < 5 then |uci| else 5]
  {
    var from := Substring(uci, 0, 2);
    var to := Substring(uci, 2, 4);
    var promotion := if |uci| > 4 then Some(Substring(uci, 4, 5)) else None;
    assert |uci| >= 4 ==> from + to == uci[..4];
    assert |uci| >= 5 ==> uci[..5] == uci[..4] + uci[4..5];
    MoveRequest(from, to, promotion)
  }

  /** Four- and five-character moves split without losing a character. */
  lemma SplitUciLossless(uci: string)
    requires |uci| == 4 || |uci| == 5
    ensures var req := SplitUci(uci);
      req.from + req.to + (if req.promotion.Some? then req.promotion.value else "") == uci
  {
    assert uci[..|uci|] == uci;
  }

  /** The SAN of the move in the request's position, or the raw UCI text if the rules refuse it. */
  function ResolveMove(r: Rules, fen: Fen, uci: string): (m: string)
    ensures r.play(fen, SplitUci(uci)).Accepted? ==> m == r.play(fen, SplitUci(uci)).record.san
    ensures !r.play(fen, SplitUci(uci)).Accepted? ==> m == uci
  {
    match r.play(fen, SplitUci(uci))
    case Accepted(_, record) => record.san
    case _ => uci
  }

  /** The move the service names is one the game replays with the same result, unless it fell back. */
  lemma ResolvedMoveReplays(r: Rules, fen: Fen, uci: string)
    requires ReadsOwnSan(r)
    ensures r.play(fen, SplitUci(uci)).Accepted? ==>
      r.playSan(fen, ResolveMove(r, fen, uci)) == r.play(fen, SplitUci(uci))
  {
    assert SanReplays(r, fen, SplitUci(uci));
  }

  /** The evaluation after reading one line. */
  function Step(line: string, e: Evaluation): Evaluation {
    match ScoreUpdate(line)
    case Some(v) => v
    case None => e
  }

  /** What the listener does with the lines from the given one on; Pending means it never resolves. */
  datatype ListenResult = Resolved(result: AnalysisResult) | Pending(evaluation: Evaluation)

  function Respond(r: Rules, fen: Fen, lines: seq<string>, e: Evaluation): ListenResult
    decreases |lines|
  {
    if lines == [] then Pending(e)
    else
      var e' := Step(lines[0], e);
      match BestMoveToken(lines[0])
      case Some(uci) => Resolved(AnalysisResult(ResolveMove(r, fen, uci), EvaluationText(e')))
      case None => Respond(r, fen, lines[1..], e')
  }

  /** The listener for one request, as a loop over the lines the engine emits. */
  method Listen(r: Rules, fen: Fen, lines: seq<string>) returns (outcome: ListenResult)
    ensures outcome == Respond(r, fen, lines, Calculating)
  {
    var evaluation := Calculating;
    var i := 0;
    while i < |lines|
      invariant 0 <= i <= |lines|
      invariant Respond(r, fen, lines, Calculating) == Respond(r, fen, lines[i..], evaluation)
    {
      var line := lines[i];
      assert lines[i..][0] == line && lines[i..][1..] == lines[i + 1..];
      if line != "" {
        var score := ScoreUpdate(line);
        if score.Some? {
          evaluation := score.value;
        }
        var best := BestMoveToken(line);
        if best.Some? {
          var bestMoveUci := best.value;
          outcome := Resolved(AnalysisResult(ResolveMove(r, fen, bestMoveUci), EvaluationText(evaluation)));
          return;
        }
      }
      i := i + 1;
    }
    outcome := Pending(evaluation);
  }

  /** The evaluation after reading every line in order, from `init`. */
  function LatestEvaluation(lines: seq<string>, init: Evaluation): Evaluation
    decreases |lines|
  {
    if lines == [] then init
    else Step(lines[|lines| - 1], LatestEvaluation(lines[..|lines| - 1], init))
  }

  /** With no usable score line the evaluation stays at `init`. */
  lemma {:induction false} LatestWithoutScores(lines: seq<string>, init: Evaluation)
    requires forall i :: 0 <= i < |lines| ==> ScoreUpdate(lines[i]).None?
    ensures LatestEvaluation(lines, init) == init
    decreases |lines|
  {
    if lines != [] {
      var front := lines[..|lines| - 1];
      assert forall i :: 0 <= i < |front| ==> front[i] == lines[i];
      LatestWithoutScores(front, init);
    }
  }

  /** The last usable score line wins, whatever came before it. */
  lemma {:induction false} LatestScoreWins(lines: seq<string>, init: Evaluation, i: nat)
    requires i < |lines| && ScoreUpdate(lines[i]).Some?
    requires forall j :: i < j < |lines| ==> ScoreUpdate(lines[j]).None?
    ensures LatestEvaluation(lines, init) == ScoreUpdate(lines[i]).value
    decreases |lines|
  {
    if i < |lines| - 1 {
      var front := lines[..|lines| - 1];
      assert forall j :: 0 <= j < |front| ==> front[j] == lines[j];
      LatestScoreWins(front, init, i);
    }
  }

  /** Lines without a `bestmove` token only fold their scores into the evaluation. */
  lemma {:induction false} RespondSkips(r: Rules, fen: Fen, lines: seq<string>, init: Evaluation, k: nat)
    requires k <= |lines|
    requires forall i :: 0 <= i < k ==> BestMoveToken(lines[i]).None?
    ensures Respond(r, fen, lines, init) == Respond(r, fen, lines[k..], LatestEvaluation(lines[..k], init))
    decreases k
  {
    if k == 0 {
      assert lines[..0] == [];
    } else {
      RespondSkips(r, fen, lines, init, k - 1);
      assert lines[..k][..k - 1] == lines[..k - 1];
      assert lines[k - 1..][1..] == lines[k..];
    }
  }

  /** The index of the first line that resolves the request. */
  function FirstBestMove(lines: seq<string>): (j: Option<nat>)
    ensures j.Some? ==> j.value < |lines| && BestMoveToken(lines[j.value]).Some?
    ensures j.Some? ==> forall i :: 0 <= i < j.value ==> BestMoveToken(lines[i]).None?
    ensures j.None? ==> forall i :: 0 <= i < |lines| ==> BestMoveToken(lines[i]).None?
    decreases |lines|
  {
    if lines == [] then None
    else if BestMoveToken(lines[0]).Some? then Some(0)
    else
      var j := FirstBestMove(lines[1..]);
      if j.None? then None else Some(j.value + 1)
  }

  /**
   * The listener resolves on the first `bestmove` line with its move token, reporting the
   * latest score seen up to and including that line; with no such line it never resolves.
   */
  lemma {:induction false} ListenOutcome(r: Rules, fen: Fen, lines: seq<string>, init: Evaluation)
    ensures FirstBestMove(lines).None? ==> Respond(r, fen, lines, init) == Pending(LatestEvaluation(lines, init))
    ensures FirstBestMove(lines).Some? ==>
      var j := FirstBestMove(lines).value;
      Respond(r, fen, lines, init) == Resolved(AnalysisResult(
        ResolveMove(r, fen, BestMoveToken(lines[j]).value), EvaluationText(LatestEvaluation(lines[..j + 1], init))))
  {
    var j := FirstBestMove(lines);
    if j.None? {
      RespondSkips(r, fen, lines, init, |lines|);
      assert lines[..|lines|] == lines;
    } else {
      var k := j.value;
      RespondSkips(r, fen, lines, init, k);
      assert lines[k..][0] == lines[k];
      assert lines[..k + 1][..k] == lines[..k];
    }
  }
}
