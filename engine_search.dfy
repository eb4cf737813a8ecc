/**
 * The test engine's replies and its random "analysis" (`random_pv` and `run_go` in
 * test/engine.c). The principal variation of each depth is a random walk through the
 * legal moves, driven by the seed; the score is a second draw of the generator.
 */
module EngineSearch {
  import opened UciText
  import opened ChessLib

  /** One line the engine prints. */
  datatype Reply =
    | IdName                              // "id name engine"
    | Chess960Option(default: bool)       // "option name UCI_Chess960 type check default ..."
    | UciOk                               // "uciok"
    | ReadyOk                             // "readyok"
    | Info(depth: int, score: int, pv: string)  // "info depth %d score cp %d pv %s"
    | BestMove(move: string)              // "bestmove %s"

  /** The word a printed line starts with, on which a UCI front end dispatches. */
  function Keyword(r: Reply): (k: string)
    ensures k != "" && ' ' !in k
  {
    match r
    case IdName => "id"
    case Chess960Option(_) => "option"
    case UciOk => "uciok"
    case ReadyOk => "readyok"
    case Info(_, _, _) => "info"
    case BestMove(_) => "bestmove"
  }

  /** What follows the keyword and its space, for the replies that print more than a word. */
  function Arguments(r: Reply): string
  {
    match r
    case IdName => "name engine"
    case Chess960Option(d) => "name UCI_Chess960 type check default " + (if d then "true" else "false")
    case UciOk => ""
    case ReadyOk => ""
    case Info(depth, score, pv) => "depth " + Dec(depth) + " score cp " + Dec(score) + " pv " + pv
    case BestMove(m) => m
  }

  /**
   * The text of a reply, without its line feed: the keyword, then for most replies a
   * space and the arguments. The first token of every printed line is its keyword.
   */
  function Render(r: Reply): (t: string)
    ensures FirstToken(t) == Keyword(r)
  {
    FirstTokenOfWord(Keyword(r), Arguments(r));
    if r.UciOk? || r.ReadyOk? then Keyword(r) else Keyword(r) + " " + Arguments(r)
  }

  /** `(int)(prng(seed) % 65536) - 32768`: a score in the range of a signed 16-bit integer. */
  function Score(value: u64): (s: int)
    ensures -32768 <= s <= 32767
  {
    value % 65536 - 32768
  }

  /** A random line: the moves played, their notation, the position reached, the seed left. */
  datatype Line = Line(moves: seq<Move>, lans: seq<string>, last: Position, seed: u64)

  /** Plays the moves in order, starting from `p`. */
  function Walk(lib: Lib, p: Position, moves: seq<Move>): Position
    decreases |moves|
  {
    if moves == [] then p else Walk(lib, PosMove(lib, p, moves[0]), moves[1..])
  }

  /** Every move is one of the moves generated in the position it is played from. */
  ghost predicate Legal(lib: Lib, p: Position, moves: seq<Move>)
    decreases |moves|
  {
    moves != [] ==> moves[0] in GenAllMoves(lib, p) && Legal(lib, PosMove(lib, p, moves[0]), moves[1..])
  }

  /** The notation of each move, taken in the position it is played from. */
  function Notation(lib: Lib, p: Position, moves: seq<Move>): seq<string>
    decreases |moves|
  {
    if moves == [] then [] else [MoveToLan(lib, p, moves[0])] + Notation(lib, PosMove(lib, p, moves[0]), moves[1..])
  }

  /**
   * What random_pv plays from `p`: at most `len` plies, each a legal move chosen by the
   * generator, stopping early only where no move is legal.
   */
  function RandomLine(lib: Lib, p: Position, seed: u64, len: int): (l: Line)
    ensures |l.moves| == |l.lans| <= if len > 0 then len else 0
    decreases if len > 0 then len else 0
  {
    if len <= 0 then Line([], [], p, seed)
    else
      var legal := GenAllMoves(lib, p);
      if |legal| == 0 then Line([], [], p, seed)
      else
        var draw := Prng(lib, seed);
        var m := legal[draw.value % |legal|];
        var rest := RandomLine(lib, PosMove(lib, p, m), draw.next, len - 1);
        Line([m] + rest.moves, [MoveToLan(lib, p, m)] + rest.lans, rest.last, rest.seed)
  }

  /**
   * A random line is a walk through legal moves: each move is generated in the position
   * it is played from, the notation is that of those moves, and the line ends where they lead.
   */
  lemma {:induction false} RandomLineIsLegal(lib: Lib, p: Position, seed: u64, len: int)
    ensures var l := RandomLine(lib, p, seed, len);
      && Legal(lib, p, l.moves)
      && l.lans == Notation(lib, p, l.moves)
      && l.last == Walk(lib, p, l.moves)
    decreases if len > 0 then len else 0
  {
    var legal := GenAllMoves(lib, p);
    if len > 0 && |legal| > 0 {
      var draw := Prng(lib, seed);
      var m := legal[draw.value % |legal|];
      var rest := RandomLine(lib, PosMove(lib, p, m), draw.next, len - 1);
      RandomLineIsLegal(lib, PosMove(lib, p, m), draw.next, len - 1);
      var l := RandomLine(lib, p, seed, len);
      assert l.moves == [m] + rest.moves;
      assert l.moves[1..] == rest.moves;
    }
  }

  /**
   * A random line shorter than `len` plies ends in a position where no move is legal:
   * the walk stops early only when it is stuck.
   */
  lemma {:induction false} RandomLineStopsOnlyWhenStuck(lib: Lib, p: Position, seed: u64, len: int)
    ensures var l := RandomLine(lib, p, seed, len);
      |l.moves| < len ==> GenAllMoves(lib, l.last) == []
    decreases if len > 0 then len else 0
  {
    var legal := GenAllMoves(lib, p);
    if len > 0 && |legal| > 0 {
      var draw := Prng(lib, seed);
      var m := legal[draw.value % |legal|];
      RandomLineStopsOnlyWhenStuck(lib, PosMove(lib, p, m), draw.next, len - 1);
    }
  }

  /** Where random_pv stands: the notation so far, the current position and the seed. */
  datatype Progress = Progress(lans: seq<string>, at: Position, seed: u64)

  /** The end of random_pv once the notation `lans` has been played and line `l` follows. */
  function After(lans: seq<string>, l: Line): Progress
  {
    Progress(lans + l.lans, l.last, l.seed)
  }

  /** One ply of a random line, seen from the plies already played. */
  lemma AfterStep(lib: Lib, lans: seq<string>, p: Position, seed: u64, len: int, m: Move)
    requires len > 0 && GenAllMoves(lib, p) != []
    requires m == GenAllMoves(lib, p)[Prng(lib, seed).value % |GenAllMoves(lib, p)|]
    ensures After(lans, RandomLine(lib, p, seed, len))
         == After(lans + [MoveToLan(lib, p, m)], RandomLine(lib, PosMove(lib, p, m), Prng(lib, seed).next, len - 1))
  {
    var rest := RandomLine(lib, PosMove(lib, p, m), Prng(lib, seed).next, len - 1);
    assert RandomLine(lib, p, seed, len).lans == [MoveToLan(lib, p, m)] + rest.lans;
    assert lans + ([MoveToLan(lib, p, m)] + rest.lans) == (lans + [MoveToLan(lib, p, m)]) + rest.lans;
  }

  /** Out of plies or of legal moves, a random line adds nothing. */
  lemma AfterStop(lib: Lib, lans: seq<string>, p: Position, seed: u64, len: int)
    requires len <= 0 || GenAllMoves(lib, p) == []
    ensures After(lans, RandomLine(lib, p, seed, len)) == Progress(lans, p, seed)
  {
    assert lans + [] == lans;
  }

  /**
   * Where random_pv stands after `k` passes of its loop from `pos`: each pass draws a move
   * among the legal ones and plays it, and a pass in a position without a legal move
   * changes nothing (the loop has stopped there).
   */
  function Plies(lib: Lib, pos: Position, seed: u64, k: nat): (p: Progress)
    ensures |p.lans| <= k
    ensures |p.lans| == k || GenAllMoves(lib, p.at) == []
  {
    if k == 0 then Progress([], pos, seed)
    else
      var s := Plies(lib, pos, seed, k - 1);
      var legal := GenAllMoves(lib, s.at);
      if legal == [] then s
      else
        var draw := Prng(lib, s.seed);
        var m := legal[draw.value % |legal|];
        Progress(s.lans + [MoveToLan(lib, s.at, m)], PosMove(lib, s.at, m), draw.next)
  }

  /**
   * After `k <= len` passes, what is left of the random line of `len` plies is the random
   * line of `len - k` plies from where the passes stand.
   */
  lemma {:induction false} PliesFollowLine(lib: Lib, pos: Position, seed: u64, len: int, k: nat)
    requires k == 0 || k <= len
    ensures var s := Plies(lib, pos, seed, k);
      After(s.lans, RandomLine(lib, s.at, s.seed, len - k)) == After([], RandomLine(lib, pos, seed, len))
  {
    if k > 0 {
      PliesFollowLine(lib, pos, seed, len, k - 1);
      var s := Plies(lib, pos, seed, k - 1);
      var legal := GenAllMoves(lib, s.at);
      if legal == [] {
        AfterStop(lib, s.lans, s.at, s.seed, len - (k - 1));
        AfterStop(lib, s.lans, s.at, s.seed, len - k);
      } else {
        var m := legal[Prng(lib, s.seed).value % |legal|];
        AfterStep(lib, s.lans, s.at, s.seed, len - (k - 1), m);
      }
    }
  }

  /**
   * random_pv: the PV string is the line's notation, each move followed by a space; the
   * plies go through the scratch pair `p[2]`, so the caller's position is never written.
   */
  method RandomPv(lib: Lib, pos: Position, seed: u64, len: int) returns (pv: string, seedOut: u64)
    ensures pv == SpaceTerminated(RandomLine(lib, pos, seed, len).lans)
    ensures seedOut == RandomLine(lib, pos, seed, len).seed
  {
    pv := "";
    seedOut := seed;
    var p := new Position[2] [pos, pos];
    ghost var lans: seq<string> := [];
    ghost var at := pos;
    var ply := 0;
    var cur := 0;
    while ply < len
      invariant cur == 0 || cur == 1
      invariant 0 <= ply && (ply == 0 || ply <= len)
      invariant p[cur] == at
      invariant Progress(lans, at, seedOut) == Plies(lib, pos, seed, ply)
      invariant pv == SpaceTerminated(lans)
    {
      var here := p[cur];
      var legal := GenAllMoves(lib, here);
      var n := |legal|;
      if n == 0 {
        break;
      }
      var draw := Prng(lib, seedOut);
      var m := legal[draw.value % n];
      var lan := MoveToLan(lib, here, m);
      SpaceTerminatedSnoc(lans, lan);
      pv := pv + lan + " ";
      p[1 - cur] := PosMove(lib, here, m);
      at := p[1 - cur];
      cur := 1 - cur;
      seedOut := draw.next;
      lans := lans + [lan];
      ply := ply + 1;
    }
    PliesFollowLine(lib, pos, seed, len, ply);
    AfterStop(lib, lans, at, seedOut, len - ply);
    assert [] + RandomLine(lib, pos, seed, len).lans == RandomLine(lib, pos, seed, len).lans;
  }

  /** After the iterations for depths 1..k of run_go: the info lines, the last PV and the seed. */
  datatype Analysis = Analysis(infos: seq<Reply>, pv: string, seed: u64)

  function Deepen(lib: Lib, pos: Position, seed: u64, k: nat): Analysis
  {
    if k == 0 then Analysis([], "", seed)
    else
      var prev := Deepen(lib, pos, seed, k - 1);
      var line := RandomLine(lib, pos, prev.seed, k);
      var pv := SpaceTerminated(line.lans);
      var draw := Prng(lib, line.seed);
      Analysis(prev.infos + [Info(k, Score(draw.value), pv)], pv, draw.next)
  }

  /** What `go` prints, and the seed it leaves. */
  datatype GoOutput = GoOutput(replies: seq<Reply>, seed: u64)

  /** run_go: the iterations for depths 1..depth, then `bestmove` with the last PV's first token. */
  function GoSpec(lib: Lib, pos: Position, depth: int, seed: u64): GoOutput
  {
    var a := Deepen(lib, pos, seed, if depth > 0 then depth else 0);
    GoOutput(a.infos + [BestMove(FirstToken(a.pv))], a.seed)
  }

  /** One info line per depth 1..k, in order, each with a score in the 16-bit range. */
  lemma {:induction false} InfoLines(lib: Lib, pos: Position, seed: u64, k: nat)
    ensures |Deepen(lib, pos, seed, k).infos| == k
    ensures forall i | 0 <= i < k :: Deepen(lib, pos, seed, k).infos[i].Info?
    ensures forall i | 0 <= i < k :: Deepen(lib, pos, seed, k).infos[i].depth == i + 1
    ensures forall i | 0 <= i < k ::
      -32768 <= Deepen(lib, pos, seed, k).infos[i].score <= 32767
  {
    if k > 0 {
      InfoLines(lib, pos, seed, k - 1);
    }
  }

  /**
   * `go` prints exactly max(0, depth) info lines, for depths 1, 2, .. in order, whatever
   * the PVs turn out to be, and then one `bestmove` line; with depth <= 0 the move is empty.
   */
  lemma GoShape(lib: Lib, pos: Position, depth: int, seed: u64)
    ensures var n := if depth > 0 then depth else 0;
      && |GoSpec(lib, pos, depth, seed).replies| == n + 1
      && (forall i | 0 <= i < n :: GoSpec(lib, pos, depth, seed).replies[i].Info?)
      && (forall i | 0 <= i < n :: GoSpec(lib, pos, depth, seed).replies[i].depth == i + 1)
      && (forall i | 0 <= i < n :: -32768 <= GoSpec(lib, pos, depth, seed).replies[i].score <= 32767)
      && GoSpec(lib, pos, depth, seed).replies[n].BestMove?
    ensures depth <= 0 ==> GoSpec(lib, pos, depth, seed).replies == [BestMove("")]
  {
    var n := if depth > 0 then depth else 0;
    InfoLines(lib, pos, seed, n);
    var r := GoSpec(lib, pos, depth, seed).replies;
    assert forall i | 0 <= i < n :: r[i] == Deepen(lib, pos, seed, n).infos[i];
  }

  /**
   * The `bestmove` token is the first move of the deepest PV, provided its notation is a
   * non-empty word; it is empty when that PV is empty (no legal move in `pos`).
   */
  lemma BestMoveIsFirstOfLastPv(lib: Lib, pos: Position, depth: int, seed: u64)
    requires depth >= 1
    requires var line := RandomLine(lib, pos, Deepen(lib, pos, seed, depth - 1).seed, depth);
      line.lans != [] ==> line.lans[0] != "" && ' ' !in line.lans[0]
    ensures var line := RandomLine(lib, pos, Deepen(lib, pos, seed, depth - 1).seed, depth);
      && (line.lans == [] <==> GenAllMoves(lib, pos) == [])
      && Last(GoSpec(lib, pos, depth, seed).replies)
         == BestMove(if line.lans == [] then "" else line.lans[0])
  {
    var prev := Deepen(lib, pos, seed, depth - 1);
    var line := RandomLine(lib, pos, prev.seed, depth);
    var a := Deepen(lib, pos, seed, depth);
    DeepenStep(lib, pos, seed, depth, prev.seed);
    assert Last(GoSpec(lib, pos, depth, seed).replies) == BestMove(FirstToken(a.pv));
    FirstTokenOfList(line.lans);
  }

  /** The last line printed. */
  function Last<T>(s: seq<T>): T
    requires s != []
  {
    s[|s| - 1]
  }

  /**
   * Without a legal move in `pos` every PV is empty and so is the `bestmove` token,
   * yet one info line is still printed per depth.
   */
  lemma {:induction false} NoLegalMove(lib: Lib, pos: Position, seed: u64, k: nat)
    requires GenAllMoves(lib, pos) == []
    ensures Deepen(lib, pos, seed, k).pv == ""
    ensures forall i | 0 <= i < |Deepen(lib, pos, seed, k).infos| ::
      Deepen(lib, pos, seed, k).infos[i].Info? && Deepen(lib, pos, seed, k).infos[i].pv == ""
  {
    if k > 0 {
      NoLegalMove(lib, pos, seed, k - 1);
      InfoLines(lib, pos, seed, k - 1);
    }
  }

  /** Without a legal move, `go` still prints its info lines and then an empty `bestmove`. */
  lemma NoLegalMoveGo(lib: Lib, pos: Position, depth: int, seed: u64)
    requires GenAllMoves(lib, pos) == []
    ensures Last(GoSpec(lib, pos, depth, seed).replies) == BestMove("")
    ensures |GoSpec(lib, pos, depth, seed).replies| == (if depth > 0 then depth else 0) + 1
  {
    var n := if depth > 0 then depth else 0;
    NoLegalMove(lib, pos, seed, n);
    InfoLines(lib, pos, seed, n);
  }

  /** Depth `k` of the analysis, given the seed that depth `k - 1` left. */
  lemma DeepenStep(lib: Lib, pos: Position, seed: u64, k: nat, s: u64)
    requires k >= 1 && Deepen(lib, pos, seed, k - 1).seed == s
    ensures var line := RandomLine(lib, pos, s, k);
      var draw := Prng(lib, line.seed);
      Deepen(lib, pos, seed, k) == Analysis(
        Deepen(lib, pos, seed, k - 1).infos + [Info(k, Score(draw.value), SpaceTerminated(line.lans))],
        SpaceTerminated(line.lans), draw.next)
  {
  }

  /** The `for` loop of run_go: for depths 1..depth, a random PV and an info line each. */
  method Iterate(lib: Lib, pos: Position, depth: int, seed: u64) returns (infos: seq<Reply>, pv: string, seedOut: u64)
    ensures Analysis(infos, pv, seedOut) == Deepen(lib, pos, seed, if depth > 0 then depth else 0)
  {
    pv := "";
    infos := [];
    seedOut := seed;
    var d := 1;
    while d <= depth
      invariant 1 <= d <= if depth >= 1 then depth + 1 else 1
      invariant Deepen(lib, pos, seed, d - 1) == Analysis(infos, pv, seedOut)
    {
      DeepenStep(lib, pos, seed, d, seedOut);
      pv, seedOut := RandomPv(lib, pos, seedOut, d);
      var draw := Prng(lib, seedOut);
      seedOut := draw.next;
      infos := infos + [Info(d, Score(draw.value), pv)];
      d := d + 1;
    }
  }

  /** run_go: the loop over the depths, then `bestmove` with the first token of the last PV. */
  method RunGo(lib: Lib, pos: Position, depth: int, seed: u64) returns (replies: seq<Reply>, seedOut: u64)
    ensures GoOutput(replies, seedOut) == GoSpec(lib, pos, depth, seed)
  {
    var infos, pv;
    infos, pv, seedOut := Iterate(lib, pos, depth, seed);
    replies := infos + [BestMove(FirstToken(pv))];
  }
}
