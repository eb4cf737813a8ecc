/**
 * The test engine's argument parsers (`parse_option`, `parse_go`, `parse_position` in
 * test/engine.c). Each receives the tokens of a command line after the command word.
 * An `assert` or `DIE` of the engine, which ends the process, is a `Fatal` result.
 */
module EngineParse {
  import opened UciText
  import opened ChessLib

  datatype Option<T> = None | Some(value: T)

  /** Why the engine process stops on a malformed command. */
  datatype Failure =
    | GoWithoutArgument               // `assert(tail)` in parse_go
    | PositionWithoutArgument         // `assert(tail)` in parse_position
    | UnknownPositionSource(token: string)  // `assert(false)` in parse_position
    | IllegalFen(fen: string)         // `DIE("Illegal FEN ...")`

  datatype Result<T> = Ok(value: T) | Fatal(failure: Failure)

  const Chess960Name := "UCI_Chess960"

  /** The FEN that `startpos` stands for. */
  const StartFen := "rnbqkbnr/pppppppp/8/8/8/8/PPPPPPPP/RNBQKBNR w KQkq - 0 1"

  /**
   * Reads the expected words one token at a time, as a chain of `str_tok` and `strcmp`
   * does, and gives the tokens after them; None as soon as a token is missing or differs.
   */
  function MatchWords(tail: seq<string>, words: seq<string>): (rest: Option<seq<string>>)
    ensures rest.Some? <==> |words| <= |tail| && tail[..|words|] == words
    ensures rest.Some? ==> rest.value == tail[|words|..]
    decreases |words|
  {
    if words == [] then Some(tail)
    else if tail == [] || tail[0] != words[0] then None
    else
      var r := MatchWords(tail[1..], words[1..]);
      assert r.Some? ==> tail[..|words|] == [tail[0]] + tail[1..][..|words| - 1];
      r
  }

  /**
   * parse_option: `name UCI_Chess960 value <v>` sets the flag to whether `<v>` is
   * "true" (tokens after `<v>` are not looked at); anything else leaves it alone.
   */
  function ParseOption(tail: seq<string>, chess960: bool): (r: bool)
    ensures |tail| >= 4 && tail[0] == "name" && tail[1] == Chess960Name && tail[2] == "value"
            ==> r == (tail[3] == "true")
    ensures !(|tail| >= 4 && tail[0] == "name" && tail[1] == Chess960Name && tail[2] == "value")
            ==> r == chess960
  {
    match MatchWords(tail, ["name", Chess960Name, "value"])
    case Some(rest) => if rest == [] then chess960 else rest[0] == "true"
    case None => chess960
  }

  /**
   * parse_go: there must be a token after `go`; `depth <n>` sets the depth to
   * `atoi(n)`, any other argument leaves the depth as it was.
   */
  function ParseGo(tail: seq<string>, depth: int): (r: Result<int>)
    ensures r.Fatal? <==> tail == []
    ensures r.Fatal? ==> r.failure == GoWithoutArgument
    ensures r.Ok? && |tail| >= 2 && tail[0] == "depth" ==> r.value == Atoi(tail[1])
    ensures r.Ok? && !(|tail| >= 2 && tail[0] == "depth") ==> r.value == depth
  {
    if tail == [] then Fatal(GoWithoutArgument)
    else match MatchWords(tail, ["depth"])
      case Some(rest) => if rest == [] then Ok(depth) else Ok(Atoi(rest[0]))
      case None => Ok(depth)
  }

  /** Where the first `moves` token is, or the length when there is none. */
  function MovesIndex(tokens: seq<string>): (k: nat)
    ensures k <= |tokens|
    ensures forall i | 0 <= i < k :: tokens[i] != "moves"
    ensures k < |tokens| ==> tokens[k] == "moves"
  {
    if tokens == [] || tokens[0] == "moves" then 0 else 1 + MovesIndex(tokens[1..])
  }

  /**
   * What parse_position leaves in `*pos`: `startpos` sets the initial position, `fen`
   * sets the position of the FEN made of the tokens before `moves` (each followed by a
   * space), and the moves after a `moves` token are then played in order.
   */
  function PositionSpec(lib: Lib, tail: seq<string>, pos: Position, chess960: bool): Result<Position>
  {
    if tail == [] then Fatal(PositionWithoutArgument)
    else if tail[0] == "startpos" then
      var base := PosSet(lib, pos, StartFen, chess960).pos;
      if |tail| >= 2 && tail[1] == "moves" then Ok(Replay(lib, base, tail[2..])) else Ok(base)
    else if tail[0] == "fen" then
      var rest := tail[1..];
      var k := MovesIndex(rest);
      var fen := SpaceTerminated(rest[..k]);
      var applied := PosSet(lib, pos, fen, chess960);
      if !applied.ok then Fatal(IllegalFen(fen))
      else if k < |rest| then Ok(Replay(lib, applied.pos, rest[k + 1..]))
      else Ok(applied.pos)
    else Fatal(UnknownPositionSource(tail[0]))
  }

  /** The fatal cases of `position`, each with its reason, and nothing else. */
  lemma PositionFailures(lib: Lib, tail: seq<string>, pos: Position, chess960: bool)
    ensures PositionSpec(lib, tail, pos, chess960).Fatal? <==>
      || tail == []
      || (tail[0] != "startpos" && tail[0] != "fen")
      || (tail[0] == "fen" && !PosSet(lib, pos, SpaceTerminated(tail[1..][..MovesIndex(tail[1..])]), chess960).ok)
    ensures tail == [] ==> PositionSpec(lib, tail, pos, chess960) == Fatal(PositionWithoutArgument)
    ensures tail != [] && tail[0] != "startpos" && tail[0] != "fen" ==>
      PositionSpec(lib, tail, pos, chess960) == Fatal(UnknownPositionSource(tail[0]))
  {
  }

  /**
   * `position fen f1 .. fn moves m1 .. mk` with no `moves` among the f's: the FEN is
   * "f1 .. fn " and the result is the moves replayed on that FEN's position.
   */
  lemma FenThenMoves(lib: Lib, fens: seq<string>, lans: seq<string>, pos: Position, chess960: bool)
    requires "moves" !in fens
    requires PosSet(lib, pos, SpaceTerminated(fens), chess960).ok
    ensures PositionSpec(lib, ["fen"] + fens + ["moves"] + lans, pos, chess960)
         == Ok(Replay(lib, PosSet(lib, pos, SpaceTerminated(fens), chess960).pos, lans))
    ensures PositionSpec(lib, ["fen"] + fens, pos, chess960)
         == Ok(PosSet(lib, pos, SpaceTerminated(fens), chess960).pos)
  {
    var rest := fens + ["moves"] + lans;
    assert (["fen"] + fens + ["moves"] + lans)[1..] == rest;
    var k := MovesIndex(rest);
    assert rest[|fens|] == "moves";
    assert forall i | 0 <= i < |fens| :: rest[i] == fens[i];
    assert k == |fens|;
    assert rest[..k] == fens;
    assert rest[k + 1..] == lans;
    assert (["fen"] + fens)[1..] == fens;
    var k' := MovesIndex(fens);
    assert fens[..k'] == fens;
  }

  /** With `moves` and no move after it, the position is the one just established. */
  lemma NoMovesNoChange(lib: Lib, pos: Position, chess960: bool)
    ensures PositionSpec(lib, ["startpos", "moves"], pos, chess960)
         == PositionSpec(lib, ["startpos"], pos, chess960)
         == Ok(PosSet(lib, pos, StartFen, chess960).pos)
  {
    assert ["startpos", "moves"][2..] == [];
  }

  /**
   * The FEN loop of parse_position: appends each token and a space until a `moves`
   * token or the end; `k` tokens are consumed, `moves` excluded.
   */
  method CollectFen(tokens: seq<string>) returns (fen: string, k: nat)
    ensures k == MovesIndex(tokens)
    ensures fen == SpaceTerminated(tokens[..k])
  {
    fen, k := "", 0;
    while k < |tokens| && tokens[k] != "moves"
      invariant k <= |tokens|
      invariant forall i | 0 <= i < k :: tokens[i] != "moves"
      invariant fen == SpaceTerminated(tokens[..k])
    {
      assert tokens[..k + 1][..k] == tokens[..k];
      fen := fen + tokens[k] + " ";
      k := k + 1;
    }
  }

  /**
   * The `moves` loop of parse_position: each move is played from the slot `idx` of the
   * pair `p[2]` into the other slot, and `idx` then names the slot just written.
   */
  method ReplayMoves(lib: Lib, start: Position, lans: seq<string>) returns (r: Position)
    ensures r == Replay(lib, start, lans)
  {
    var p := new Position[2](_ => start);
    var idx := 0;
    var n := 0;
    while n < |lans|
      invariant n <= |lans|
      invariant idx == 0 || idx == 1
      invariant p[idx] == Replay(lib, start, lans[..n])
    {
      ReplaySnoc(lib, start, lans[..n], lans[n]);
      assert lans[..n + 1] == lans[..n] + [lans[n]];
      p[1 - idx] := PlayLan(lib, p[idx], lans[n]);
      idx := 1 - idx;
      n := n + 1;
    }
    assert lans[..n] == lans;
    r := p[idx];
  }

  /**
   * parse_position: the first token picks the source of the position, then a `moves`
   * token, if any, is followed by the moves to play from it.
   */
  method ParsePosition(lib: Lib, tail: seq<string>, pos: Position, chess960: bool)
    returns (r: Result<Position>)
    ensures r == PositionSpec(lib, tail, pos, chess960)
  {
    if tail == [] {
      return Fatal(PositionWithoutArgument);
    }
    var current: Position;
    var movesFrom: nat;  // where the moves start, past |tail| when there is no `moves` token
    if tail[0] == "startpos" {
      current := PosSet(lib, pos, StartFen, chess960).pos;
      movesFrom := if |tail| >= 2 && tail[1] == "moves" then 2 else |tail| + 1;
    } else if tail[0] == "fen" {
      var fen, k := CollectFen(tail[1..]);
      var applied := PosSet(lib, pos, fen, chess960);
      if !applied.ok {
        return Fatal(IllegalFen(fen));
      }
      current := applied.pos;
      movesFrom := k + 2;
      assert movesFrom <= |tail| ==> tail[movesFrom..] == tail[1..][k + 1..];
    } else {
      return Fatal(UnknownPositionSource(tail[0]));
    }
    if movesFrom <= |tail| {
      current := ReplayMoves(lib, current, tail[movesFrom..]);
    }
    return Ok(current);
  }
}
