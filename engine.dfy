/**
 * The test engine's command loop (`main` in test/engine.c): one command per line,
 * dispatched on the line's first token. A session holds the position, the `go` depth,
 * the UCI_Chess960 flag and the generator's seed; its output is a list of replies.
 */
module Engine {
  import opened UciText
  import opened ChessLib
  import opened EngineParse
  import opened EngineSearch

  /** The locals of `main` that outlive a command: `pos`, `go.depth`, `uciChess960`, `seed`. */
  datatype Session = Session(pos: Position, depth: int, chess960: bool, seed: u64)

  /** How a session ends: input exhausted, `quit`, or a fatal `assert`/`DIE`. */
  datatype Status = EndOfInput | Quit | Died(failure: Failure)

  /** One command: its replies and the next session, or the end of the session. */
  datatype Step = Continue(replies: seq<Reply>, session: Session) | Stop(status: Status)

  /** Everything a session prints, and how it ended. */
  datatype Transcript = Transcript(replies: seq<Reply>, status: Status)

  /** The commands the engine knows. */
  const Commands: set<string> := {"uci", "isready", "setoption", "position", "go", "quit"}

  /** The first token of a line; the empty token for a blank line. */
  function Command(line: seq<string>): string
  {
    if line == [] then "" else line[0]
  }

  /** The tokens after the first. */
  function Tail(line: seq<string>): seq<string>
  {
    if line == [] then [] else line[1..]
  }

  /** The seed `argc > 1 ? (uint64_t)atoll(argv[1]) : 0`, the cast reducing modulo 2^64. */
  function InitialSeed(args: seq<string>): (seed: u64)
    ensures |args| <= 1 ==> seed == 0
    ensures |args| > 1 && 0 <= Atoi(args[1]) < 0x1_0000_0000_0000_0000 ==> seed == Atoi(args[1])
  {
    if |args| > 1 then Atoi(args[1]) % 0x1_0000_0000_0000_0000 else 0
  }

  /**
   * A seed given in decimal on the command line is the seed the session starts with, as
   * long as `atoll` can read it: below 2^63.
   */
  lemma SeedArgument(program: string, n: u64, rest: seq<string>)
    requires n < 0x8000_0000_0000_0000
    ensures InitialSeed([program, Dec(n)] + rest) == n
  {
    AtoiOfDec(n);
    assert ([program, Dec(n)] + rest)[1] == Dec(n);
  }

  /** The session `main` starts with: the zeroed position, depth 0, no Chess960. */
  function Initial(blank: Position, args: seq<string>): Session
  {
    Session(blank, 0, false, InitialSeed(args))
  }

  /** One pass of the `while` loop of `main`. */
  function Execute(lib: Lib, s: Session, line: seq<string>): Step
  {
    var cmd, tail := Command(line), Tail(line);
    if cmd == "uci" then Continue([IdName, Chess960Option(s.chess960), UciOk], s)
    else if cmd == "isready" then Continue([ReadyOk], s)
    else if cmd == "setoption" then Continue([], s.(chess960 := ParseOption(tail, s.chess960)))
    else if cmd == "position" then
      match PositionSpec(lib, tail, s.pos, s.chess960)
      case Ok(p) => Continue([], s.(pos := p))
      case Fatal(f) => Stop(Died(f))
    else if cmd == "go" then
      match ParseGo(tail, s.depth)
      case Ok(d) =>
        var g := GoSpec(lib, s.pos, d, s.seed);
        Continue(g.replies, s.(depth := d, seed := g.seed))
      case Fatal(f) => Stop(Died(f))
    else if cmd == "quit" then Stop(Quit)
    else Continue([], s)
  }

  /** The whole session over the given lines. */
  function Interpret(lib: Lib, s: Session, lines: seq<seq<string>>): Transcript
    decreases |lines|
  {
    if lines == [] then Transcript([], EndOfInput)
    else match Execute(lib, s, lines[0])
      case Stop(status) => Transcript([], status)
      case Continue(replies, next) =>
        var rest := Interpret(lib, next, lines[1..]);
        Transcript(replies + rest.replies, rest.status)
  }

  /** `t` with `replies` printed before it. */
  function Prepend(replies: seq<Reply>, t: Transcript): Transcript
  {
    Transcript(replies + t.replies, t.status)
  }

  /** A line whose first token is not a command prints nothing and changes nothing. */
  lemma UnknownCommandIgnored(lib: Lib, s: Session, line: seq<string>)
    requires Command(line) !in Commands
    ensures Execute(lib, s, line) == Continue([], s)
  {
  }

  /** `isready` is answered by `readyok` in every state, and changes nothing. */
  lemma ReadyAnyTime(lib: Lib, s: Session, tail: seq<string>)
    ensures Execute(lib, s, ["isready"] + tail) == Continue([ReadyOk], s)
  {
    assert Command(["isready"] + tail) == "isready";
  }

  /**
   * Each command changes only its own part of the session: `setoption` the flag,
   * `position` the position, `go` the depth and the seed; `uci` and `isready` nothing.
   */
  lemma CommandFrames(lib: Lib, s: Session, line: seq<string>)
    ensures Execute(lib, s, line).Continue? ==>
      var t := Execute(lib, s, line).session;
      && (t.chess960 != s.chess960 ==> Command(line) == "setoption")
      && (t.pos != s.pos ==> Command(line) == "position")
      && (t.depth != s.depth || t.seed != s.seed ==> Command(line) == "go")
      && (Execute(lib, s, line).replies != [] ==> Command(line) in {"uci", "isready", "go"})
    ensures Execute(lib, s, line).Stop? <==>
      || Command(line) == "quit"
      || (Command(line) == "position" && PositionSpec(lib, Tail(line), s.pos, s.chess960).Fatal?)
      || (Command(line) == "go" && Tail(line) == [])
  {
  }

  /** `quit` ends the session at once: nothing is printed and later lines are not read. */
  lemma QuitEndsSession(lib: Lib, s: Session, line: seq<string>, rest: seq<seq<string>>)
    requires Command(line) == "quit"
    ensures Interpret(lib, s, [line] + rest) == Transcript([], Quit)
  {
  }

  /**
   * `setoption name UCI_Chess960 value v` followed by `uci`: the capability line reports
   * the value just set as the default.
   */
  lemma HandshakeReportsOption(lib: Lib, s: Session, v: string, rest: seq<seq<string>>)
    ensures var t := Interpret(lib, s, [["setoption", "name", Chess960Name, "value", v], ["uci"]] + rest);
      |t.replies| >= 3 && t.replies[..3] == [IdName, Chess960Option(v == "true"), UciOk]
  {
    var lines := [["setoption", "name", Chess960Name, "value", v], ["uci"]] + rest;
    var s1 := s.(chess960 := v == "true");
    assert Execute(lib, s, lines[0]) == Continue([], s1);
    assert lines[1..] == [["uci"]] + rest;
    assert lines[1..][1..] == rest;
    assert Execute(lib, s1, lines[1..][0]) == Continue([IdName, Chess960Option(v == "true"), UciOk], s1);
  }

  /**
   * `go depth n` sets the depth to n, prints exactly max(0, n) info lines and one
   * `bestmove` line, and keeps the position: the %d text of n reads back as n.
   */
  lemma GoDepth(lib: Lib, s: Session, n: int)
    ensures var step := Execute(lib, s, ["go", "depth", Dec(n)]);
      && step.Continue?
      && step.session == s.(depth := n, seed := GoSpec(lib, s.pos, n, s.seed).seed)
      && |step.replies| == (if n > 0 then n else 0) + 1
      && Last(step.replies).BestMove?
  {
    AtoiOfDec(n);
    GoShape(lib, s.pos, n, s.seed);
    assert Tail(["go", "depth", Dec(n)]) == ["depth", Dec(n)];
  }

  /**
   * Output is streamed: what a session prints for some lines is a prefix of what it prints
   * for those lines and more, and once it has stopped, later lines change nothing.
   */
  lemma {:induction false} OutputIsStreamed(lib: Lib, s: Session, a: seq<seq<string>>, b: seq<seq<string>>)
    ensures Interpret(lib, s, a).replies <= Interpret(lib, s, a + b).replies
    ensures Interpret(lib, s, a).status != EndOfInput ==> Interpret(lib, s, a + b) == Interpret(lib, s, a)
    decreases |a|
  {
    if a != [] {
      assert (a + b)[0] == a[0];
      assert (a + b)[1..] == a[1..] + b;
      match Execute(lib, s, a[0])
      case Stop(_) =>
      case Continue(replies, next) =>
        OutputIsStreamed(lib, next, a[1..], b);
    } else {
      assert a + b == b;
    }
  }

  /**
   * One pass of the `while` loop of `main`: the first token picks the command, which
   * prints its replies and updates the session's locals, or ends the session.
   */
  method Dispatch(lib: Lib, s: Session, line: seq<string>) returns (step: Step)
    ensures step == Execute(lib, s, line)
  {
    var token, tail := Command(line), Tail(line);
    if token == "uci" {
      step := Continue([IdName, Chess960Option(s.chess960), UciOk], s);
    } else if token == "isready" {
      step := Continue([ReadyOk], s);
    } else if token == "setoption" {
      step := Continue([], s.(chess960 := ParseOption(tail, s.chess960)));
    } else if token == "position" {
      var r := ParsePosition(lib, tail, s.pos, s.chess960);
      if r.Fatal? {
        step := Stop(Died(r.failure));
      } else {
        step := Continue([], s.(pos := r.value));
      }
    } else if token == "go" {
      var g := ParseGo(tail, s.depth);
      if g.Fatal? {
        step := Stop(Died(g.failure));
      } else {
        var out, seed := RunGo(lib, s.pos, g.value, s.seed);
        step := Continue(out, s.(depth := g.value, seed := seed));
      }
    } else if token == "quit" {
      step := Stop(Quit);
    } else {
      step := Continue([], s);
    }
  }

  /**
   * `main`: starts from the zeroed position, depth 0, no Chess960 and the seed from the
   * command line, then runs the command loop; what it prints is a function of the
   * library, the arguments and the lines only.
   */
  method Serve(lib: Lib, blank: Position, args: seq<string>, lines: seq<seq<string>>)
    returns (replies: seq<Reply>, status: Status)
    ensures Transcript(replies, status) == Interpret(lib, Initial(blank, args), lines)
  {
    replies, status := Loop(lib, Initial(blank, args), lines);
  }

  /** The `while` loop of `main`: reads the lines one by one until the input ends or a command stops it. */
  method Loop(lib: Lib, s0: Session, lines: seq<seq<string>>) returns (replies: seq<Reply>, status: Status)
    ensures Transcript(replies, status) == Interpret(lib, s0, lines)
  {
    var s, input := s0, lines;
    replies := [];
    while input != []
      invariant Interpret(lib, s0, lines) == Prepend(replies, Interpret(lib, s, input))
      decreases |input|
    {
      var step := Dispatch(lib, s, input[0]);
      match step
      case Stop(st) =>
        assert replies + [] == replies;
        return replies, st;
      case Continue(out, next) =>
        ghost var rest := Interpret(lib, next, input[1..]);
        assert replies + (out + rest.replies) == (replies + out) + rest.replies;
        replies, s, input := replies + out, next, input[1..];
    }
    assert replies + [] == replies;
    status := EndOfInput;
  }
}
