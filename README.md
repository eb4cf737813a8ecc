# c-chess-cli: the test engine and the worker tally, in Dafny

This project models two small sequential parts of c-chess-cli, a command-line tool that runs
tournaments between UCI chess engines.

1. **The test engine** (`test/engine.c`). This is a minimal UCI engine that moves at random.
   `main` reads one command per line and dispatches on the first token: `uci`, `isready`,
   `setoption`, `position`, `go` or `quit`.
   - The session state is the position, the `go` depth, the `UCI_Chess960` flag and the seed
     of the pseudo-random generator.
   - `position startpos|fen … [moves …]` sets the position. The moves are then replayed
     through a two-slot buffer.
   - `go [depth n]` prints, for each depth 1..n:
     - a random principal variation (PV), which is a random walk through the legal moves;
     - a random score.
     Then it prints `bestmove` with the first move of the last PV.
2. **The worker tally** (`workers.c`). The global array `Workers` holds one slot per worker,
   and each slot has a win/loss/draw counter triple.
   - `workers_new` allocates the slots.
   - `workers_delete` releases them.
   - `workers_add_result` raises one counter. It then recomputes the caller's three totals
     as the sum over all slots.

The modules are:
- `UciText`: splitting on spaces (`str_tok`), space-terminated lists, `atoi` and `%d`.
- `ChessLib`: the chess library and `prng`. They are abstract: the opaque types `Position`
  and `Move`, plus a record `Lib` of total functions that every operation takes as a
  parameter.
- `EngineParse`: `parse_option`, `parse_go` and `parse_position`.
- `EngineSearch`: `random_pv` and `run_go`.
- `Engine`: the command loop of `main`.
- `Workers`: `workers.c`.

The loops, the two-slot buffers and the dispatch of `main` are methods proved against
specification functions:
- `RandomPv` against `RandomLine`;
- `Iterate` and `RunGo` against `Deepen` and `GoSpec`;
- `Dispatch`, `Loop` and `Serve` against `Execute` and `Interpret`;
- `ReplayMoves` against `Replay`;
- the `Workers.Pool` methods against `Fresh`, `Record` and `Totals`.

`parse_option` and `parse_go` have no loop; they only write one out-parameter, so they are
the functions `ParseOption` and `ParseGo`, whose result is the new value of that parameter.

The properties are lemmas about those functions. Because every output is a function of
`Lib`, the arguments and the input lines, the engine's output is determined by the seed and
the commands.

Modelling choices:
- A command line is a sequence of tokens.
- An `assert` or `DIE` that ends the process becomes a `Fatal`/`Died` result that carries
  its reason.
- Output is a sequence of `Reply` values. `Render` gives each one's text: its `Keyword`, then
  for most replies a space and its `Arguments`.
- `random_pv` indexes its buffer with `ply % 2`. The model keeps a variable `cur` that
  toggles between 0 and 1 instead. This is the same slot at every ply.
- `Plies` says where the loop of `random_pv` stands after k passes (`Progress`: the notation
  so far, the position and the seed). `PliesFollowLine` ties it to `RandomLine`, the
  recursive definition of the whole line.
- The command loop of `main` reads the remaining input line by line; `Loop` walks that
  sequence and `Serve` starts it from the initial session.
- The index `prng(seed) % n` uses Dafny's `%`, which agrees with C's on these unsigned
  operands.
- `workers_add_result` receives a pointer to a slot. The model passes that slot's index.

## Model

| member | source | states |
|---|---|---|
| `UciText.FirstToken` | test/engine.c:118-120 | the token `str_tok` yields has no space, is empty exactly when the text is only spaces, and is the word that starts right after the leading spaces |
| `UciText.LeadingSpaces` | test/engine.c:133 | the separators `str_tok` skips: every skipped character is a space and the next one is not |
| `UciText.FirstTokenOfWord` | test/engine.c:119 | the first token of a space-free word, alone or followed by a space and anything, is that word |
| `UciText.SpaceTerminatedCons` | test/engine.c:101 | a space-terminated list is its first token, a space, then the rest of the list |
| `UciText.FirstTokenOfList` | test/engine.c:118-120 | the first token of a space-terminated list of words is its first word, or empty for an empty list |
| `UciText.Word` | test/engine.c:119 | a token is the longest space-free prefix of the text |
| `UciText.DigitPrefix` | test/engine.c:34 | `atoi` reads the longest prefix of digits and stops at the first non-digit |
| `UciText.SkipSpace` | test/engine.c:34 | `atoi` skips leading white space: everything skipped is white space, and the suffix left does not start with white space |
| `UciText.Atoi` | test/engine.c:34 | with no digit after the optional sign `atoi` gives 0, and a negative result needs a `-` after the white space |
| `UciText.AtoiOfDec` | test/engine.c:34 | `atoi` reads back every integer that `%d` prints |
| `ChessLib.ReplayConcat` | test/engine.c:73-77 | replaying two lists of moves in turn is replaying their concatenation |
| `ChessLib.ReplaySnoc` | test/engine.c:73-77 | one more move in the list is one more `pos_move` on the replayed position |
| `EngineParse.MatchWords` | test/engine.c:41-44 | a chain of `str_tok`/`strcmp` succeeds exactly when the tokens start with the expected words, and then gives the tokens after them |
| `EngineParse.ParseOption` | test/engine.c:37-46 | `name UCI_Chess960 value v` sets the flag to `v == "true"`; any other token list leaves the flag unchanged |
| `EngineParse.ParseGo` | test/engine.c:27-35 | fatal exactly when no token follows `go`; `depth n` sets the depth to `atoi(n)`; otherwise the depth is kept |
| `EngineParse.MovesIndex` | test/engine.c:60 | the FEN loop stops at the first `moves` token, or at the end |
| `EngineParse.PositionFailures` | test/engine.c:51-66 | `position` is fatal exactly when there is no token, the source is neither `startpos` nor `fen`, or the FEN is refused; each case has its reason |
| `EngineParse.FenThenMoves` | test/engine.c:57-79 | `fen f1..fn moves m1..mk` sets the FEN "f1 .. fn " with every token followed by a space, then replays m1..mk left to right |
| `EngineParse.NoMovesNoChange` | test/engine.c:68-79 | `moves` with no move after it leaves the position just set |
| `EngineParse.CollectFen` | test/engine.c:60-61 | the FEN loop consumes the tokens before the first `moves` and builds them space-terminated |
| `EngineParse.ReplayMoves` | test/engine.c:68-80 | the double buffer ends holding the left fold of `pos_move(·, pos_lan_to_move(·, m))` over the moves |
| `EngineParse.ParsePosition` | test/engine.c:48-81 | `parse_position` computes exactly `PositionSpec`: the position, or the fatal reason |
| `EngineSearch.Keyword` | test/engine.c:114-120 | every reply starts with a non-empty, space-free keyword (`info`, `bestmove`, `id`, `option`, `uciok`, `readyok`) |
| `EngineSearch.Render` | test/engine.c:136-141 | the first token of every printed line is its reply's keyword, so a GUI splitting the line on spaces reads the reply's kind first |
| `EngineSearch.Score` | test/engine.c:114 | `(int)(prng % 65536) - 32768` lies in [-32768, 32767] |
| `EngineSearch.RandomLine` | test/engine.c:91-103 | a random line has at most `len` plies (none if `len <= 0`), with one notation per move |
| `EngineSearch.RandomLineIsLegal` | test/engine.c:91-103 | every move of the line is generated in the position it is played from; the PV is their notation; the line ends where they lead |
| `EngineSearch.RandomLineStopsOnlyWhenStuck` | test/engine.c:95-96 | a line shorter than `len` ends in a position with no legal move |
| `EngineSearch.Plies` | test/engine.c:91-103 | after k passes of the loop the notation has at most k moves, and exactly k unless the loop has stopped at a position without a legal move |
| `EngineSearch.PliesFollowLine` | test/engine.c:91-103 | after k <= len passes, finishing with the random line of len - k plies gives exactly the random line of len plies |
| `EngineSearch.RandomPv` | test/engine.c:83-106 | `random_pv` starts from an empty PV and returns the line's notation, each move followed by a space, plus the seed the line leaves; `pos` is only read |
| `EngineSearch.InfoLines` | test/engine.c:112-116 | depths 1..k print k info lines, for depths 1..k in order, each with its score in [-32768, 32767] |
| `EngineSearch.GoShape` | test/engine.c:108-121 | `go` prints exactly max(0, depth) info lines, even for empty PVs, then one `bestmove`; with depth <= 0 the move is empty |
| `EngineSearch.BestMoveIsFirstOfLastPv` | test/engine.c:118-120 | `bestmove` carries the first move of the deepest PV, which is empty exactly when `pos` has no legal move |
| `EngineSearch.NoLegalMove` | test/engine.c:112-116 | with no legal move in `pos`, every PV is empty |
| `EngineSearch.NoLegalMoveGo` | test/engine.c:112-120 | with no legal move, `go` prints max(0, depth) info lines and an empty `bestmove` |
| `EngineSearch.Iterate` | test/engine.c:112-116 | the loop of `run_go` yields the info lines, the last PV and the seed of `Deepen` |
| `EngineSearch.RunGo` | test/engine.c:108-121 | `run_go` prints exactly what `GoSpec` says and leaves its seed |
| `Engine.UnknownCommandIgnored` | test/engine.c:135-151 | a line whose first token is not a command prints nothing and changes nothing |
| `Engine.ReadyAnyTime` | test/engine.c:140-141 | `isready` is answered with `readyok` in every state, and nothing changes |
| `Engine.CommandFrames` | test/engine.c:132-151 | `setoption` changes only the flag, `position` only the position, `go` only the depth and seed; only `uci`, `isready` and `go` print; the loop stops exactly on `quit`, a fatal `position` or a bare `go` |
| `Engine.QuitEndsSession` | test/engine.c:149-150 | `quit` ends the loop at once, prints nothing and reads no later line |
| `Engine.HandshakeReportsOption` | test/engine.c:135-143 | after `setoption name UCI_Chess960 value v`, `uci` reports `v == "true"` as the option's default |
| `Engine.GoDepth` | test/engine.c:146-148 | `go depth n` sets the depth to n and prints max(0, n) info lines plus one `bestmove` |
| `Engine.OutputIsStreamed` | test/engine.c:132-151 | the output for some lines is a prefix of the output for those lines and more; after a stop, later lines change nothing |
| `Engine.Dispatch` | test/engine.c:133-151 | one pass of the loop computes exactly `Execute` |
| `Engine.InitialSeed` | test/engine.c:128 | without an argument the seed is 0; a decimal argument in [0, 2^64) is the seed itself |
| `Engine.SeedArgument` | test/engine.c:128 | a seed below 2^63 (the range of `long long`) written in decimal as the first argument is the seed the session starts with |
| `Engine.Loop` | test/engine.c:132-151 | the `while` loop prints exactly `Interpret` of the session it starts from over the remaining lines, and ends the way it says |
| `Engine.Serve` | test/engine.c:123-152 | `main` prints exactly `Interpret` of the initial session over the lines, and ends the way it says |
| `Workers.Fresh` | workers.c:25-34 | `n` slots with ids 0..n-1 and every counter zero |
| `Workers.Record` | workers.c:51 | one counter of one slot goes up by one; every other counter and every id is unchanged; well-formedness is kept |
| `Workers.TotalRecord` | workers.c:51-58 | recording a result raises the total of its category by one and leaves the other totals alone |
| `Workers.TotalFresh` | workers.c:28 | the totals of freshly allocated slots are zero |
| `Workers.TotalNonNegative` | workers.c:51-58 | no total of well-formed slots is negative |
| `Workers.Tally` | workers.c:46-61 | any series of accepted reports keeps the slots well formed and their number unchanged |
| `Workers.Occurrences` | workers.c:51 | a category cannot occur more often than there are reports |
| `Workers.TallyTotals` | workers.c:46-61 | after a series of reports, each total is the old total plus the number of reports of that category |
| `Workers.OccurrencesConcat` | workers.c:51 | counting reports over two runs is the sum of the counts |
| `Workers.OccurrencesPermutation` | workers.c:48-60 | reordering the reports does not change the count of any category |
| `Workers.TallyOrderIrrelevant` | workers.c:48-60 | the totals do not depend on the order in which the calls were serialised |
| `Workers.CountersGrow` | workers.c:51 | no counter of any slot ever decreases |
| `Workers.AddResultTotals` | workers.c:51-58 | the total returned for `wld` is one more than before, the others are unchanged, all are non-negative, and the three add up to the number of calls |
| `Workers.SumSlots` | workers.c:54-58 | the nested loop leaves in `wldCount[j]` the sum over all slots of counter j |
| `Workers.Pool.constructor` | workers.c:19-20 | before `workers_new`: no array, count 0 |
| `Workers.Pool.New` | workers.c:25-34 | `workers_new(n)`: a fresh array of n slots, with ids 0..n-1 and zero counters, and `WorkersCount == n` |
| `Workers.Pool.Delete` | workers.c:36-44 | `workers_delete`: `Workers == NULL` and `WorkersCount == 0` |
| `Workers.Pool.AddResult` | workers.c:46-61 | the slot array becomes `Record` of the old one; the caller's totals equal the sums over all slots; the counters keep summing to the number of calls |

## Left out

- The chess library (`pos_set`, `gen_all_moves`, `pos_move`, `pos_lan_to_move`,
  `pos_move_to_lan`) and `prng`. These are foreign code and appear only as the abstract
  functions of `ChessLib.Lib`, with no chess rules.
- Malformed move tokens. The code hands every token after `moves` to `pos_lan_to_move`
  unchecked, so a malformed move is not fatal here: the outcome is whatever the library
  returns, and the model has no separate error for it.
- A PV that stops early. The code prints one info line per depth 1..n even when the PV
  stops at a position without a legal move, so `go depth n` always prints n info lines
  (`GoShape`, `NoLegalMoveGo`); nothing ends the search early.
- `str_tok`, `str_getline` and the reading of stdin. The input is already a sequence of lines,
  each a sequence of tokens. `str_tok` is not part of this model. The model assumes that it
  clears its token when no token is left, so a blank line has the empty token as its command
  and changes nothing. `main` reuses `token` from one line to the next, so if `str_tok` left
  it unchanged a blank line would repeat the previous command. The blank-line case of
  `UnknownCommandIgnored` rests on this assumption.
- `printf`, `puts`, `fflush` and stdout. Output is a sequence of `Reply` values, and `Render`
  gives each one's text without the line feed.
- `DIE` and `assert`. They end the process, so they become a `Fatal` result or a `Died`
  status, and everything printed before stays printed.
- Memory management: `calloc`, `free`, `vec_init_reserve`, `vec_destroy` and `scope(str_destroy)`.
- The mutexes `mtxWorkers` and `deadline.mtx`, the atomic `WorkersBusy`, and the Worker fields
  other than `id` and `wldCount`. Each `workers_add_result` is one atomic sequential step.
  `TallyOrderIrrelevant` covers every order in which concurrent calls could be serialised.
- UciText.Atoi: C's `int` width is not modelled. `atoi` of an out-of-range number is undefined
  in C, and the model returns the unbounded value.
- Engine.InitialSeed: `atoll` is read unbounded and then reduced modulo 2^64, which is the
  unsigned cast. Overflow of `long long` itself (an argument of 2^63 or more) is not
  modelled, so the contract's range [0, 2^64) is wider than C guarantees; `SeedArgument`
  keeps to seeds below 2^63.
- Workers.Pool.New: the count is a natural number. A negative `count` in C is not modelled.
- Workers.Pool.AddResult: counters and totals are unbounded integers, so `int` overflow is not
  modelled. The worker pointer is an index into the array.
- The depth in `go` and in the info lines is an unbounded integer. Depths beyond the range of
  `int` are not modelled.
