/**
 * The collaborators the test engine calls but that are not part of this model: the
 * chess library (`pos_set`, `gen_all_moves`, `pos_move`, `pos_lan_to_move`,
 * `pos_move_to_lan`) and the pseudo-random generator `prng`. Positions and moves are
 * opaque, and the library is a record of total functions that every operation of the
 * engine receives as a parameter, so nothing is assumed about chess.
 */
module ChessLib {

  /** A board position (`Position` of the chess library). */
  type Position

  /** A move (`move_t`). */
  type Move

  /** `uint64_t`. */
  type u64 = x: int | 0 <= x < 0x1_0000_0000_0000_0000

  /** What `pos_set` reports: whether the FEN was accepted, and the position it wrote. */
  datatype SetResult = SetResult(ok: bool, pos: Position)

  /** One call of `prng(&seed)`: the value it returns and the seed it leaves behind. */
  datatype Draw = Draw(value: u64, next: u64)

  datatype Lib = Lib(
    /** `pos_set(&pos, fen, chess960, NULL)`, given the position it overwrites. */
    posSet: (Position, string, bool) -> SetResult,
    /** `gen_all_moves`: the legal moves of the side to move. */
    genAllMoves: Position -> seq<Move>,
    /** `pos_move(&after, &before, m)`. */
    posMove: (Position, Move) -> Position,
    /** `pos_lan_to_move(&pos, lan)`. */
    lanToMove: (Position, string) -> Move,
    /** `pos_move_to_lan(&pos, m, &lan)`. */
    moveToLan: (Position, Move) -> string,
    /** `prng(&seed)`. */
    prng: u64 -> Draw
  )

  // Each of the library's functions by name. The engine's definitions and proofs call
  // these rather than the fields of `Lib`, so that no proof depends on the heap.

  function PosSet(lib: Lib, p: Position, fen: string, chess960: bool): SetResult { lib.posSet(p, fen, chess960) }

  function GenAllMoves(lib: Lib, p: Position): seq<Move> { lib.genAllMoves(p) }

  function PosMove(lib: Lib, p: Position, m: Move): Position { lib.posMove(p, m) }

  function LanToMove(lib: Lib, p: Position, lan: string): Move { lib.lanToMove(p, lan) }

  function MoveToLan(lib: Lib, p: Position, m: Move): string { lib.moveToLan(p, m) }

  function Prng(lib: Lib, seed: u64): Draw { lib.prng(seed) }

  /** Plays one move given in long algebraic notation. */
  function PlayLan(lib: Lib, p: Position, lan: string): Position
  {
    PosMove(lib, p, LanToMove(lib, p, lan))
  }

  /** Plays the moves in order, starting from `p`. */
  function Replay(lib: Lib, p: Position, lans: seq<string>): Position
    decreases |lans|
  {
    if lans == [] then p else Replay(lib, PlayLan(lib, p, lans[0]), lans[1..])
  }

  /** Replaying two lists one after the other is replaying their concatenation. */
  lemma {:induction false} ReplayConcat(lib: Lib, p: Position, a: seq<string>, b: seq<string>)
    ensures Replay(lib, p, a + b) == Replay(lib, Replay(lib, p, a), b)
    decreases |a|
  {
    if a != [] {
      assert (a + b)[1..] == a[1..] + b;
      ReplayConcat(lib, PlayLan(lib, p, a[0]), a[1..], b);
    } else {
      assert a + b == b;
    }
  }

  /** One more move at the end is one more `PlayLan` on the replayed position. */
  lemma ReplaySnoc(lib: Lib, p: Position, lans: seq<string>, lan: string)
    ensures Replay(lib, p, lans + [lan]) == PlayLan(lib, Replay(lib, p, lans), lan)
  {
    ReplayConcat(lib, p, lans, [lan]);
  }
}
