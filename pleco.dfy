/**
 * The interface of the chess rules engine (the `pleco` crate) as the front-end
 * uses it. The engine itself is not part of this model: a board is identified
 * with the moves played on it since the standard starting position, and the
 * engine's move generator and end-of-game tests are total functions on such
 * boards that an `Engine` value supplies.
 */
module Pleco {
  datatype Player = White | Black

  datatype File = A | B | C | D | E | F | G | H

  datatype Rank = R1 | R2 | R3 | R4 | R5 | R6 | R7 | R8

  /** `SQ::make(file, rank)`. */
  datatype Square = Square(file: File, rank: Rank)

  datatype PieceType = Pawn | Knight | Bishop | Rook | Queen | King

  datatype Piece =
    | WhiteKing | WhiteQueen | WhiteRook | WhiteBishop | WhiteKnight | WhitePawn
    | BlackKing | BlackQueen | BlackRook | BlackBishop | BlackKnight | BlackPawn
    | None

  /**
   * A move descriptor (`BitMove`): source and destination, whether it is a
   * promotion or a capture, and the piece a promotion produces. Castling,
   * en-passant and double-push flags play no part in the front-end.
   */
  datatype Move = Move(src: Square, dst: Square, isPromo: bool, isCapture: bool, prom: PieceType)

  /** A board, given by the moves applied since the starting position. */
  datatype Board = Board(played: seq<Move>) {
    /** `board.apply_move(m)`. */
    function Apply(m: Move): Board {
      Board(played + [m])
    }

    /** `board.moves_played()`, the number of half-moves played. */
    function MovesPlayed(): nat {
      |played|
    }
  }

  /** `Board::default()`: the standard starting position. */
  const StartPosition: Board := Board([])

  /** The engine's answers about a board. */
  datatype Engine = Engine(
    generateMoves: Board -> seq<Move>,
    checkmate: Board -> bool,
    stalemate: Board -> bool)

  /** The engine's numbering of files, A = 0 to H = 7. */
  function FileIndex(f: File): nat {
    match f
    case A => 0
    case B => 1
    case C => 2
    case D => 3
    case E => 4
    case F => 5
    case G => 6
    case H => 7
  }

  /** The engine's numbering of ranks, R1 = 0 to R8 = 7. */
  function RankIndex(r: Rank): nat {
    match r
    case R1 => 0
    case R2 => 1
    case R3 => 2
    case R4 => 3
    case R5 => 4
    case R6 => 5
    case R7 => 6
    case R8 => 7
  }
}
