/**
 * Square and move helpers of the front-end: lookup tables between the grid
 * and the engine's squares, and filters over lists of moves.
 */
module General {
  import opened Ints
  import opened Pleco

  /** `get_file`: the file of a grid column; columns outside 0..7 are unreachable. */
  function GetFile(col: nat): (f: File)
    requires col < 8
    ensures FileIndex(f) == col
  {
    if col == 0 then A
    else if col == 1 then B
    else if col == 2 then C
    else if col == 3 then D
    else if col == 4 then E
    else if col == 5 then F
    else if col == 6 then G
    else H
  }

  /**
   * `get_rank`: the rank of a grid row, seen from `mainPlayer`'s side. Row 0 is
   * the top of the drawn board: rank 8 for White, rank 1 for Black.
   */
  function GetRank(row: nat, mainPlayer: Player): (r: Rank)
    requires row < 8
    ensures RankIndex(r) == if mainPlayer == White then 7 - row else row
  {
    match mainPlayer
    case Black =>
      if row == 0 then R1
      else if row == 1 then R2
      else if row == 2 then R3
      else if row == 3 then R4
      else if row == 4 then R5
      else if row == 5 then R6
      else if row == 6 then R7
      else R8
    case White =>
      if row == 0 then R8
      else if row == 1 then R7
      else if row == 2 then R6
      else if row == 3 then R5
      else if row == 4 then R4
      else if row == 5 then R3
      else if row == 6 then R2
      else R1
  }

  /** The two perspectives show the same row as mirrored ranks. */
  lemma RanksMirror(row: nat)
    requires row < 8
    ensures RankIndex(GetRank(row, White)) + RankIndex(GetRank(row, Black)) == 7
    ensures GetRank(row, White) == GetRank(7 - row, Black)
  {
    var w, b := GetRank(row, White), GetRank(7 - row, Black);
    assert RankIndex(w) == RankIndex(b);
  }

  /** `get_current_player`: even counts give Black, odd counts White. */
  function GetCurrentPlayer(movesPlayed: U16): (p: Player)
    ensures p == White <==> movesPlayed % 2 == 1
  {
    if movesPlayed % 2 == 0 then Black else White
  }

  /** `is_game_over`: checkmate or stalemate, as the engine reports them. */
  predicate IsGameOver(engine: Engine, board: Board): (b: bool)
    ensures engine.checkmate(board) ==> b
    ensures engine.stalemate(board) ==> b
    ensures b ==> engine.checkmate(board) || engine.stalemate(board)
  {
    engine.checkmate(board) || engine.stalemate(board)
  }

  /** `a` is `b` with some elements left out, the rest kept in order. */
  ghost predicate IsSubsequence<T>(a: seq<T>, b: seq<T>)
    decreases |b|
  {
    a == [] || (b != [] && ((a[0] == b[0] && IsSubsequence(a[1..], b[1..])) || IsSubsequence(a, b[1..])))
  }

  /** The `filter` step of `moves_from_square`: the moves that start on `sq`, in list order. */
  function FilterBySource(sq: Square, ms: seq<Move>): (r: seq<Move>)
    ensures forall i :: 0 <= i < |r| ==> r[i].src == sq
    ensures forall m :: m in r <==> m in ms && m.src == sq
  {
    if ms == [] then []
    else if ms[0].src == sq then [ms[0]] + FilterBySource(sq, ms[1..])
    else FilterBySource(sq, ms[1..])
  }

  /** The filter keeps every move that starts on `sq` as often as it occurs, and drops the rest. */
  lemma {:induction false} FilterCounts(sq: Square, ms: seq<Move>)
    ensures forall m :: multiset(FilterBySource(sq, ms))[m] == if m.src == sq then multiset(ms)[m] else 0
    decreases |ms|
  {
    if ms != [] {
      assert ms == [ms[0]] + ms[1..];
      FilterCounts(sq, ms[1..]);
    }
  }

  /** The filter keeps the moves it keeps in their original order. */
  lemma {:induction false} FilterKeepsOrder(sq: Square, ms: seq<Move>)
    ensures IsSubsequence(FilterBySource(sq, ms), ms)
    decreases |ms|
  {
    if ms != [] {
      FilterKeepsOrder(sq, ms[1..]);
      var r := FilterBySource(sq, ms);
      if ms[0].src == sq {
        assert r[0] == ms[0] && r[1..] == FilterBySource(sq, ms[1..]);
      }
    }
  }

  /** Filtering a concatenation filters each part. */
  lemma {:induction false} FilterConcat(sq: Square, xs: seq<Move>, ys: seq<Move>)
    ensures FilterBySource(sq, xs + ys) == FilterBySource(sq, xs) + FilterBySource(sq, ys)
    decreases |xs|
  {
    if xs != [] {
      assert (xs + ys)[1..] == xs[1..] + ys;
      FilterConcat(sq, xs[1..], ys);
    } else {
      assert xs + ys == ys;
    }
  }

  /**
   * `moves_from_square`: the engine's legal moves on `board` that start on
   * `sq`, each as often as the engine lists it, in the engine's order.
   */
  function MovesFromSquare(sq: Square, engine: Engine, board: Board): (r: seq<Move>)
    ensures forall m :: m in r <==> m in engine.generateMoves(board) && m.src == sq
    ensures forall m :: multiset(r)[m] == if m.src == sq then multiset(engine.generateMoves(board))[m] else 0
    ensures IsSubsequence(r, engine.generateMoves(board))
  {
    FilterCounts(sq, engine.generateMoves(board));
    FilterKeepsOrder(sq, engine.generateMoves(board));
    FilterBySource(sq, engine.generateMoves(board))
  }

  /** `dest_in_moves`: some move in `ms` ends on `dest`. */
  function DestInMoves(dest: Square, ms: seq<Move>): (r: bool)
    ensures r <==> exists i :: 0 <= i < |ms| && ms[i].dst == dest
  {
    if ms == [] then false
    else ms[0].dst == dest || DestInMoves(dest, ms[1..])
  }

  /** Position `k` holds the first move of `ms` that ends on `dest`. */
  ghost predicate FirstWithDest(dest: Square, ms: seq<Move>, k: int) {
    0 <= k < |ms| && ms[k].dst == dest && forall j :: 0 <= j < k ==> ms[j].dst != dest
  }

  /**
   * `move_to_square`: the first move in `ms` that ends on `dest`. The source
   * unwraps the search, so a destination absent from `ms` is a caller error.
   */
  function MoveToSquare(dest: Square, ms: seq<Move>): (r: Move)
    requires DestInMoves(dest, ms)
    ensures r in ms && r.dst == dest
  {
    if ms[0].dst == dest then ms[0] else MoveToSquare(dest, ms[1..])
  }

  /** The move `MoveToSquare` picks is the one at the first position that ends on `dest`. */
  lemma {:induction false} MoveToSquareIsFirst(dest: Square, ms: seq<Move>, k: nat)
    requires FirstWithDest(dest, ms, k)
    ensures DestInMoves(dest, ms) && MoveToSquare(dest, ms) == ms[k]
    decreases k
  {
    if k > 0 {
      assert ms[0].dst != dest;
      assert FirstWithDest(dest, ms[1..], k - 1);
      MoveToSquareIsFirst(dest, ms[1..], k - 1);
    }
  }

  /** `square_to_string`: the label drawn under a cell (file letters on rank 1, rank digits on file A). */
  function SquareToString(sq: Square): (s: string)
    ensures sq == Square(A, R1) ==> s == "A1"
    ensures sq.rank == R1 && sq.file != A ==> s == [('A' as int + FileIndex(sq.file)) as char]
    ensures sq.file == A && sq.rank != R1 ==> s == [('1' as int + RankIndex(sq.rank)) as char]
    ensures sq.file != A && sq.rank != R1 ==> s == ""
  {
    match sq
    case Square(A, R1) => "A1"
    case Square(B, R1) => "B"
    case Square(C, R1) => "C"
    case Square(D, R1) => "D"
    case Square(E, R1) => "E"
    case Square(F, R1) => "F"
    case Square(G, R1) => "G"
    case Square(H, R1) => "H"
    case Square(A, R2) => "2"
    case Square(A, R3) => "3"
    case Square(A, R4) => "4"
    case Square(A, R5) => "5"
    case Square(A, R6) => "6"
    case Square(A, R7) => "7"
    case Square(A, R8) => "8"
    case _ => ""
  }

  /** `piece_to_char`: the chess glyph of a piece, empty for an empty square. */
  function PieceToChar(p: Piece): (s: string)
    ensures s == "" <==> p == None
    ensures |s| <= 1
  {
    match p
    case WhiteKing => "♔"
    case WhiteQueen => "♕"
    case WhiteRook => "♖"
    case WhiteBishop => "♗"
    case WhiteKnight => "♘"
    case WhitePawn => "♙"
    case BlackKing => "♚"
    case BlackQueen => "♛"
    case BlackRook => "♜"
    case BlackBishop => "♝"
    case BlackKnight => "♞"
    case BlackPawn => "♟"
    case None => ""
  }

  /** Every piece has its own glyph. */
  lemma PieceGlyphsDistinct(p: Piece, q: Piece)
    requires p != q
    ensures PieceToChar(p) != PieceToChar(q)
  {
  }
}
