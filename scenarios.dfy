/**
 * Worked examples: the unit tests of the coordinate and helper modules,
 * replayed on the model, and a few walks through the application.
 */
module Scenarios {
  import opened Ints
  import opened Pleco
  import opened General
  import opened Coords
  import opened Events
  import opened Application
  import opened Handler
  import opened MainLoop

  /** A quiet move with no promotion. */
  function Quiet(src: Square, dst: Square): Move {
    Move(src, dst, false, false, Queen)
  }

  /** The twenty legal moves of the starting position, in an order chosen for the example. */
  const OpeningMoves: seq<Move> :=
    [Quiet(Square(A, R2), Square(A, R3)), Quiet(Square(A, R2), Square(A, R4))] + OtherOpeningMoves

  /** The opening moves that do not start on A2. */
  const OtherOpeningMoves: seq<Move> := [
    Quiet(Square(B, R2), Square(B, R3)), Quiet(Square(B, R2), Square(B, R4)),
    Quiet(Square(C, R2), Square(C, R3)), Quiet(Square(C, R2), Square(C, R4)),
    Quiet(Square(D, R2), Square(D, R3)), Quiet(Square(D, R2), Square(D, R4)),
    Quiet(Square(E, R2), Square(E, R3)), Quiet(Square(E, R2), Square(E, R4)),
    Quiet(Square(F, R2), Square(F, R3)), Quiet(Square(F, R2), Square(F, R4)),
    Quiet(Square(G, R2), Square(G, R3)), Quiet(Square(G, R2), Square(G, R4)),
    Quiet(Square(H, R2), Square(H, R3)), Quiet(Square(H, R2), Square(H, R4)),
    Quiet(Square(B, R1), Square(A, R3)), Quiet(Square(B, R1), Square(C, R3)),
    Quiet(Square(G, R1), Square(F, R3)), Quiet(Square(G, R1), Square(H, R3))]

  /** `Coord::new(4, 3, true)` has row 3, column 4 and is active. */
  method NewScenario() returns (row: I8, col: I8, active: bool)
    ensures row == 3 && col == 4 && active
  {
    var coord := new Coord.New(4, 3, true);
    row, col, active := coord.row, coord.col, coord.active;
  }

  /** Up, down, left, right from row 3, column 4 passes (2, 4), (3, 4), (3, 3), (3, 4). */
  method HandleEventScenario() returns (trail: seq<(I8, I8)>)
    ensures trail == [(2, 4), (3, 4), (3, 3), (3, 4)]
  {
    var coord := new Coord.New(4, 3, true);
    coord.HandleEvent(UP);
    trail := [(coord.row, coord.col)];
    coord.HandleEvent(DOWN);
    trail := trail + [(coord.row, coord.col)];
    coord.HandleEvent(LEFT);
    trail := trail + [(coord.row, coord.col)];
    coord.HandleEvent(RIGHT);
    trail := trail + [(coord.row, coord.col)];
  }

  /** From the bottom-left corner, the cursor cannot leave the board. */
  method EdgeScenario() returns (row: I8, col: I8)
    ensures row == 7 && col == 0
  {
    var coord := new Coord.Default();
    coord.HandleEvent(DOWN);
    coord.HandleEvent(LEFT);
    row, col := coord.row, coord.col;
  }

  /** `move_to(3, 4)` lands on row 3, column 4. */
  method MoveToScenario() returns (row: I8, col: I8)
    ensures row == 3 && col == 4
  {
    var coord := new Coord.New(6, 5, false);
    coord.MoveTo(3, 4);
    row, col := coord.row, coord.col;
  }

  /** `move_by(3, 4, i8::MAX, 0)` from row 5, column 6 goes off the board to (8, 10). */
  method MoveByScenario() returns (row: I8, col: I8, active: bool)
    ensures row == 8 && col == 10 && !active
  {
    var coord := new Coord.New(6, 5, false);
    coord.MoveBy(3, 4, 127, 0);
    row, col, active := coord.row, coord.col, coord.active;
  }

  /** Toggling twice returns to the start. */
  method ToggleScenario() returns (first: bool, second: bool)
    ensures !first && second
  {
    var coord := new Coord.New(6, 5, true);
    coord.ToggleActive();
    first := coord.active;
    coord.ToggleActive();
    second := coord.active;
  }

  /** `Coord::new(6, 5, true)` is on row 5, column 6, and not on (5, 7) or (6, 6). */
  method IsOnScenario() returns (here: bool, nextCol: bool, nextRow: bool)
    ensures here && !nextCol && !nextRow
  {
    var coord := new Coord.New(6, 5, true);
    here := coord.Value().IsOn(5, 6);
    nextCol := coord.Value().IsOn(5, 7);
    nextRow := coord.Value().IsOn(6, 6);
  }

  /** (0, 0) and (7, 7) are on the board; column 8 and row 8 are not. */
  method IsValidScenario() returns (corner: bool, farCorner: bool, col8: bool, row8: bool)
    ensures corner && farCorner && !col8 && !row8
  {
    var a := new Coord.New(0, 0, true);
    var b := new Coord.New(7, 7, false);
    var c := new Coord.New(8, 0, true);
    var d := new Coord.New(0, 8, false);
    corner, farCorner, col8, row8 := a.Value().Valid(), b.Value().Valid(), c.Value().Valid(), d.Value().Valid();
  }

  /** Columns 0 to 7 are the files A to H. */
  lemma GetFileExamples()
    ensures [GetFile(0), GetFile(1), GetFile(2), GetFile(3), GetFile(4), GetFile(5), GetFile(6), GetFile(7)]
      == [A, B, C, D, E, F, G, H]
  {
  }

  /** Rows 0 to 7 are ranks 1 to 8 from Black's side and ranks 8 to 1 from White's. */
  lemma GetRankExamples()
    ensures [GetRank(0, Black), GetRank(1, Black), GetRank(2, Black), GetRank(3, Black),
             GetRank(4, Black), GetRank(5, Black), GetRank(6, Black), GetRank(7, Black)]
      == [R1, R2, R3, R4, R5, R6, R7, R8]
    ensures [GetRank(0, White), GetRank(1, White), GetRank(2, White), GetRank(3, White),
             GetRank(4, White), GetRank(5, White), GetRank(6, White), GetRank(7, White)]
      == [R8, R7, R6, R5, R4, R3, R2, R1]
  {
  }

  /** The labels of the first rank and of the A file. */
  lemma SquareToStringExamples()
    ensures SquareToString(Square(A, R1)) == "A1"
    ensures [SquareToString(Square(B, R1)), SquareToString(Square(C, R1)), SquareToString(Square(D, R1)),
             SquareToString(Square(E, R1)), SquareToString(Square(F, R1)), SquareToString(Square(G, R1)),
             SquareToString(Square(H, R1))]
      == ["B", "C", "D", "E", "F", "G", "H"]
    ensures [SquareToString(Square(A, R2)), SquareToString(Square(A, R3)), SquareToString(Square(A, R4)),
             SquareToString(Square(A, R5)), SquareToString(Square(A, R6)), SquareToString(Square(A, R7)),
             SquareToString(Square(A, R8))]
      == ["2", "3", "4", "5", "6", "7", "8"]
  {
  }

  /** The glyph of every piece, and none for an empty square. */
  lemma PieceToCharExamples()
    ensures [PieceToChar(WhiteKing), PieceToChar(WhiteQueen), PieceToChar(WhiteRook),
             PieceToChar(WhiteBishop), PieceToChar(WhiteKnight), PieceToChar(WhitePawn)]
      == ["♔", "♕", "♖", "♗", "♘", "♙"]
    ensures [PieceToChar(BlackKing), PieceToChar(BlackQueen), PieceToChar(BlackRook),
             PieceToChar(BlackBishop), PieceToChar(BlackKnight), PieceToChar(BlackPawn)]
      == ["♚", "♛", "♜", "♝", "♞", "♟"]
    ensures PieceToChar(Piece.None) == ""
  {
  }

  /** Row 5, column 6 is G3 from White's side and G6 from Black's. */
  lemma ToSquareExamples()
    ensures CoordValue(5, 6, true).ToSquare(White) == Square(G, R3)
    ensures CoordValue(5, 6, true).ToSquare(Black) == Square(G, R6)
  {
    assert GetFile(6) == G;
    assert GetRank(5, White) == R3 && GetRank(5, Black) == R6;
  }

  /**
   * The pawn on A2 has two moves at the start, to A3 and to A4, whatever the
   * other pieces can do: A3 is a destination, A5 is not, and the move to A4
   * is picked for A4.
   */
  lemma PawnOnA2(others: seq<Move>)
    requires forall m :: m in others ==> m.src != Square(A, R2)
    ensures var pawn := FilterBySource(Square(A, R2), [Quiet(Square(A, R2), Square(A, R3)), Quiet(Square(A, R2), Square(A, R4))] + others);
      && pawn == [Quiet(Square(A, R2), Square(A, R3)), Quiet(Square(A, R2), Square(A, R4))]
      && DestInMoves(Square(A, R3), pawn)
      && !DestInMoves(Square(A, R5), pawn)
      && MoveToSquare(Square(A, R4), pawn) == Quiet(Square(A, R2), Square(A, R4))
  {
    var a3, a4 := Quiet(Square(A, R2), Square(A, R3)), Quiet(Square(A, R2), Square(A, R4));
    FilterSkips(Square(A, R2), others);
    FilterConcat(Square(A, R2), [a3, a4], others);
    assert [a3, a4][1..] == [a4];
    assert [a4][1..] == [];
    assert FilterBySource(Square(A, R2), [a3, a4]) == [a3, a4];
  }

  /** The other eighteen opening moves leave A2 alone, so the pawn on A2 has its two moves. */
  lemma OpeningPawnMoves()
    ensures FilterBySource(Square(A, R2), OpeningMoves)
      == [Quiet(Square(A, R2), Square(A, R3)), Quiet(Square(A, R2), Square(A, R4))]
  {
    PawnOnA2(OtherOpeningMoves);
  }

  /** Filtering a list none of whose moves starts on `sq` leaves nothing. */
  lemma {:induction false} FilterSkips(sq: Square, ms: seq<Move>)
    requires forall m :: m in ms ==> m.src != sq
    ensures FilterBySource(sq, ms) == []
    decreases |ms|
  {
    if ms != [] {
      assert ms[0] in ms;
      FilterSkips(sq, ms[1..]);
    }
  }

  /** The move counter after the first four half-moves names White, Black, White, Black. */
  lemma CurrentPlayerExamples()
    ensures GetCurrentPlayer(1) == White && GetCurrentPlayer(2) == Black
    ensures GetCurrentPlayer(3) == White && GetCurrentPlayer(4) == Black
  {
  }

  /** An 80 by 24 terminal is too small, a 106 by 24 one is large enough. */
  method ResizeScenario(engine: Engine) returns (small: bool, large: bool)
    ensures small && !large
  {
    var app := new App(engine);
    var r := HandleResizeEvent(app, 80, 24);
    small := app.terminalTooSmall;
    r := HandleResizeEvent(app, 106, 24);
    large := app.terminalTooSmall;
  }

  /** A press of `w` moves the cursor from the bottom-left corner one row up; releasing a key does nothing. */
  method CursorScenario(engine: Engine) returns (row: I8, col: I8)
    ensures row == 6 && col == 0
  {
    var app := new App(engine);
    var r := HandleEvents(app, Ok(Key(KeyEvent(Char('w'), {}, Press))));
    r := HandleEvents(app, Ok(Key(KeyEvent(Char('w'), {}, Release))));
    row, col := app.cursor.row, app.cursor.col;
  }

  /** Escape stops the loop, so the events after it are never handled. */
  method QuitScenario(engine: Engine) returns (r: Result<()>, running: bool, promotion: PieceType)
    ensures r.Ok?
    ensures !running
    ensures promotion == Queen
  {
    var app := new App(engine);
    var esc, two := KeyEvent(Esc, {}, Press), KeyEvent(Char('2'), {}, Press);
    var events := [Ok(Key(esc)), Ok(Key(two))];
    QuitAlwaysWorks(esc, InitialState, engine);
    var stopped := InitialState.(running := false);
    assert EventState(Key(esc), InitialState, engine) == stopped;
    assert events[1..] == [Ok(Key(two))];
    assert Replay(stopped, events[1..], engine) == stopped;
    assert QuitsWithin(stopped, events[1..], engine);
    r := Run(app, events);
    running, promotion := app.running, app.promotionPiece;
  }
}
