/**
 * The colour and square of one board cell, decided from the selection, the
 * cursor and the moves cached for the selection. Colours are the Tailwind
 * palette constants the board is painted with.
 */
module Cells {
  import Pleco
  import General
  import opened Coords

  datatype Color = White | Gray700 | Yellow500 | Green500 | Orange500 | Blue400 | Blue500 | Red500

  datatype Cell = Cell(color: Color, square: Pleco.Square) {
    /**
     * `Cell::new` for the cell at grid `row`, `col`. Checked in this order:
     * the selected cell, a destination of the cached moves, the cursor cell;
     * without an active selection only an active cursor is highlighted.
     */
    static function New(moves: seq<Pleco.Move>, selected: CoordValue, cursor: CoordValue,
                        mainPlayer: Pleco.Player, row: nat, col: nat): (c: Cell)
      requires row < 8 && col < 8
      ensures c.square == CoordValue(row, col, false).ToSquare(mainPlayer)
      ensures c.color in {Red500, Yellow500, Orange500} ==> cursor.IsOn(row, col)
      ensures c.color in {Yellow500, Green500} <==> selected.active && selected.IsOn(row, col)
      ensures c.color in {Orange500, Blue400, Blue500} <==>
        selected.active && !selected.IsOn(row, col) && General.DestInMoves(c.square, moves)
    {
      var square := Pleco.Square(General.GetFile(col), General.GetRank(row, mainPlayer));
      var color :=
        if selected.active then
          if selected.IsOn(row, col) then
            if cursor.IsOn(row, col) then Yellow500 else Green500
          else if General.DestInMoves(square, moves) then
            if cursor.IsOn(row, col) then Orange500
            else if (row + col) % 2 == 0 then Blue400 else Blue500
          else if cursor.IsOn(row, col) then Red500
          else Checker(row, col)
        else if cursor.IsOn(row, col) && cursor.active then Red500
        else Checker(row, col);
      Cell(color, square)
    }
  }

  /** The checkerboard colour of a cell. */
  function Checker(row: nat, col: nat): Color {
    if (row + col) % 2 == 0 then White else Gray700
  }

  /** Without a selection a cell keeps its checker colour, unless an active cursor is on it. */
  lemma IdleCellColor(moves: seq<Pleco.Move>, selected: CoordValue, cursor: CoordValue,
                      mainPlayer: Pleco.Player, row: nat, col: nat)
    requires row < 8 && col < 8 && !selected.active
    ensures Cell.New(moves, selected, cursor, mainPlayer, row, col).color ==
      if cursor.IsOn(row, col) && cursor.active then Red500 else Checker(row, col)
  {
  }

  /**
   * With a selection: the selected cell is yellow under the cursor and green
   * otherwise; a destination is orange under the cursor and blue (by parity)
   * otherwise; any other cursor cell is red whether or not the cursor is active.
   */
  lemma SelectedCellColor(moves: seq<Pleco.Move>, selected: CoordValue, cursor: CoordValue,
                          mainPlayer: Pleco.Player, row: nat, col: nat)
    requires row < 8 && col < 8 && selected.active
    ensures var c := Cell.New(moves, selected, cursor, mainPlayer, row, col);
      && (selected.IsOn(row, col) ==> c.color == if cursor.IsOn(row, col) then Yellow500 else Green500)
      && (!selected.IsOn(row, col) && General.DestInMoves(c.square, moves) ==>
            c.color == if cursor.IsOn(row, col) then Orange500
                       else if (row + col) % 2 == 0 then Blue400 else Blue500)
      && (!selected.IsOn(row, col) && !General.DestInMoves(c.square, moves) ==>
            c.color == if cursor.IsOn(row, col) then Red500 else Checker(row, col))
  {
  }

  /** At most one cell of the board carries a cursor colour. */
  lemma OneCursorCell(moves: seq<Pleco.Move>, selected: CoordValue, cursor: CoordValue,
                      mainPlayer: Pleco.Player, r1: nat, c1: nat, r2: nat, c2: nat)
    requires r1 < 8 && c1 < 8 && r2 < 8 && c2 < 8
    requires (r1, c1) != (r2, c2)
    ensures Cell.New(moves, selected, cursor, mainPlayer, r1, c1).color !in {Red500, Yellow500, Orange500} ||
            Cell.New(moves, selected, cursor, mainPlayer, r2, c2).color !in {Red500, Yellow500, Orange500}
  {
  }
}
