/**
 * Grid coordinates: a row and a column (`i8`) with an activity flag, moved
 * in place by the cursor and selection commands.
 */
module Coords {
  import opened Ints
  import opened Pleco
  import General

  /** One step of the cursor. */
  datatype CoordEvent = UP | DOWN | LEFT | RIGHT

  /** `i8::saturating_add`. */
  function SaturatingAdd(a: I8, b: I8): I8 {
    if a + b > 127 then 127 else if a + b < -128 then -128 else a + b
  }

  /** `x.min(max).max(min)`: the lower bound wins when the bounds cross. */
  function Clamp(x: int, max: I8, min: I8): (r: I8)
    ensures min <= max ==> min <= r <= max
    ensures min <= x <= max ==> r == x
    ensures min <= max < x ==> r == max
    ensures x < min || max < min ==> r == min
  {
    var upper := if x <= max then x else max;
    if upper >= min then upper else min
  }

  /** Clamping into `i8` bounds hides the saturation: the exact sum clamps to the same value. */
  lemma SaturationInvisible(v: I8, d: I8, max: I8, min: I8)
    ensures Clamp(SaturatingAdd(v, d), max, min) == Clamp(v + d, max, min)
  {
  }

  /** The value of a `Coord` (the struct is `Copy`, so this is what callers receive by value). */
  datatype CoordValue = CoordValue(row: I8, col: I8, active: bool) {
    /** `is_on`: the coordinate sits at row `r`, column `c`; the flag plays no part. */
    predicate IsOn(r: int, c: int): (b: bool)
      ensures b <==> -128 <= r < 128 && -128 <= c < 128 && this == CoordValue(r as I8, c as I8, active)
    {
      row == r && col == c
    }

    /** `is_valid`: both row and column lie in 0..7, so clamping onto the board changes nothing. */
    predicate Valid(): (b: bool)
      ensures b <==> MovedBy(0, 0, 7, 0) == this
    {
      0 <= col < 8 && 0 <= row < 8
    }

    /** `to_square`: the column gives the file, the row the rank from `mainPlayer`'s side. */
    function ToSquare(mainPlayer: Player): (sq: Square)
      requires Valid()
      ensures FileIndex(sq.file) == col
      ensures RankIndex(sq.rank) == if mainPlayer == White then 7 - row else row
    {
      Square(General.GetFile(col), General.GetRank(row, mainPlayer))
    }

    /** The outcome of `move_by`: each axis independently clamps its exact sum. */
    function MovedBy(dr: I8, dc: I8, max: I8, min: I8): (c: CoordValue)
      ensures c.active == active
      ensures min <= max ==> min <= c.row <= max && min <= c.col <= max
      ensures min <= row + dr <= max ==> c.row == row + dr
      ensures min <= max < row + dr ==> c.row == max
      ensures row + dr < min || max < min ==> c.row == min
      ensures min <= col + dc <= max ==> c.col == col + dc
      ensures min <= max < col + dc ==> c.col == max
      ensures col + dc < min || max < min ==> c.col == min
    {
      CoordValue(Clamp(row + dr, max, min), Clamp(col + dc, max, min), active)
    }

    /**
     * The outcome of `handle_event`: one step on the board, which always ends
     * on the board and, from a valid coordinate, moves one axis by one unless
     * that axis is at the edge.
     */
    function Stepped(e: CoordEvent): (c: CoordValue)
      ensures c.Valid() && c.active == active
      ensures Valid() ==> match e
        case UP => c == this.(row := if row == 0 then 0 else row - 1)
        case DOWN => c == this.(row := if row == 7 then 7 else row + 1)
        case LEFT => c == this.(col := if col == 0 then 0 else col - 1)
        case RIGHT => c == this.(col := if col == 7 then 7 else col + 1)
    {
      match e
      case UP => MovedBy(-1, 0, 7, 0)
      case DOWN => MovedBy(1, 0, 7, 0)
      case LEFT => MovedBy(0, -1, 7, 0)
      case RIGHT => MovedBy(0, 1, 7, 0)
    }
  }

  /** `Coord::default()`: bottom-left corner, active. */
  const DefaultCoord := CoordValue(7, 0, true)

  /** On the board, two coordinates share a square exactly when they share row and column. */
  lemma ToSquareInjective(a: CoordValue, b: CoordValue, mainPlayer: Player)
    requires a.Valid() && b.Valid()
    ensures a.ToSquare(mainPlayer) == b.ToSquare(mainPlayer) <==> a.IsOn(b.row, b.col)
  {
  }

  /** A coordinate updated in place. */
  class Coord {
    var row: I8
    var col: I8
    var active: bool

    function Value(): CoordValue
      reads this
    {
      CoordValue(row, col, active)
    }

    /** `Coord::new` takes the column before the row. */
    constructor New(col: I8, row: I8, active: bool)
      ensures Value() == CoordValue(row, col, active)
    {
      this.row := row;
      this.col := col;
      this.active := active;
    }

    /** `Coord::default`. */
    constructor Default()
      ensures Value() == DefaultCoord
    {
      row := 7;
      col := 0;
      active := true;
    }

    /** `handle_event`: one clamped step in the given direction. */
    method HandleEvent(e: CoordEvent)
      modifies this
      ensures Value() == old(Value()).Stepped(e)
    {
      match e
      case UP => MoveBy(-1, 0, 7, 0);
      case DOWN => MoveBy(1, 0, 7, 0);
      case LEFT => MoveBy(0, -1, 7, 0);
      case RIGHT => MoveBy(0, 1, 7, 0);
    }

    /** `move_to`: sets row and column without checking them; the flag stays. */
    method MoveTo(row: I8, col: I8)
      modifies this
      ensures Value() == old(Value()).(row := row, col := col)
    {
      this.row := row;
      this.col := col;
    }

    /** `move_by`: saturating add, then `.min(max).max(min)`, on each axis. */
    method MoveBy(row: I8, col: I8, max: I8, min: I8)
      modifies this
      ensures Value() == old(Value()).MovedBy(row, col, max, min)
    {
      SaturationInvisible(this.row, row, max, min);
      SaturationInvisible(this.col, col, max, min);
      this.row := Clamp(SaturatingAdd(this.row, row), max, min);
      this.col := Clamp(SaturatingAdd(this.col, col), max, min);
    }

    /** `toggle_active`: flips the flag and nothing else. */
    method ToggleActive()
      modifies this
      ensures Value() == old(Value()).(active := !old(active))
    {
      active := !active;
    }
  }
}
