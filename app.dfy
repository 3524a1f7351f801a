/**
 * The application state machine: cursor and selection, the moves cached for
 * the selection, the promotion choice, the input block after the game ends,
 * the move log and the running flag.
 */
module Application {
  import opened Pleco
  import opened General
  import opened Coords
  import opened Events

  datatype LogEntry = Reseted | PlayerMove(move: Move, mover: Player)

  /** Every field of an `App`, as a value. */
  datatype AppState = AppState(
    moves: seq<Move>,
    promotionPiece: PieceType,
    terminalTooSmall: bool,
    selected: CoordValue,
    cursor: CoordValue,
    mainPlayer: Player,
    board: Board,
    blockInputs: bool,
    log: seq<LogEntry>,
    running: bool)
  {
    /** Both coordinates lie on the board, so both map to squares. */
    predicate OnBoard() {
      selected.Valid() && cursor.Valid()
    }

    /** While inputs are blocked, neither the selection nor the cursor is active. */
    predicate Settled() {
      blockInputs ==> !selected.active && !cursor.active
    }
  }

  /** The state `App::new` builds. */
  const InitialState := AppState(
    [], Queen, false, CoordValue(0, 0, false), DefaultCoord, White, StartPosition, false, [], true)

  /** A promotion is rebuilt with the chosen piece, keeping source, destination and capture. */
  function WithPromotion(m: Move, piece: PieceType): (r: Move)
    ensures r.src == m.src && r.dst == m.dst && r.isCapture == m.isCapture && r.isPromo == m.isPromo
    ensures m.isPromo ==> r.prom == piece
    ensures !m.isPromo ==> r == m
  {
    if m.isPromo then Move(m.src, m.dst, true, m.isCapture, piece) else m
  }

  /** The player the log names for the next move: `get_current_player(moves_played + 1)`. */
  function MoverOf(board: Board): (p: Player)
    ensures p == White <==> board.MovesPlayed() % 2 == 0
  {
    GetCurrentPlayer((board.MovesPlayed() + 1) % 0x1_0000)
  }

  /** The outcome of `reset`. */
  function ResetState(s: AppState): (t: AppState)
    ensures t.OnBoard() && t.Settled() && !t.blockInputs
    ensures t.cursor.IsOn(7, 0) && t.selected.IsOn(7, 0) && !t.selected.active
    ensures t.board == StartPosition && t.log == [Reseted]
    ensures t.cursor.active == s.cursor.active && t.moves == s.moves
    ensures t.promotionPiece == s.promotionPiece && t.mainPlayer == s.mainPlayer
    ensures t.running == s.running && t.terminalTooSmall == s.terminalTooSmall
  {
    s.(cursor := s.cursor.(row := 7, col := 0),
       selected := CoordValue(7, 0, false),
       board := StartPosition,
       log := [Reseted],
       blockInputs := false)
  }

  /** The square under the cursor. */
  function CursorSquare(s: AppState): Square
    requires s.cursor.Valid()
  {
    s.cursor.ToSquare(s.mainPlayer)
  }

  /** The move `handle_move` commits: the first cached move to the cursor's square, with the chosen promotion. */
  function CommittedMove(s: AppState): (m: Move)
    requires s.cursor.Valid() && DestInMoves(CursorSquare(s), s.moves)
    ensures m.dst == CursorSquare(s)
    ensures exists c :: c in s.moves && c.src == m.src && c.dst == m.dst && c.isPromo == m.isPromo && c.isCapture == m.isCapture
    ensures m.isPromo ==> m.prom == s.promotionPiece
  {
    var c := MoveToSquare(CursorSquare(s), s.moves);
    var m := WithPromotion(c, s.promotionPiece);
    assert c in s.moves && c.src == m.src;
    m
  }

  /**
   * The committed move is the first cached move to the cursor's square: a
   * promotion is rebuilt with the chosen piece, any other move is taken as cached.
   */
  lemma CommittedMoveIsFirst(s: AppState, k: nat)
    requires s.cursor.Valid() && FirstWithDest(CursorSquare(s), s.moves, k)
    ensures DestInMoves(CursorSquare(s), s.moves)
    ensures CommittedMove(s) == WithPromotion(s.moves[k], s.promotionPiece)
    ensures !s.moves[k].isPromo ==> CommittedMove(s) == s.moves[k]
  {
    MoveToSquareIsFirst(CursorSquare(s), s.moves, k);
  }

  /** The outcome of `handle_move`. */
  function CommitState(s: AppState, engine: Engine): (t: AppState)
    requires s.OnBoard() && DestInMoves(CursorSquare(s), s.moves)
    ensures t.OnBoard()
  {
    var m := CommittedMove(s);
    var after := s.board.Apply(m);
    var over := IsGameOver(engine, after);
    var selected := s.selected.(active := if over then false else !s.selected.active);
    var cursor := s.cursor.(active := if over then false else s.cursor.active);
    assert selected.Valid() && cursor.Valid();
    s.(log := s.log + [PlayerMove(m, MoverOf(s.board))],
       board := after,
       selected := selected,
       cursor := cursor,
       blockInputs := if over then true else s.blockInputs)
  }

  /**
   * `handle_move` applies exactly one move and logs exactly one entry; the
   * selection is toggled off, and a finished game deactivates both
   * coordinates and blocks input. Nothing else changes.
   */
  lemma CommitEffects(s: AppState, engine: Engine)
    requires s.OnBoard() && DestInMoves(CursorSquare(s), s.moves)
    ensures var t := CommitState(s, engine);
      && t.board == s.board.Apply(CommittedMove(s))
      && t.log == s.log + [PlayerMove(CommittedMove(s), MoverOf(s.board))]
      && t.blockInputs == (s.blockInputs || IsGameOver(engine, t.board))
      && (IsGameOver(engine, t.board) ==> !t.selected.active && !t.cursor.active)
      && (!IsGameOver(engine, t.board) ==>
            t.selected.active == !s.selected.active && t.cursor.active == s.cursor.active)
      && t.selected.IsOn(s.selected.row, s.selected.col) && t.cursor.IsOn(s.cursor.row, s.cursor.col)
      && t.moves == s.moves && t.promotionPiece == s.promotionPiece && t.mainPlayer == s.mainPlayer
      && t.running == s.running && t.terminalTooSmall == s.terminalTooSmall
  {
  }

  /** The outcome of `update_selected_coord`. */
  function ConfirmState(s: AppState, engine: Engine): (t: AppState)
    requires s.OnBoard()
    ensures t.OnBoard()
    ensures t.moves == MovesFromSquare(t.selected.ToSquare(t.mainPlayer), engine, t.board)
    ensures t.cursor.IsOn(s.cursor.row, s.cursor.col)
    ensures t.promotionPiece == s.promotionPiece && t.mainPlayer == s.mainPlayer
    ensures t.running == s.running && t.terminalTooSmall == s.terminalTooSmall
  {
    var u :=
      if s.selected.active then
        if DestInMoves(CursorSquare(s), s.moves) then CommitState(s, engine)
        else if s.selected.IsOn(s.cursor.row, s.cursor.col) then s.(selected := s.selected.(active := !s.selected.active))
        else s.(selected := s.selected.(row := s.cursor.row, col := s.cursor.col))
      else s.(selected := s.selected.(row := s.cursor.row, col := s.cursor.col, active := !s.selected.active));
    u.(moves := MovesFromSquare(u.selected.ToSquare(u.mainPlayer), engine, u.board))
  }

  /** Confirming without a selection selects the cursor's cell; board and log stay. */
  lemma ConfirmFromIdle(s: AppState, engine: Engine)
    requires s.OnBoard() && !s.selected.active
    ensures var t := ConfirmState(s, engine);
      && t.selected == s.cursor.(active := true)
      && t.board == s.board && t.log == s.log && t.cursor == s.cursor
      && t.blockInputs == s.blockInputs
  {
  }

  /** Confirming on a cached destination commits that move, before any other check. */
  lemma ConfirmOnDestination(s: AppState, engine: Engine)
    requires s.OnBoard() && s.selected.active && DestInMoves(CursorSquare(s), s.moves)
    ensures var t := ConfirmState(s, engine);
      t == CommitState(s, engine).(moves := t.moves)
  {
  }

  /** Confirming on the selected cell, when it is not a destination, cancels the selection. */
  lemma ConfirmCancels(s: AppState, engine: Engine)
    requires s.OnBoard() && s.selected.active && !DestInMoves(CursorSquare(s), s.moves)
    requires s.selected.IsOn(s.cursor.row, s.cursor.col)
    ensures var t := ConfirmState(s, engine);
      t == s.(selected := s.selected.(active := false), moves := t.moves)
  {
  }

  /** Confirming elsewhere moves the selection to the cursor and keeps it active. */
  lemma ConfirmRetargets(s: AppState, engine: Engine)
    requires s.OnBoard() && s.selected.active && !DestInMoves(CursorSquare(s), s.moves)
    requires !s.selected.IsOn(s.cursor.row, s.cursor.col)
    ensures var t := ConfirmState(s, engine);
      t == s.(selected := s.cursor.(active := true), moves := t.moves)
  {
  }

  /** From unblocked input, confirming leaves a settled state: a block only comes with both coordinates off. */
  lemma ConfirmSettles(s: AppState, engine: Engine)
    requires s.OnBoard() && !s.blockInputs
    ensures ConfirmState(s, engine).Settled()
  {
    if s.selected.active && DestInMoves(CursorSquare(s), s.moves) {
      CommitEffects(s, engine);
      ConfirmOnDestination(s, engine);
    }
  }

  /** The application, updated in place. */
  class App {
    var moves: seq<Move>
    var promotionPiece: PieceType
    var terminalTooSmall: bool
    const selected: Coord
    const cursor: Coord
    var mainPlayer: Player
    var board: Board
    var blockInputs: bool
    var log: seq<LogEntry>
    var running: bool
    /** The rules engine the board belongs to. */
    const engine: Engine

    ghost function State(): AppState
      reads this, selected, cursor
    {
      AppState(moves, promotionPiece, terminalTooSmall, selected.Value(), cursor.Value(),
               mainPlayer, board, blockInputs, log, running)
    }

    ghost predicate Valid()
      reads this, selected, cursor
    {
      selected != cursor && State().OnBoard()
    }

    /** `App::new`. */
    constructor(engine: Engine)
      ensures Valid() && fresh(selected) && fresh(cursor)
      ensures State() == InitialState && this.engine == engine
    {
      selected := new Coord.New(0, 0, false);
      moves := [];
      terminalTooSmall := false;
      cursor := new Coord.Default();
      promotionPiece := Queen;
      mainPlayer := White;
      board := StartPosition;
      log := [];
      blockInputs := false;
      running := true;
      this.engine := engine;
    }

    /** `tick`: nothing happens on a timer tick. */
    method Tick() returns (r: Result<()>)
      ensures r == Ok(())
    {
      r := Ok(());
    }

    /** `log`: appends one entry. */
    method Log(entry: LogEntry)
      modifies this`log
      ensures log == old(log) + [entry]
    {
      log := log + [entry];
    }

    /** `reset`. */
    method Reset()
      requires Valid()
      modifies this, selected, cursor
      ensures Valid()
      ensures State() == ResetState(old(State()))
    {
      cursor.MoveTo(7, 0);
      selected.active := true;
      selected.MoveTo(7, 0);
      selected.active := false;
      board := StartPosition;
      log := [];
      blockInputs := false;
      Log(Reseted);
    }

    /** `handle_move`: the cursor's square must be a destination of the cached moves. */
    method HandleMove()
      requires Valid() && DestInMoves(CursorSquare(State()), moves)
      modifies this, selected, cursor
      ensures Valid()
      ensures State() == CommitState(old(State()), engine)
    {
      ghost var s := State();
      assert cursor.Value().ToSquare(mainPlayer) == CursorSquare(s);
      var playerMove := MoveToSquare(cursor.Value().ToSquare(mainPlayer), moves);
      if playerMove.isPromo {
        playerMove := Move(playerMove.src, playerMove.dst, true, playerMove.isCapture, promotionPiece);
      }
      assert playerMove == CommittedMove(s);
      Log(PlayerMove(playerMove, GetCurrentPlayer((board.MovesPlayed() + 1) % 0x1_0000)));
      board := board.Apply(playerMove);
      selected.ToggleActive();
      if IsGameOver(engine, board) {
        selected.active := false;
        cursor.active := false;
        blockInputs := true;
      }
    }

    /** `quit`. */
    method Quit()
      modifies this
      ensures State() == old(State()).(running := false)
    {
      running := false;
    }

    /** `update_selected_coord`. */
    method UpdateSelectedCoord()
      requires Valid()
      modifies this, selected, cursor
      ensures Valid()
      ensures State() == ConfirmState(old(State()), engine)
    {
      if selected.active {
        if DestInMoves(cursor.Value().ToSquare(mainPlayer), moves) {
          HandleMove();
        } else if selected.Value().IsOn(cursor.row, cursor.col) {
          selected.ToggleActive();
        } else {
          selected.MoveTo(cursor.row, cursor.col);
        }
      } else {
        selected.MoveTo(cursor.row, cursor.col);
        selected.ToggleActive();
      }
      moves := MovesFromSquare(selected.Value().ToSquare(mainPlayer), engine, board);
    }

    /** `set_promotion_piece`. */
    method SetPromotionPiece(pieceType: PieceType)
      modifies this
      ensures State() == old(State()).(promotionPiece := pieceType)
    {
      promotionPiece := pieceType;
    }
  }
}
