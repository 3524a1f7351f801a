# tui-chess interaction core in Dafny

This project models the interaction logic of the tui-chess terminal chess
front-end. The player moves a cursor over the board, selects a piece, confirms
a destination among the cached legal moves, and picks the piece a pawn is
promoted to. The application blocks input once the game is over; from then on
only reset and quit work. The model covers these parts:

- **Grid coordinates** (`coord.dfy`, module `Coords`). `Coord` is a class
  whose methods update `row`, `col` and `active` in place. Each method is
  proved against a pure transition on the value type `CoordValue`: `MovedBy`
  clamps, and `Stepped` takes one step on the board.
- **Square and move helpers** (`general.dfy`, module `General`). These are
  lookup tables from grid column and row to file and rank, depending on the
  perspective. They also cover the move counter, the labels of squares and
  pieces, and the three filters over a move list: by source, "some move ends
  here", and "first move that ends here".
- **The engine boundary** (`pleco.dfy`, module `Pleco`):
  - The board is its history of applied moves. `apply_move` appends one move
    and `moves_played` is the length of that history.
  - The rules engine is a record of three total functions on boards: move
    generation, checkmate and stalemate.
  - Squares, pieces and move descriptors are datatypes.
- **The application** (`app.dfy`, module `Application`). `App` is a class
  holding the cached moves, the promotion piece, the size flag, the
  perspective, the board, the block flag, the log and the running flag. Its
  selection and cursor are two `Coord` objects. Every method is proved against
  a transition on the value `AppState`:
  - `ResetState` for `reset`;
  - `CommitState` for `handle_move`;
  - `ConfirmState` for `update_selected_coord`.
- **Input handling** (`handler.dfy`, module `Handler`). The key map works in
  stages: `r` first, then the quit keys, then the input block, then the
  contextual keys. This module also holds the 106×24 resize rule and
  `App::handle_events`, the dispatch of one event from the event source.
- **The main loop** (`main_loop.dfy`, module `MainLoop`). This is the
  state-changing part of `App::run`: events are handled in order while the
  application runs, and the first failure from the event source ends the loop.
- **Cell colouring** (`cell.dfy`, module `Cells`). `Cell::new` decides a cell's
  colour and square from the selection, the cursor and the cached moves.
- **Worked examples** (`scenarios.dfy`, module `Scenarios`). These replay the
  unit tests of `coord.rs` and `general.rs` on the model, except the tests of
  `Display` and of `create_board_layout`, which are not part of this model.
  A few walks through the application follow.

Where a description of the system and the code differ, the model follows the
code:

- `reset` does not clear the cached moves.
- `reset` does not make the cursor active again; it keeps the cursor's flag.
- After `reset` the log is not empty. It holds exactly the one "Reseted" entry.

The invariant `Settled` says that while input is blocked, neither coordinate
is active. It holds initially and is kept by every key, every event and every
run of the loop.

## Model

| member | source | states |
|---|---|---|
| Coords.Clamp | src/utils/coord.rs:79-82 | `x.min(max).max(min)`: the result lies in [min, max] when the bounds are ordered; it is `x` inside the bounds, `max` above and `min` below; `min` wins when the bounds cross |
| Coords.SaturationInvisible | src/utils/coord.rs:79-82 | clamping the saturating `i8` sum gives the same value as clamping the exact sum, so saturation never shows once the result is clamped into `i8` bounds |
| Coords.CoordValue.IsOn | src/utils/coord.rs:112-114 | a coordinate is on row `r`, column `c` exactly when it equals the coordinate at (r, c) with its own flag: the flag plays no part |
| Coords.CoordValue.Valid | src/utils/coord.rs:121-123 | a coordinate is valid exactly when clamping it onto the board (rows and columns 0..7) leaves it unchanged |
| Coords.CoordValue.ToSquare | src/utils/coord.rs:98-100 | for a coordinate on the board, the file index is the column; the rank index is 7 − row from White's side and row from Black's |
| Coords.CoordValue.MovedBy | src/utils/coord.rs:79-82 | `move_by` keeps the flag and treats each axis alone: the exact sum when it lies in [min, max], `max` when it lies above, `min` when it lies below or when the bounds cross; with ordered bounds both axes end in [min, max] |
| Coords.CoordValue.Stepped | src/utils/coord.rs:51-57 | one cursor step always ends on the board and keeps the flag; from a valid coordinate UP/DOWN change only the row by −1/+1, LEFT/RIGHT only the column, and a step into an edge leaves that axis unchanged |
| Coords.ToSquareInjective | src/utils/coord.rs:98-123 | two on-board coordinates map to the same square exactly when `is_on` holds between them |
| Coords.Coord.New | src/utils/coord.rs:42-44 | `Coord::new(col, row, active)` stores its first argument as the column |
| Coords.Coord.Default | src/utils/coord.rs:132-134 | the default coordinate is row 7, column 0, active |
| Coords.Coord.HandleEvent | src/utils/coord.rs:51-57 | `handle_event` updates the coordinate in place to its `Stepped` value |
| Coords.Coord.MoveTo | src/utils/coord.rs:66-69 | `move_to` sets row and column exactly, without validation, and keeps the flag |
| Coords.Coord.MoveBy | src/utils/coord.rs:79-82 | `move_by` updates the coordinate in place to its `MovedBy` value, even though the code adds with saturation |
| Coords.Coord.ToggleActive | src/utils/coord.rs:85-87 | `toggle_active` flips the flag and keeps the position |
| General.GetFile | src/utils/general.rs:150-162 | the file of column `c` has index `c` for every column 0..7; other columns are unreachable |
| General.GetRank | src/utils/general.rs:174-201 | the rank of row `r` has index 7 − r from White's side and r from Black's |
| General.RanksMirror | src/utils/general.rs:174-201 | the two perspectives mirror each other: the indices of a row's ranks sum to 7, and row r from White's side is row 7 − r from Black's |
| General.GetCurrentPlayer | src/utils/general.rs:212-218 | the player is White exactly when the move count is odd |
| General.MovesFromSquare | src/utils/general.rs:44-50 | the moves from a square are exactly the engine's legal moves that start there, each as often as the engine lists it, in the engine's order |
| General.FilterBySource | src/utils/general.rs:44-50 | the filter keeps exactly the moves that start on the square: every kept move starts there, and a move is kept iff it is in the list and starts there |
| General.FilterCounts | src/utils/general.rs:44-50 | each move that starts on the square is kept as often as it occurs, and every other move is dropped |
| General.FilterKeepsOrder | src/utils/general.rs:44-50 | the filtered list is a subsequence of the generated list, in its order |
| General.FilterConcat | src/utils/general.rs:44-50 | filtering a concatenation concatenates the filtered parts |
| General.IsGameOver | src/utils/general.rs:229-231 | the game is over when the engine reports checkmate or stalemate, and only then |
| General.DestInMoves | src/utils/general.rs:80-82 | true iff some move in the list ends on the square |
| General.MoveToSquare | src/utils/general.rs:62-68 | when some move ends on the square, the result is a move of the list that ends there; a missing destination is excluded because the code unwraps |
| General.MoveToSquareIsFirst | src/utils/general.rs:62-68 | the result is the move at the first position whose destination is the square |
| General.SquareToString | src/utils/general.rs:120-139 | A1 is labelled "A1"; B1..H1 get their file letter, A2..A8 their rank digit, and every other square "" |
| General.PieceToChar | src/utils/general.rs:93-109 | the glyph is empty exactly for `None`, and at most one character otherwise |
| General.PieceGlyphsDistinct | src/utils/general.rs:93-109 | different pieces get different glyphs |
| Cells.Cell.New | src/utils/cell.rs:30-58 | the cell's square is the square of (row, col) from the player's side; red, yellow and orange appear only under the cursor; yellow/green mark exactly the active selection; orange/blue mark exactly the cached destinations other than the selection while a selection is active |
| Cells.IdleCellColor | src/utils/cell.rs:39-55 | without a selection a cell keeps its checker colour unless an active cursor is on it, which makes it red |
| Cells.SelectedCellColor | src/utils/cell.rs:41-52 | with a selection: the selected cell is yellow under the cursor and green otherwise; a cached destination is orange under the cursor and blue by parity otherwise; any other cursor cell is red, whether the cursor is active or not |
| Cells.OneCursorCell | src/utils/cell.rs:41-55 | no two cells of one board carry a cursor colour (red, yellow or orange) |
| Application.WithPromotion | src/app.rs:119-129 | a promotion is rebuilt with the chosen piece and keeps source, destination and capture; any other move is kept as is |
| Application.MoverOf | src/app.rs:131-133 | the log names White as the mover exactly when an even number of half-moves has been played before the move |
| Application.ResetState | src/app.rs:99-110 | after a reset, both coordinates are at row 7, column 0 with the selection inactive; the board is the start position, the log is the single reset entry and input is unblocked; the cursor's flag, the cached moves, the promotion piece, the perspective, the running flag and the size flag are kept |
| Application.CommittedMove | src/app.rs:113-129 | the committed move ends on the cursor's square; it agrees with a cached move in source, destination and flags; a promotion carries the chosen piece |
| Application.CommittedMoveIsFirst | src/app.rs:114-129 | the committed move is the first cached move to the cursor's square (`move_to_square`, src/utils/general.rs:62-68); a promotion is rebuilt with the chosen piece, any other move is committed exactly as cached |
| Application.CommitState | src/app.rs:113-144 | committing a move keeps both coordinates on the board |
| Application.CommitEffects | src/app.rs:113-144 | `handle_move` applies exactly the committed move and logs exactly one entry naming it and its mover. If the game is then over, both coordinates become inactive and input is blocked. Otherwise the selection flag flips, the cursor flag and the block stay. Positions, cache, promotion piece, perspective, running and size flags never change |
| Application.ConfirmState | src/app.rs:154-173 | confirming keeps both coordinates on the board; it leaves the cache equal to the moves from the selected square on the resulting board, whether or not the selection is still active; the cursor position, promotion piece, perspective, running and size flags are kept |
| Application.ConfirmFromIdle | src/app.rs:163-166 | confirming without a selection selects the cursor's cell (active) and changes neither board, log, cursor nor block |
| Application.ConfirmOnDestination | src/app.rs:155-157 | with a selection, a cursor on a cached destination commits the move; this check comes before the "cursor on the selection" check |
| Application.ConfirmCancels | src/app.rs:158-159 | with a selection and no destination under the cursor, a cursor on the selection switches the selection off and changes nothing else but the cache |
| Application.ConfirmRetargets | src/app.rs:160-161 | with a selection and no destination under the cursor, a cursor elsewhere moves the selection there, still active, and changes nothing else but the cache |
| Application.ConfirmSettles | src/app.rs:138-143 | from unblocked input, confirming leaves a settled state: input is blocked only with both coordinates inactive |
| Application.App.constructor | src/app.rs:45-58 | `App::new`: cache empty, promotion piece queen, selection inactive at (0, 0), cursor at the default, White's perspective, start position, input unblocked, log empty, running |
| Application.App.Tick | src/app.rs:89-91 | a tick succeeds and changes nothing |
| Application.App.Log | src/app.rs:94-96 | `log` appends exactly one entry and changes no other field |
| Application.App.Reset | src/app.rs:99-110 | `reset` updates the application in place to `ResetState` |
| Application.App.HandleMove | src/app.rs:113-144 | `handle_move`, called with a cached destination under the cursor, updates the application to `CommitState` |
| Application.App.Quit | src/app.rs:149-151 | `quit` clears the running flag and nothing else |
| Application.App.UpdateSelectedCoord | src/app.rs:154-173 | `update_selected_coord` updates the application to `ConfirmState` |
| Application.App.SetPromotionPiece | src/app.rs:176-178 | `set_promotion_piece` sets the piece and nothing else |
| Handler.PromotionPieceOf | src/handler.rs:23-26 | the promotion digits choose one of queen, rook, bishop and knight |
| Handler.KeyCommand | src/handler.rs:8-28 | `r` always resets; otherwise the quit keys, and only they, quit; while blocked, every other key does nothing; a promotion is chosen exactly for the digits 1 to 4 when unblocked; the cursor moves exactly for the arrows and WASD, and a confirmation comes exactly from Enter and space, in both cases only when unblocked and not a universal key |
| Handler.Dispatch | src/handler.rs:8-28 | carrying out a command keeps both coordinates on the board and keeps the perspective and size flag; only quit touches the running flag; only a promotion digit touches the promotion piece |
| Handler.KeyState | src/handler.rs:7-30 | a key press keeps both coordinates on the board |
| Handler.Resized | src/handler.rs:32-35 | the terminal counts as large enough exactly at 106 columns and 24 rows or more; nothing else changes |
| Handler.EventState | src/app.rs:73-86 | handling an event keeps both coordinates on the board |
| Handler.ResetAlwaysWorks | src/handler.rs:10 | `r`, with any modifiers, resets even while input is blocked, and lifts the block |
| Handler.QuitAlwaysWorks | src/handler.rs:11-12 | Escape, `q` and Control-c/C quit even while blocked and change nothing else |
| Handler.BlockedKeysIgnored | src/handler.rs:14 | while blocked, every key other than `r` and the quit keys leaves the state unchanged |
| Handler.PlainCDoesNotQuit | src/handler.rs:11-12 | `c` without Control alone as modifier is not a quit key: it leaves the state unchanged |
| Handler.UnmappedKeysIgnored | src/handler.rs:27 | while unblocked, a key outside the map (not `r`, a quit key, an arrow, WASD, Enter, space or a promotion digit) leaves the state unchanged |
| Handler.NavigationKeys | src/handler.rs:16-19 | arrows and WASD move only the cursor, by one clamped step, when input is unblocked |
| Handler.PromotionKeys | src/handler.rs:23-26 | the promotion piece changes only through the digits 1 to 4 while unblocked; those set queen, rook, bishop and knight and change nothing else |
| Handler.ConfirmKeys | src/handler.rs:21 | Enter and space confirm the cursor's cell |
| Handler.KeyKeepsSettled | src/handler.rs:7-30 | no key press breaks the invariant that blocked input comes with both coordinates inactive |
| Handler.EventKeepsSettled | src/app.rs:73-86 | no event breaks that invariant |
| Handler.LastResizeWins | src/handler.rs:32-35 | only the latest resize decides the size flag |
| Handler.EventWhileBlocked | src/handler.rs:10-14 | while blocked, an event that is not a press of `r` can change only the running and size flags |
| Handler.HandleKeyEvent | src/handler.rs:7-30 | `handle_key_event` always returns `Ok` and updates the application to `KeyState` |
| Handler.HandleResizeEvent | src/handler.rs:32-35 | `handle_resize_event` always returns `Ok` and updates the application to `Resized` |
| Handler.HandleEvents | src/app.rs:73-86 | an error from the event source is returned unchanged and leaves the application alone; otherwise the result is `Ok` and the application moves to `EventState`; key releases and repeats are ignored |
| MainLoop.NextEvent | src/event.rs:74-82 | the next event is the queued one while there is one; a closed channel gives the IO error |
| MainLoop.Replay | src/app.rs:65-68 | the loop keeps both coordinates on the board |
| MainLoop.ReplayStopsRunning | src/app.rs:65-70 | the loop ends with the application still running exactly when it did not end by quitting, so it ended on an error |
| MainLoop.ReplayKeepsSettled | src/app.rs:65-68 | the invariant survives any sequence of events |
| MainLoop.ReplayWhileBlocked | src/app.rs:65-68 | once blocked, without a press of `r` the game (board, log, coordinates, cache, promotion piece and block) survives any events |
| MainLoop.Run | src/app.rs:61-70 | `run` ends in the `Replay` state; it returns `Ok` exactly when the application quit before the events failed or ran out; every failure carries the context "Error handling events" |
| Scenarios.NewScenario | src/utils/coord.rs:155-160 | `Coord::new(4, 3, true)` has row 3, column 4 and is active |
| Scenarios.HandleEventScenario | src/utils/coord.rs:163-180 | up, down, left, right from (3, 4) pass through (2, 4), (3, 4), (3, 3), (3, 4) |
| Scenarios.EdgeScenario | src/utils/coord.rs:51-57 | from the default corner, down and left leave the cursor at (7, 0) |
| Scenarios.MoveToScenario | src/utils/coord.rs:183-188 | `move_to(3, 4)` lands on (3, 4) |
| Scenarios.MoveByScenario | src/utils/coord.rs:191-197 | `move_by(3, 4, i8::MAX, 0)` from (5, 6) gives (8, 10), off the board, and keeps the flag |
| Scenarios.ToggleScenario | src/utils/coord.rs:200-206 | toggling twice gives inactive, then active again |
| Scenarios.IsOnScenario | src/utils/coord.rs:216-221 | `Coord::new(6, 5, true)` is on (5, 6) and not on (5, 7) or (6, 6) |
| Scenarios.IsValidScenario | src/utils/coord.rs:224-229 | (0, 0) and (7, 7) are valid; column 8 and row 8 are not |
| Scenarios.ToSquareExamples | src/utils/coord.rs:209-213 | row 5, column 6 is G3 from White's side and G6 from Black's |
| Scenarios.PawnOnA2 | src/utils/general.rs:246-266 | with the A2 pawn's two moves first and no other move from A2, the filter gives exactly those two moves; A3 is a destination, A5 is not, and the move picked for A4 goes from A2 to A4 |
| Scenarios.FilterSkips | src/utils/general.rs:44-50 | a list with no move from the square filters to nothing |
| Scenarios.OpeningPawnMoves | src/utils/general.rs:246-250 | among the twenty opening moves, exactly the pawn's moves to A3 and A4 start on A2 |
| Scenarios.PieceToCharExamples | src/utils/general.rs:269-283 | each of the twelve pieces gets its glyph, and an empty square none |
| Scenarios.SquareToStringExamples | src/utils/general.rs:286-302 | A1 is "A1", B1 to H1 are "B" to "H", A2 to A8 are "2" to "8" |
| Scenarios.GetFileExamples | src/utils/general.rs:305-314 | columns 0 to 7 are files A to H |
| Scenarios.GetRankExamples | src/utils/general.rs:317-335 | rows 0 to 7 are ranks 1 to 8 from Black's side and ranks 8 to 1 from White's |
| Scenarios.CurrentPlayerExamples | src/utils/general.rs:338-343 | move counts 1, 2, 3, 4 name White, Black, White, Black |
| Scenarios.ResizeScenario | src/handler.rs:32-35 | 80×24 is too small, 106×24 is large enough |
| Scenarios.CursorScenario | src/app.rs:73-86 | a press of `w` moves the cursor from (7, 0) to (6, 0); the release of the key changes nothing |
| Scenarios.QuitScenario | src/app.rs:61-70 | Escape ends the loop with `Ok`; the digit pressed after it is never handled, so the promotion piece stays queen |

## Left out

- The event source (`src/event.rs`) is left out: a spawned task races a timer against the terminal's event stream over an unbounded channel. It is concurrency and I/O. The loop instead receives a finite list of results. Past the end of the list it gets the error `next` returns for a closed channel. That is a modelling device for a source that has run out: the handler keeps its own sender (src/event.rs:25, 63-67), so in the program the channel never closes while the handler lives, and `next` waits instead of failing.
- `MainLoop.Run` leaves out drawing the interface before each event, and with it the error that drawing can return (src/app.rs:66), which would end the loop. It also flattens the wrapped error chain to its outer context, "Error handling events".
- Rendering is left out. That covers the widgets, `src/ui.rs`, the terminal setup in `src/main.rs`, and `create_board_layout`, which is a thin wrapper over the layout library.
- The rules engine is left out. The board is the list of moves applied since the start, so `apply_move` appends and `moves_played` counts. Move generation, checkmate and stalemate are functions supplied with the engine, and nothing is assumed about them. As a result, the model does not decide whether the cache is empty after a move; that depends on the engine.
- Log messages are left out as text. A log entry is `Reseted` or the move with the mover's colour. The `Display` forms of moves, players and coordinates are not part of this model.
- `KeyEvent` keeps the key code, the modifiers and the kind, but not the `state` field, which the handler never reads. Key codes that the handler does not distinguish are represented by `OtherKey`. Mouse events keep no content.
- `Application.MoverOf` models the 16-bit move counter: `moves_played + 1` wraps at 65536. A debug build would panic there instead. The two differ only after 65535 half-moves.
- `Coords.CoordValue.ToSquare` requires a coordinate on the board. The code converts the `i8` to `u8`, and any position off the board ends in the `unreachable!` of `get_file` or `get_rank`.
- `impl Default for App` is left out. It only calls `App::new`.
