/**
 * Input handling: the key map with its universal keys and the input block,
 * the resize rule, and the event dispatch of the application.
 */
module Handler {
  import opened Ints
  import opened Pleco
  import opened Coords
  import opened Events
  import opened Application

  /** What a key press asks the application to do. */
  datatype Command = ResetGame | QuitGame | Navigate(e: CoordEvent) | Confirm | Promote(piece: PieceType) | NoOp

  /** Escape, `q`, or Control (alone) with `c` or `C`. */
  predicate IsQuitKey(key: KeyEvent) {
    key.code == Esc || key.code == Char('q')
    || (key.modifiers == CONTROL && (key.code == Char('c') || key.code == Char('C')))
  }

  /** The keys that work even while inputs are blocked. */
  predicate IsUniversal(key: KeyEvent) {
    key.code == Char('r') || IsQuitKey(key)
  }

  /** The digits that choose a promotion piece. */
  predicate IsPromotionKey(code: KeyCode) {
    code in {Char('1'), Char('2'), Char('3'), Char('4')}
  }

  /** The arrow keys and their WASD counterparts. */
  const NavigationCodes: set<KeyCode> :=
    {Up, Down, Left, Right, Char('w'), Char('s'), Char('a'), Char('d')}

  /** The piece a promotion digit chooses: 1 to 4 are queen, rook, bishop, knight. */
  function PromotionPieceOf(code: KeyCode): (p: PieceType)
    requires IsPromotionKey(code)
    ensures p in {Queen, Rook, Bishop, Knight}
  {
    if code == Char('1') then Queen
    else if code == Char('2') then Rook
    else if code == Char('3') then Bishop
    else Knight
  }

  /**
   * The arms of `handle_key_event`, in order: `r` resets, the quit keys quit,
   * a block swallows every other key, then movement, confirmation and the
   * promotion digits; anything else does nothing.
   */
  function KeyCommand(key: KeyEvent, blocked: bool): (c: Command)
    ensures key.code == Char('r') ==> c == ResetGame
    ensures key.code != Char('r') ==> (c == QuitGame <==> IsQuitKey(key))
    ensures blocked && !IsUniversal(key) ==> c == NoOp
    ensures c.Promote? <==> !blocked && !IsUniversal(key) && IsPromotionKey(key.code)
    ensures c.Navigate? <==> !blocked && !IsUniversal(key) && key.code in NavigationCodes
    ensures c == Confirm <==> !blocked && !IsUniversal(key) && key.code in {Enter, Char(' ')}
  {
    var code := key.code;
    if code == Char('r') then ResetGame
    else if IsQuitKey(key) then QuitGame
    else if blocked then NoOp
    else if code == Up || code == Char('w') then Navigate(UP)
    else if code == Down || code == Char('s') then Navigate(DOWN)
    else if code == Left || code == Char('a') then Navigate(LEFT)
    else if code == Right || code == Char('d') then Navigate(RIGHT)
    else if code == Enter || code == Char(' ') then Confirm
    else if IsPromotionKey(code) then Promote(PromotionPieceOf(code))
    else NoOp
  }

  /** The state after the application carries out a command. */
  function Dispatch(c: Command, s: AppState, engine: Engine): (t: AppState)
    requires s.OnBoard()
    ensures t.OnBoard()
    ensures t.mainPlayer == s.mainPlayer && t.terminalTooSmall == s.terminalTooSmall
    ensures c != QuitGame ==> t.running == s.running
    ensures !c.Promote? ==> t.promotionPiece == s.promotionPiece
  {
    match c
    case ResetGame => ResetState(s)
    case QuitGame => s.(running := false)
    case Navigate(e) => s.(cursor := s.cursor.Stepped(e))
    case Confirm => ConfirmState(s, engine)
    case Promote(p) => s.(promotionPiece := p)
    case NoOp => s
  }

  /** The state after `handle_key_event`. */
  function KeyState(key: KeyEvent, s: AppState, engine: Engine): (t: AppState)
    requires s.OnBoard()
    ensures t.OnBoard()
  {
    Dispatch(KeyCommand(key, s.blockInputs), s, engine)
  }

  /** `handle_resize_event`: the board needs at least 106 columns and 24 rows. */
  function Resized(s: AppState, width: int, height: int): (t: AppState)
    ensures !t.terminalTooSmall <==> width >= 106 && height >= 24
    ensures t.(terminalTooSmall := s.terminalTooSmall) == s
  {
    s.(terminalTooSmall := width < 106 || height < 24)
  }

  /** The state after `handle_events` receives `e`: only key presses and resizes change anything. */
  function EventState(e: Event, s: AppState, engine: Engine): (t: AppState)
    requires s.OnBoard()
    ensures t.OnBoard()
  {
    match e
    case Tick => s
    case Key(key) => if key.kind == Press then KeyState(key, s, engine) else s
    case Mouse => s
    case Resize(width, height) => Resized(s, width, height)
  }

  /** `r` resets the game whatever the block, and lifts the block. */
  lemma ResetAlwaysWorks(key: KeyEvent, s: AppState, engine: Engine)
    requires s.OnBoard() && key.code == Char('r')
    ensures KeyState(key, s, engine) == ResetState(s)
    ensures !KeyState(key, s, engine).blockInputs
  {
  }

  /** A quit key stops the application whatever the block, and changes nothing else. */
  lemma QuitAlwaysWorks(key: KeyEvent, s: AppState, engine: Engine)
    requires s.OnBoard() && key.code != Char('r') && IsQuitKey(key)
    ensures KeyState(key, s, engine) == s.(running := false)
  {
  }

  /** While inputs are blocked, every key other than the universal ones is ignored. */
  lemma BlockedKeysIgnored(key: KeyEvent, s: AppState, engine: Engine)
    requires s.OnBoard() && s.blockInputs && !IsUniversal(key)
    ensures KeyState(key, s, engine) == s
  {
  }

  /** Control with `c` quits only when Control is the sole modifier; a plain `c` is no key at all. */
  lemma PlainCDoesNotQuit(key: KeyEvent, s: AppState, engine: Engine)
    requires s.OnBoard() && key.code == Char('c') && key.modifiers != CONTROL
    ensures KeyState(key, s, engine) == s
  {
    assert KeyCommand(key, s.blockInputs) == NoOp;
  }

  /** While input is not blocked, a key outside the map does nothing. */
  lemma UnmappedKeysIgnored(key: KeyEvent, s: AppState, engine: Engine)
    requires s.OnBoard() && !IsUniversal(key) && !IsPromotionKey(key.code)
    requires key.code !in NavigationCodes && key.code !in {Enter, Char(' ')}
    ensures KeyState(key, s, engine) == s
  {
  }

  /** The arrow keys and WASD step the cursor, clamped to the board, and change nothing else. */
  lemma NavigationKeys(key: KeyEvent, s: AppState, engine: Engine)
    requires s.OnBoard() && !s.blockInputs
    ensures key.code in {Up, Char('w')} ==> KeyState(key, s, engine) == s.(cursor := s.cursor.Stepped(UP))
    ensures key.code in {Down, Char('s')} ==> KeyState(key, s, engine) == s.(cursor := s.cursor.Stepped(DOWN))
    ensures key.code in {Left, Char('a')} ==> KeyState(key, s, engine) == s.(cursor := s.cursor.Stepped(LEFT))
    ensures key.code in {Right, Char('d')} ==> KeyState(key, s, engine) == s.(cursor := s.cursor.Stepped(RIGHT))
  {
    var c := KeyCommand(key, false);
    assert key.code in {Up, Char('w')} ==> c == Navigate(UP);
    assert key.code in {Down, Char('s')} ==> c == Navigate(DOWN);
    assert key.code in {Left, Char('a')} ==> c == Navigate(LEFT);
    assert key.code in {Right, Char('d')} ==> c == Navigate(RIGHT);
  }

  /**
   * The promotion piece changes only through the digits 1 to 4 while input is
   * not blocked, which choose queen, rook, bishop and knight.
   */
  lemma PromotionKeys(key: KeyEvent, s: AppState, engine: Engine)
    requires s.OnBoard()
    ensures var t := KeyState(key, s, engine);
      t.promotionPiece != s.promotionPiece ==> !s.blockInputs && IsPromotionKey(key.code)
    ensures !s.blockInputs ==> var t := KeyState(key, s, engine);
      && (key.code == Char('1') ==> t == s.(promotionPiece := Queen))
      && (key.code == Char('2') ==> t == s.(promotionPiece := Rook))
      && (key.code == Char('3') ==> t == s.(promotionPiece := Bishop))
      && (key.code == Char('4') ==> t == s.(promotionPiece := Knight))
  {
  }

  /** Enter and space confirm the cursor's cell. */
  lemma ConfirmKeys(key: KeyEvent, s: AppState, engine: Engine)
    requires s.OnBoard() && !s.blockInputs && key.code in {Enter, Char(' ')}
    ensures KeyState(key, s, engine) == ConfirmState(s, engine)
  {
    assert KeyCommand(key, s.blockInputs) == Confirm;
  }

  /** No key press unsettles the state: a block always comes with both coordinates inactive. */
  lemma KeyKeepsSettled(key: KeyEvent, s: AppState, engine: Engine)
    requires s.OnBoard() && s.Settled()
    ensures KeyState(key, s, engine).Settled()
  {
    if !s.blockInputs && KeyCommand(key, s.blockInputs) == Confirm {
      ConfirmSettles(s, engine);
    }
  }

  /** No event unsettles the state. */
  lemma EventKeepsSettled(e: Event, s: AppState, engine: Engine)
    requires s.OnBoard() && s.Settled()
    ensures EventState(e, s, engine).Settled()
  {
    if e.Key? && e.key.kind == Press {
      KeyKeepsSettled(e.key, s, engine);
    }
  }

  /** Only the latest resize counts. */
  lemma LastResizeWins(s: AppState, w1: int, h1: int, w2: int, h2: int)
    ensures Resized(Resized(s, w1, h1), w2, h2) == Resized(s, w2, h2)
  {
  }

  /** A key press of `r`, whatever its modifiers. */
  predicate IsResetPress(e: Event) {
    e.Key? && e.key.kind == Press && e.key.code == Char('r')
  }

  /**
   * While inputs are blocked, an event other than a press of `r` leaves the
   * game alone: board, log, selection, cursor, cached moves, promotion piece
   * and the block itself are kept.
   */
  lemma EventWhileBlocked(e: Event, s: AppState, engine: Engine)
    requires s.OnBoard() && s.blockInputs && !IsResetPress(e)
    ensures var t := EventState(e, s, engine);
      t == s.(running := t.running, terminalTooSmall := t.terminalTooSmall)
  {
    if e.Key? && e.key.kind == Press {
      if IsQuitKey(e.key) {
        QuitAlwaysWorks(e.key, s, engine);
      } else {
        BlockedKeysIgnored(e.key, s, engine);
      }
    }
  }

  /** `handle_key_event`: dispatches on the key and never fails. */
  method HandleKeyEvent(keyEvent: KeyEvent, app: App) returns (r: Result<()>)
    requires app.Valid()
    modifies app, app.selected, app.cursor
    ensures app.Valid() && r == Ok(())
    ensures app.State() == KeyState(keyEvent, old(app.State()), app.engine)
  {
    ghost var c := KeyCommand(keyEvent, app.blockInputs);
    var code := keyEvent.code;
    if code == Char('r') {
      assert c == ResetGame;
      app.Reset();
    } else if code == Esc || code == Char('q')
      || (keyEvent.modifiers == CONTROL && (code == Char('c') || code == Char('C'))) {
      assert c == QuitGame;
      app.Quit();
    } else if app.blockInputs {
    } else if code == Up || code == Char('w') {
      assert c == Navigate(UP);
      app.cursor.HandleEvent(UP);
    } else if code == Down || code == Char('s') {
      assert c == Navigate(DOWN);
      app.cursor.HandleEvent(DOWN);
    } else if code == Left || code == Char('a') {
      assert c == Navigate(LEFT);
      app.cursor.HandleEvent(LEFT);
    } else if code == Right || code == Char('d') {
      assert c == Navigate(RIGHT);
      app.cursor.HandleEvent(RIGHT);
    } else if code == Enter || code == Char(' ') {
      assert c == Confirm;
      app.UpdateSelectedCoord();
    } else if code == Char('1') {
      assert c == Promote(Queen);
      app.SetPromotionPiece(Queen);
    } else if code == Char('2') {
      assert c == Promote(Rook);
      app.SetPromotionPiece(Rook);
    } else if code == Char('3') {
      assert c == Promote(Bishop);
      app.SetPromotionPiece(Bishop);
    } else if code == Char('4') {
      assert c == Promote(Knight);
      app.SetPromotionPiece(Knight);
    }
    r := Ok(());
  }

  /** `handle_resize_event`: records whether the terminal is too small; never fails. */
  method HandleResizeEvent(app: App, width: U16, height: U16) returns (r: Result<()>)
    modifies app
    ensures r == Ok(())
    ensures app.State() == Resized(old(app.State()), width, height)
  {
    app.terminalTooSmall := width < 106 || height < 24;
    r := Ok(());
  }

  /**
   * `App::handle_events`: an error from the event source is passed on and
   * changes nothing; otherwise the event is handled and the result is `Ok`.
   */
  method HandleEvents(app: App, event: Result<Event>) returns (r: Result<()>)
    requires app.Valid()
    modifies app, app.selected, app.cursor
    ensures app.Valid()
    ensures r.Err? <==> event.Err?
    ensures event.Err? ==> r.report == event.report && app.State() == old(app.State())
    ensures event.Ok? ==> app.State() == EventState(event.value, old(app.State()), app.engine)
  {
    if event.Err? {
      return Err(event.report);
    }
    match event.value
    case Tick =>
      r := app.Tick();
    case Key(keyEvent) =>
      if keyEvent.kind == Press {
        r := HandleKeyEvent(keyEvent, app);
      } else {
        r := Ok(());
      }
    case Resize(width, height) =>
      r := HandleResizeEvent(app, width, height);
    case Mouse =>
      r := Ok(());
  }
}
