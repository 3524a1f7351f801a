/**
 * The events the main loop receives: the shape of the terminal event enum
 * and of the key events the terminal library reports.
 */
module Events {
  import opened Ints

  /** `color_eyre::Result`: a value or an error report. */
  datatype Result<T> = Ok(value: T) | Err(report: string)

  datatype Modifier = Shift | Control | Alt | Super | Hyper | Meta

  /** The modifier bits held during a key press. */
  type KeyModifiers = set<Modifier>

  /** `KeyModifiers::CONTROL`: Control and nothing else. */
  const CONTROL: KeyModifiers := {Control}

  datatype KeyCode =
    | Backspace | Enter | Left | Right | Up | Down | Home | End | PageUp | PageDown
    | Tab | BackTab | Delete | Insert | FunctionKey(n: nat) | Char(c: char) | Null | Esc
    | OtherKey

  datatype KeyEventKind = Press | Repeat | Release

  datatype KeyEvent = KeyEvent(code: KeyCode, modifiers: KeyModifiers, kind: KeyEventKind)

  /** `Event`: a timer tick, a key, a mouse event (its content is never read) or a resize. */
  datatype Event = Tick | Key(key: KeyEvent) | Mouse | Resize(width: U16, height: U16)
}
