/**
 * The main loop of `App::run`: events are taken from the event source one at
 * a time and handled until the application stops running or the source fails.
 * The event source is a finite list here; once it is used up, receiving
 * fails with the error `next` gives for a closed channel. The program's
 * handler keeps its own sender, so there receiving waits instead: the error
 * past the end stands for a source that has run out.
 */
module MainLoop {
  import opened Pleco
  import opened Events
  import opened Application
  import opened Handler

  /** The error the event handler reports once its channel is closed. */
  const ClosedChannel := "This is an IO error"

  /** The context `run` wraps around a failure to handle an event. */
  const HandlingFailed := "Error handling events"

  /** `EventHandler::next`: the `i`-th event, or past the end the error `next` gives for a closed channel. */
  function NextEvent(events: seq<Result<Event>>, i: nat): (r: Result<Event>)
    ensures i < |events| ==> r == events[i]
    ensures i >= |events| ==> r == Err(ClosedChannel)
  {
    if i < |events| then events[i] else Err(ClosedChannel)
  }

  /** The state `run` reaches: events are handled in order while running, up to the first error. */
  function Replay(s: AppState, events: seq<Result<Event>>, engine: Engine): (t: AppState)
    requires s.OnBoard()
    ensures t.OnBoard()
    decreases |events|
  {
    if !s.running || events == [] || events[0].Err? then s
    else Replay(EventState(events[0].value, s, engine), events[1..], engine)
  }

  /** `run` returns `Ok`: the application stops running before the events run out or fail. */
  predicate QuitsWithin(s: AppState, events: seq<Result<Event>>, engine: Engine)
    requires s.OnBoard()
    decreases |events|
  {
    !s.running
    || (events != [] && events[0].Ok? && QuitsWithin(EventState(events[0].value, s, engine), events[1..], engine))
  }

  /** The loop ends running exactly when it ends by quitting; otherwise it ended on an error. */
  lemma {:induction false} ReplayStopsRunning(s: AppState, events: seq<Result<Event>>, engine: Engine)
    requires s.OnBoard()
    ensures Replay(s, events, engine).running <==> !QuitsWithin(s, events, engine)
    decreases |events|
  {
    if s.running && events != [] && events[0].Ok? {
      ReplayStopsRunning(EventState(events[0].value, s, engine), events[1..], engine);
    }
  }

  /** Handling any sequence of events keeps a settled state settled. */
  lemma {:induction false} ReplayKeepsSettled(s: AppState, events: seq<Result<Event>>, engine: Engine)
    requires s.OnBoard() && s.Settled()
    ensures Replay(s, events, engine).Settled()
    decreases |events|
  {
    if s.running && events != [] && events[0].Ok? {
      EventKeepsSettled(events[0].value, s, engine);
      ReplayKeepsSettled(EventState(events[0].value, s, engine), events[1..], engine);
    }
  }

  /**
   * Once the game is over, only a press of `r` can change the game: without
   * one, the board, the log, both coordinates, the cached moves, the
   * promotion piece and the block survive any events.
   */
  lemma {:induction false} ReplayWhileBlocked(s: AppState, events: seq<Result<Event>>, engine: Engine)
    requires s.OnBoard() && s.blockInputs
    requires forall i :: 0 <= i < |events| && events[i].Ok? ==> !IsResetPress(events[i].value)
    ensures var t := Replay(s, events, engine);
      t == s.(running := t.running, terminalTooSmall := t.terminalTooSmall)
    decreases |events|
  {
    if s.running && events != [] && events[0].Ok? {
      assert !IsResetPress(events[0].value);
      EventWhileBlocked(events[0].value, s, engine);
      var u := EventState(events[0].value, s, engine);
      assert forall i :: 0 <= i < |events[1..]| && events[1..][i].Ok? ==> !IsResetPress(events[1..][i].value) by {
        forall i | 0 <= i < |events[1..]| && events[1..][i].Ok?
          ensures !IsResetPress(events[1..][i].value)
        {
          assert events[1..][i] == events[i + 1];
        }
      }
      ReplayWhileBlocked(u, events[1..], engine);
    }
  }

  /**
   * The state part of `App::run`: while running, receive an event and handle
   * it; a failure is returned with the context `run` adds. Drawing the
   * interface between events is not modelled.
   */
  method Run(app: App, events: seq<Result<Event>>) returns (r: Result<()>)
    requires app.Valid()
    modifies app, app.selected, app.cursor
    ensures app.Valid()
    ensures app.State() == Replay(old(app.State()), events, app.engine)
    ensures r.Ok? <==> QuitsWithin(old(app.State()), events, app.engine)
    ensures r.Err? ==> r.report == HandlingFailed
  {
    ghost var s0 := app.State();
    var i := 0;
    while app.running
      invariant 0 <= i <= |events|
      invariant app.Valid()
      invariant Replay(app.State(), events[i..], app.engine) == Replay(s0, events, app.engine)
      invariant QuitsWithin(app.State(), events[i..], app.engine) == QuitsWithin(s0, events, app.engine)
      decreases |events| - i
    {
      var event := NextEvent(events, i);
      var handled := HandleEvents(app, event);
      if handled.Err? {
        assert events[i..] == [] || events[i..][0].Err?;
        return Err(HandlingFailed);
      }
      assert events[i..][0] == events[i] && events[i..][1..] == events[i + 1..];
      i := i + 1;
    }
    r := Ok(());
  }
}
