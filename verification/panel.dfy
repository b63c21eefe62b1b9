/** Which controls of the component a user can press in a given state: the
    buttons that are rendered and not disabled, and the two-second timer
    while it is still pending. The handlers themselves are in module
    Experiment; this module says which of them the page lets happen.

    As rendered, the displacement input and its Record button need the
    eyepiece view to be open, and the Close View button closes it. Closing it at
    step 5 leaves no enabled control that can change the state: the light
    button is disabled outside steps 3 and 6, and nothing else applies. The
    corrected panel keeps the input on screen for all of step 5. */
module Panel {
  import opened Wrappers
  import opened Measurement
  import opened Experiment

  /** The component's state together with whether the timer scheduled by a
      workpiece selection has yet to fire. Nothing cancels that timer. */
  datatype Page = Page(state: State, timerPending: bool)

  /** The page at mount: no timer scheduled. */
  function InitialPage(): Page
  {
    Page(Initial(), false)
  }

  /** One event on the page: the handler runs, a selection that acts
      schedules the timer, and the timer's firing consumes it. */
  function Press(p: Page, e: Event): Page
  {
    Page(Apply(p.state, e),
         if e.TimerElapsed? then false
         else if e.SelectPressed? && p.state.step == 0 then true
         else p.timerPending)
  }

  function PageRun(p: Page, es: seq<Event>): Page
    decreases |es|
  {
    if es == [] then p else PageRun(Press(p, es[0]), es[1..])
  }

  /** The workpiece buttons, which pass these two kinds. */
  predicate IsWorkpieceKind(kind: string)
  {
    kind == "flat" || kind == "tapered"
  }

  /** Availability as the component renders it; the timer fires whenever it
      is pending, whatever the step. */
  predicate AvailableAsWritten(p: Page, e: Event)
  {
    var s := p.state;
    match e
    case SelectPressed(kind) => s.step <= 0 && IsWorkpieceKind(kind)
    case TimerElapsed => p.timerPending
    case LightPressed => s.step >= 3 && (s.step == 3 || s.step == 6)
    case CloseViewPressed => s.viewing
    case DeviationTyped(_) => s.step >= 5 && s.viewing
    case RecordPressed(_) => s.step >= 5 && s.viewing
    case MovePressed => s.step == 8 && s.currentReading < ReadingCount
    case ResetPressed => s.step >= 9
    case ViewGraphPressed => s.showGraph
    case GraphViewPressed(_) => s.step == 9 && |s.readings| > 0
  }

  /** The corrected availability: the input and Record stay on screen for the
      whole of step 5, whether or not the eyepiece view is open. It widens the
      rendered panel by exactly those two controls at step 5. */
  predicate Available(p: Page, e: Event)
    ensures AvailableAsWritten(p, e) ==> Available(p, e)
    ensures Available(p, e) && !AvailableAsWritten(p, e) ==>
      (e.DeviationTyped? || e.RecordPressed?) && p.state.step == 5 && !p.state.viewing
  {
    match e
    case DeviationTyped(_) => p.state.step >= 5 && (p.state.viewing || p.state.step == 5)
    case RecordPressed(_) => p.state.step >= 5 && (p.state.viewing || p.state.step == 5)
    case _ => AvailableAsWritten(p, e)
  }

  predicate AvailableRunAsWritten(p: Page, es: seq<Event>)
    decreases |es|
  {
    es == [] || (AvailableAsWritten(p, es[0]) && AvailableRunAsWritten(Press(p, es[0]), es[1..]))
  }

  predicate AvailableRun(p: Page, es: seq<Event>)
    decreases |es|
  {
    es == [] || (Available(p, es[0]) && AvailableRun(Press(p, es[0]), es[1..]))
  }

  /** What holds of every page a user reaches: the experiment's invariant,
      the timer pending exactly at step 1, and a workpiece chosen exactly when
      the step is past 0. */
  predicate PageInv(p: Page)
  {
    Inv(p.state)
    && (p.timerPending <==> p.state.step == 1)
    && (p.state.workpiece == "" <==> p.state.step == 0)
  }

  /** The page's state is the experiment's run of the same events. */
  lemma {:induction false} PageRunIsRun(p: Page, es: seq<Event>)
    ensures PageRun(p, es).state == Run(p.state, es)
    decreases |es|
  {
    if es != [] {
      PageRunIsRun(Press(p, es[0]), es[1..]);
    }
  }

  /** An enabled control, or the pending timer, keeps the page invariant: no
      enabled control leaves step 1 before the timer fires, so the timer
      fires at step 1; and the workpiece buttons pass a non-empty kind. */
  lemma AvailablePressKeepsPageInv(p: Page, e: Event)
    requires PageInv(p) && Available(p, e)
    ensures PageInv(Press(p, e))
  {
  }

  /** Every page a user can reach from mount keeps the page invariant, with
      the corrected panel and so also as rendered. */
  lemma {:induction false} AvailableRunKeepsPageInv(p: Page, es: seq<Event>)
    requires PageInv(p) && AvailableRun(p, es)
    ensures PageInv(PageRun(p, es))
    decreases |es|
  {
    if es != [] {
      AvailablePressKeepsPageInv(p, es[0]);
      AvailableRunKeepsPageInv(Press(p, es[0]), es[1..]);
    }
  }

  /** A run of enabled presses from a page that keeps the page invariant
      fires the timer only at step 1: the assumption under which module
      Experiment proves its invariant over runs. */
  lemma {:induction false} AvailableRunIsWellTimed(p: Page, es: seq<Event>)
    requires PageInv(p) && AvailableRun(p, es)
    ensures WellTimed(p.state, es)
    decreases |es|
  {
    if es != [] {
      AvailablePressKeepsPageInv(p, es[0]);
      AvailableRunIsWellTimed(Press(p, es[0]), es[1..]);
    }
  }

  /** Every press the rendered panel enables, the corrected one enables too. */
  lemma {:induction false} AsWrittenRunIsAvailableRun(p: Page, es: seq<Event>)
    requires AvailableRunAsWritten(p, es)
    ensures AvailableRun(p, es)
    decreases |es|
  {
    if es != [] {
      AsWrittenRunIsAvailableRun(Press(p, es[0]), es[1..]);
    }
  }

  /** Every run a user makes from mount, as rendered or with the corrected
      panel, fires the timer only at step 1, and the state it reaches keeps
      the experiment's invariant, has the timer pending exactly at step 1,
      and has a workpiece exactly past step 0. */
  lemma ReachablePagesKeepInv(es: seq<Event>)
    requires AvailableRunAsWritten(InitialPage(), es) || AvailableRun(InitialPage(), es)
    ensures var p := PageRun(InitialPage(), es);
      WellTimed(Initial(), es)
      && p.state == Run(Initial(), es)
      && Inv(p.state)
      && (p.timerPending <==> p.state.step == 1)
      && (p.state.workpiece == "" <==> p.state.step == 0)
  {
    if AvailableRunAsWritten(InitialPage(), es) {
      AsWrittenRunIsAvailableRun(InitialPage(), es);
    }
    InitialInv();
    AvailableRunKeepsPageInv(InitialPage(), es);
    AvailableRunIsWellTimed(InitialPage(), es);
    PageRunIsRun(InitialPage(), es);
  }

  /** A disabled control whose handler has its own guard would not have acted
      anyway: pressing workpiece, light or move out of turn changes nothing. */
  lemma DisabledControlsAreGuarded(p: Page, e: Event)
    requires Inv(p.state) && !Available(p, e)
    requires e.SelectPressed? ==> IsWorkpieceKind(e.kind)
    requires e.SelectPressed? || e.LightPressed? || e.MovePressed?
    ensures Apply(p.state, e) == p.state
  {
  }

  /** The press sequence that strands the experiment as rendered: choose the
      flat workpiece, let the timer fire, switch on the light, close the view. */
  function StrandingPresses(): seq<Event>
  {
    [SelectPressed("flat"), TimerElapsed, LightPressed, CloseViewPressed]
  }

  /** As rendered, the presses above are all available, the page they reach
      keeps the invariant at step 5 with no reading recorded, and nothing at
      all is available there, the timer included. */
  lemma CloseViewStrandsReading()
    ensures AvailableRunAsWritten(InitialPage(), StrandingPresses())
    ensures var p := PageRun(InitialPage(), StrandingPresses());
      PageInv(p) && p.state.step == 5 && p.state.readings == []
      && forall e :: !AvailableAsWritten(p, e)
  {
  }

  /** The presses that take the experiment one step further: choose a
      workpiece, wait for the timer, switch the light, type the value shown in
      the eyepiece (its parse is the shown value) and record it, or move the
      reflector. */
  function NextPresses(s: State): seq<Event>
  {
    match s.step
    case 0 => [SelectPressed("flat")]
    case 1 => [TimerElapsed]
    case 3 => [LightPressed]
    case 5 => [DeviationTyped("d"), RecordPressed(Some(s.crosshairDeviation))]
    case 6 => [LightPressed]
    case 8 => [MovePressed]
    case _ => []
  }

  /** With the corrected panel the experiment never gets stuck: from every
      page that keeps the page invariant, before step 9, the presses above
      are available and make one protocol move. */
  lemma NoDeadEnd(p: Page)
    requires PageInv(p) && p.state.step != 9
    ensures AvailableRun(p, NextPresses(p.state))
    ensures ProtocolMove(p.state.step, PageRun(p, NextPresses(p.state)).state.step)
  {
    var es := NextPresses(p.state);
    var t := Press(p, es[0]);
    assert PageRun(p, es) == PageRun(t, es[1..]);
    if p.state.step == 5 {
      var u := Press(t, es[1]);
      assert PageRun(t, es[1..]) == PageRun(u, es[2..]);
      assert AvailableRun(u, es[2..]);
      assert AvailableRun(t, es[1..]);
    } else {
      assert AvailableRun(t, es[1..]);
    }
  }
}
