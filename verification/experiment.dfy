/** The guided experiment of the autocollimator lab as a state machine on
    values. Every handler of the component is one atomic transition that reads
    the state before it and yields the state after it; handlers called out of
    sequence give back the state unchanged. The class in module Lab holds the
    same fields and is proved to follow these functions. */
module Experiment {
  import opened Wrappers
  import opened Measurement

  /** Which of the two result charts is shown. */
  datatype GraphView = Crosshairs | Curve

  /** One recorded reading: reflector position (mm), displacement d (mm) and
      tilt angle theta (mrad). */
  datatype Reading = Reading(position: int, d: real, theta: real)

  /** Every field of the component that a handler changes. */
  datatype State = State(
    step: int,
    workpiece: string,
    lightOn: bool,
    viewing: bool,
    currentReading: int,
    readings: seq<Reading>,
    deviation: string,
    reflectorPosition: int,
    showGraph: bool,
    crosshairDeviation: real,
    graphView: GraphView)

  /** What a press of Record did with the typed value. */
  datatype Submission =
    | Ignored              // nothing typed, or not at step 5
    | Rejected(expected: real)  // the value shown back to the user
    | Recorded(reading: Reading)

  /** The user's and the timer's actions, one per handler. */
  datatype Event =
    | SelectPressed(kind: string)
    | TimerElapsed
    | LightPressed
    | CloseViewPressed
    | DeviationTyped(text: string)
    | RecordPressed(parsed: Option<real>)
    | MovePressed
    | ResetPressed
    | ViewGraphPressed
    | GraphViewPressed(view: GraphView)

  /** The state at mount, and after reset. */
  function Initial(): State
  {
    State(0, "", false, false, 0, [], "", 0, false, 0.0, Crosshairs)
  }

  /** The reading the experiment records at index i on a given workpiece. */
  function ExpectedReading(workpiece: string, i: int): Reading
  {
    var d := ExpectedDisplacement(workpiece, i);
    Reading(ReflectorStep * i, d, Theta(d))
  }

  // ---------------------------------------------------------------------
  // Handlers

  /** handleWorkpieceSelect: acts only at step 0. */
  function SelectWorkpiece(s: State, kind: string): State
  {
    if s.step == 0 then s.(workpiece := kind, step := 1) else s
  }

  /** The callback of the two-second timer set by handleWorkpieceSelect: it
      moves to step 3 whatever the step is then. */
  function AutoAdvance(s: State): State
  {
    s.(step := 3)
  }

  /** handleLightOffAfterReading. */
  function LightOffAfterReading(s: State): State
  {
    if s.step == 6 && s.lightOn then
      s.(lightOn := false, step := if s.currentReading >= ReadingCount then 9 else 8)
    else s
  }

  /** toggleLight: switching on at step 3 shows the eyepiece with the
      displacement of the current reading; at step 6 it switches off. */
  function ToggleLight(s: State): State
  {
    if s.step == 3 && !s.lightOn then
      s.(lightOn := true, viewing := true,
         crosshairDeviation := ExpectedDisplacement(s.workpiece, s.currentReading),
         step := 5)
    else if s.lightOn && s.step == 6 then LightOffAfterReading(s)
    else s
  }

  /** handleCloseView. */
  function CloseView(s: State): State
  {
    s.(viewing := false)
  }

  /** The input's change handler: the typed text is kept as it is. */
  function EditDeviation(s: State, text: string): State
  {
    s.(deviation := text)
  }

  /** How handleDeviationSubmit judges a press of Record; `parsed` is
      parseFloat of the typed text. Only a value exactly equal to the shown
      displacement is accepted. */
  function Classify(s: State, parsed: Option<real>): Submission
  {
    if s.deviation != "" && s.step == 5 then
      if parsed != Some(s.crosshairDeviation) then Rejected(s.crosshairDeviation)
      else Recorded(Reading(s.reflectorPosition, parsed.value, Theta(parsed.value)))
    else Ignored
  }

  /** handleDeviationSubmit. */
  function SubmitDeviation(s: State, parsed: Option<real>): State
  {
    match Classify(s, parsed)
    case Recorded(r) =>
      s.(readings := s.readings + [r], deviation := "", viewing := false, step := 6,
         currentReading := s.currentReading + 1,
         showGraph := if s.currentReading + 1 >= ReadingCount then true else s.showGraph)
    case _ => s
  }

  /** moveReflector. */
  function MoveReflector(s: State): State
  {
    if s.step == 8 && s.currentReading < ReadingCount then
      s.(reflectorPosition := s.reflectorPosition + ReflectorStep, step := 3)
    else s
  }

  /** reset. */
  function Reset(s: State): State
  {
    Initial()
  }

  /** The View Graph button's handler. */
  function ViewGraph(s: State): State
  {
    s.(step := 9)
  }

  /** The Crosshairs and Curve buttons of the graph panel. */
  function SetGraphView(s: State, v: GraphView): State
  {
    s.(graphView := v)
  }

  /** One event. */
  function Apply(s: State, e: Event): State
  {
    match e
    case SelectPressed(kind) => SelectWorkpiece(s, kind)
    case TimerElapsed => AutoAdvance(s)
    case LightPressed => ToggleLight(s)
    case CloseViewPressed => CloseView(s)
    case DeviationTyped(text) => EditDeviation(s, text)
    case RecordPressed(parsed) => SubmitDeviation(s, parsed)
    case MovePressed => MoveReflector(s)
    case ResetPressed => Reset(s)
    case ViewGraphPressed => ViewGraph(s)
    case GraphViewPressed(v) => SetGraphView(s, v)
  }

  /** A sequence of events, in order. */
  function Run(s: State, es: seq<Event>): State
    decreases |es|
  {
    if es == [] then s else Run(Apply(s, es[0]), es[1..])
  }

  /** The timer is set only when a workpiece is chosen, and nothing else is
      enabled at step 1, so it fires while the step is still 1. */
  predicate TimerOnTime(s: State, e: Event)
  {
    e.TimerElapsed? ==> s.step == 1
  }

  predicate WellTimed(s: State, es: seq<Event>)
    decreases |es|
  {
    es == [] || (TimerOnTime(s, es[0]) && WellTimed(Apply(s, es[0]), es[1..]))
  }

  // ---------------------------------------------------------------------
  // The invariant

  /** The steps the machine ever takes. */
  predicate IsStep(step: int)
  {
    step == 0 || step == 1 || step == 3 || step == 5 || step == 6 || step == 8 || step == 9
  }

  /** What holds in every state the experiment reaches. */
  predicate Inv(s: State)
  {
    IsStep(s.step)
    && 0 <= s.currentReading <= ReadingCount
    && |s.readings| == s.currentReading
    && (s.showGraph <==> s.currentReading == ReadingCount)
    && (forall i :: 0 <= i < |s.readings| ==> s.readings[i] == ExpectedReading(s.workpiece, i))
    && (s.step <= 1 ==> s.currentReading == 0 && s.reflectorPosition == 0 && !s.lightOn)
    && (s.step == 3 || s.step == 5 ==>
          s.reflectorPosition == ReflectorStep * s.currentReading && s.currentReading < ReadingCount)
    && (s.step == 3 ==> !s.lightOn)
    && (s.step == 5 ==> s.lightOn && s.crosshairDeviation == ExpectedDisplacement(s.workpiece, s.currentReading))
    && (s.step == 6 ==>
          s.lightOn && 1 <= s.currentReading && s.reflectorPosition == ReflectorStep * (s.currentReading - 1))
    && (s.step == 8 ==>
          !s.lightOn && 1 <= s.currentReading < ReadingCount
          && s.reflectorPosition == ReflectorStep * (s.currentReading - 1))
  }

  lemma InitialInv()
    ensures Inv(Initial())
    ensures Initial().readings == [] && Initial().step == 0
  {
  }

  /** Every handler keeps the invariant, the timer provided it fires at step 1. */
  lemma ApplyPreservesInv(s: State, e: Event)
    requires Inv(s) && TimerOnTime(s, e)
    ensures Inv(Apply(s, e))
  {
  }

  /** The invariant holds after any well-timed run. */
  lemma {:induction false} RunPreservesInv(s: State, es: seq<Event>)
    requires Inv(s) && WellTimed(s, es)
    ensures Inv(Run(s, es))
    decreases |es|
  {
    if es != [] {
      ApplyPreservesInv(s, es[0]);
      RunPreservesInv(Apply(s, es[0]), es[1..]);
    }
  }

  /** Every state that a well-timed run from mount reaches is one of the
      seven steps, holds as many readings as it has counted (at most five),
      shows the graph exactly when all five are in, and has reading i taken
      at position 50 i with the table's displacement and its tilt angle. */
  lemma ReachableFromMount(es: seq<Event>)
    requires WellTimed(Initial(), es)
    ensures var s := Run(Initial(), es);
      IsStep(s.step)
      && |s.readings| == s.currentReading <= ReadingCount
      && (s.showGraph <==> s.currentReading == ReadingCount)
      && (forall i :: 0 <= i < |s.readings| ==>
            s.readings[i].position == ReflectorStep * i
            && s.readings[i].d == Table(s.workpiece)[i]
            && s.readings[i].theta == Theta(s.readings[i].d))
      && (s.step == 3 || s.step == 5 ==> s.reflectorPosition == ReflectorStep * s.currentReading)
  {
    InitialInv();
    RunPreservesInv(Initial(), es);
  }

  // ---------------------------------------------------------------------
  // What each handler does

  /** Selecting a workpiece acts only at step 0, and then only sets the
      workpiece and the step. */
  lemma SelectWorkpieceActsOnlyAtStart(s: State, kind: string)
    ensures var t := SelectWorkpiece(s, kind);
      (s.step == 0 ==>
         (t.workpiece == kind && t.step == 1 && t == s.(workpiece := t.workpiece, step := t.step)))
      && (s.step != 0 ==> t == s)
  {
  }

  /** Switching on at step 3 shows the eyepiece with the table entry of the
      current reading (or the first entry past the table) and moves to step 5;
      nothing else changes. */
  lemma LightOnShowsCurrentDisplacement(s: State)
    requires s.step == 3 && !s.lightOn
    ensures var t := ToggleLight(s);
      t.lightOn && t.viewing && t.step == 5
      && t.crosshairDeviation
           == (if 0 <= s.currentReading < ReadingCount then Table(s.workpiece)[s.currentReading]
               else Table(s.workpiece)[0])
      && t == s.(lightOn := true, viewing := true, step := 5,
                 crosshairDeviation := t.crosshairDeviation)
  {
  }

  /** Switching off at step 6 goes to step 9 once five readings are in and to
      step 8 before; the light button does nothing in any other state. */
  lemma LightOffAfterReadingChoosesNextStep(s: State)
    ensures s.step == 6 && s.lightOn ==>
      ToggleLight(s) == s.(lightOn := false, step := if s.currentReading >= ReadingCount then 9 else 8)
    ensures !(s.step == 3 && !s.lightOn) && !(s.step == 6 && s.lightOn) ==> ToggleLight(s) == s
  {
  }

  /** After the fifth reading the next light-off goes straight to step 9. */
  lemma FifthLightOffSkipsMove(s: State)
    requires Inv(s) && s.step == 6 && s.currentReading == ReadingCount
    ensures ToggleLight(s).step == 9 && !ToggleLight(s).lightOn
  {
  }

  /** Record is judged only when something is typed at step 5, and is
      accepted exactly when the parsed value equals the shown displacement. */
  lemma ClassifyCases(s: State, parsed: Option<real>)
    ensures Classify(s, parsed).Ignored? <==> s.deviation == "" || s.step != 5
    ensures Classify(s, parsed).Recorded? <==>
      s.deviation != "" && s.step == 5 && parsed == Some(s.crosshairDeviation)
    ensures Classify(s, parsed).Rejected? ==> Classify(s, parsed).expected == s.crosshairDeviation
  {
  }

  /** A value that does not parse, a wrong value, an empty input or a press
      outside step 5 leaves the whole state unchanged. */
  lemma UnacceptedSubmissionChangesNothing(s: State, parsed: Option<real>)
    requires s.deviation == "" || s.step != 5 || parsed == None || parsed.value != s.crosshairDeviation
    ensures SubmitDeviation(s, parsed) == s
  {
  }

  /** An accepted value appends exactly one reading, taken at the reflector's
      position with its tilt angle, keeps the earlier ones, clears the input,
      closes the eyepiece, counts the reading and moves to step 6; the graph
      becomes available when the count reaches five. */
  lemma AcceptedSubmissionRecordsReading(s: State, d: real)
    requires s.deviation != "" && s.step == 5 && d == s.crosshairDeviation
    ensures var t := SubmitDeviation(s, Some(d));
      |t.readings| == |s.readings| + 1
      && t.readings[..|s.readings|] == s.readings
      && t.readings[|s.readings|] == Reading(s.reflectorPosition, d, Theta(d))
      && t.deviation == "" && !t.viewing && t.step == 6
      && t.currentReading == s.currentReading + 1
      && (t.showGraph <==> s.showGraph || s.currentReading + 1 >= ReadingCount)
      && t == s.(readings := t.readings, deviation := "", viewing := false, step := 6,
                 currentReading := t.currentReading, showGraph := t.showGraph)
  {
  }

  /** Moving the reflector acts only at step 8 with fewer than five readings:
      50 mm further and back to step 3. */
  lemma MoveReflectorActsOnlyAtStepEight(s: State)
    ensures var t := MoveReflector(s);
      (s.step == 8 && s.currentReading < ReadingCount ==>
         t == s.(reflectorPosition := s.reflectorPosition + 50, step := 3))
      && (!(s.step == 8 && s.currentReading < ReadingCount) ==> t == s)
  {
  }

  /** Reset restores every field to its value at mount, from any state. */
  lemma ResetRestoresMount(s: State)
    ensures var t := Reset(s);
      t.step == 0 && t.workpiece == "" && !t.lightOn && !t.viewing
      && t.currentReading == 0 && t.readings == [] && t.deviation == ""
      && t.reflectorPosition == 0 && !t.showGraph && t.crosshairDeviation == 0.0
      && t.graphView == Crosshairs
  {
  }

  /** The edges of the protocol: 0 to 1 to 3 to 5 to 6, then 8 and back to 3
      for the next reading, or 9 after the last. */
  predicate ProtocolMove(a: int, b: int)
  {
    (a == 0 && b == 1) || (a == 1 && b == 3) || (a == 3 && b == 5) || (a == 5 && b == 6)
    || (a == 6 && (b == 8 || b == 9)) || (a == 8 && b == 3)
  }

  /** Apart from reset and View Graph, every change of step is one protocol
      edge; the step goes back only from 8 to 3, when the reflector moves. */
  lemma StepFollowsProtocol(s: State, e: Event)
    requires Inv(s) && TimerOnTime(s, e) && !e.ResetPressed? && !e.ViewGraphPressed?
    ensures Apply(s, e).step != s.step ==> ProtocolMove(s.step, Apply(s, e).step)
    ensures Apply(s, e).step < s.step ==> e.MovePressed? && s.step == 8 && Apply(s, e).step == 3
  {
  }

  /** Recorded readings are never altered: apart from reset, an event keeps
      every earlier reading and appends at most one. */
  lemma ReadingsOnlyGrow(s: State, e: Event)
    requires !e.ResetPressed?
    ensures var t := Apply(s, e);
      |s.readings| <= |t.readings| <= |s.readings| + 1
      && t.readings[..|s.readings|] == s.readings
      && (|t.readings| > |s.readings| ==> e.RecordPressed? && s.step == 5)
  {
  }

  /** The workpiece changes only by a selection at step 0 or by reset. */
  lemma WorkpieceFixedAfterSelection(s: State, e: Event)
    requires Apply(s, e).workpiece != s.workpiece
    ensures (e.SelectPressed? && s.step == 0) || e.ResetPressed?
  {
  }

  /** The displacement column of the readings table. */
  function Displacements(rs: seq<Reading>): seq<real>
  {
    seq(|rs|, i requires 0 <= i < |rs| => rs[i].d)
  }

  /** The position column of the readings table. */
  function Positions(rs: seq<Reading>): seq<int>
  {
    seq(|rs|, i requires 0 <= i < |rs| => rs[i].position)
  }

  /** A completed experiment shows the graph, its displacements are the table
      of its workpiece in order, and its positions are 0, 50, ..., 200 mm. */
  lemma CompletedRunMatchesTable(s: State)
    requires Inv(s) && s.currentReading == ReadingCount
    ensures s.showGraph
    ensures Displacements(s.readings) == Table(s.workpiece)
    ensures Positions(s.readings) == [0, 50, 100, 150, 200]
  {
  }

  /** The first flat reading: select, wait, light on, type, record. */
  lemma FirstFlatReading()
    ensures var s := Run(Initial(), [SelectPressed("flat"), TimerElapsed, LightPressed,
                                     DeviationTyped("0.002"), RecordPressed(Some(0.002))]);
      s.step == 6 && s.readings == [Reading(0, 0.002, 1.0 / 150.0)]
  {
  }

  /** A wrong value is refused with the expected value, and nothing is recorded. */
  lemma WrongFlatValueRejected()
    ensures var s := Run(Initial(), [SelectPressed("flat"), TimerElapsed, LightPressed,
                                     DeviationTyped("0.003")]);
      Classify(s, Some(0.003)) == Rejected(0.002)
      && SubmitDeviation(s, Some(0.003)) == s && s.readings == [] && s.step == 5
  {
  }
}
