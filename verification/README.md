# Autocollimator lab: the guided experiment, modelled in Dafny

The autocollimator lab is a browser simulation of an optical metrology experiment. The user picks a workpiece (flat or tapered). A two-second timer then readies the bench. For each of five readings the user:

- switches on the light source;
- reads the crosshair displacement d in the eyepiece and types it in exactly;
- switches the light off;
- moves the reflector 50 mm along the workpiece, except after the fifth reading, when switching the light off ends the experiment.

There are four moves, so the readings are taken at 0, 50, 100, 150 and 200 mm. Each recorded reading stores the reflector position, d and the tilt angle θ = d / (2f) in milliradians, with f = 150 mm. Once all five readings are in, the graph can be viewed, and reset starts over.

This project models that state machine. It has six modules:

- `Measurement` (measurement.dfy): the two fixed displacement tables, the table lookup with its fallback, and the θ formula with its inverse d = 2fθ.
- `Experiment` (experiment.dfy): the component's state as one value `State`, with one transition function per handler and `Apply`/`Run` over sequences of events. It also holds the invariant `Inv` and the lemmas about single handlers and whole runs.
- `Lab` (lab.dfy): the component as a class. It has the same fields, and each handler is a method that updates them in place. Each method is proved to take the fields exactly where the matching `Experiment` function takes the state, and to keep `Inv` (the timer callback only when it fires at step 1; `Reset` establishes it from any state). `FlatExperiment` drives a whole flat experiment through the methods.
- `Messages` (messages.dfy): the instruction text for each step, with the reading count written in decimal.
- `Panel` (panel.dfy): which controls the page renders and enables in each state, including the finding below.
- `Wrappers` (wrappers.dfy): `Option`, the result of `parseFloat` (NaN is `None`).

Modelling choices:

- The timer callback is the explicit event `TimerElapsed`. It sets step 3 unconditionally, as the code does (line 43). `Experiment`'s invariants over runs assume that it fires at step 1 (`WellTimed`). `Panel` tracks whether the timer is pending and proves the assumption. A selection schedules the timer, and no enabled control leaves step 1 before it fires, so it fires at step 1: every run of enabled presses is `WellTimed` (`Panel.AvailableRunIsWellTimed`), so `Experiment.ReachableFromMount` applies to every run a user makes (`Panel.ReachablePagesKeepInv`).
- Displacements are exact `real`s. The exact-equality gate of the Record handler therefore keeps its meaning, without floating-point rounding.
- The typed text is kept as a string, because the handler tests it for emptiness. Its `parseFloat` value is a parameter.
- Every handler is one atomic transition that reads the state before the event.

Facts about the code that the model states as they are:

- Past the end of the table, the lookup falls back to the table's first entry, the literals 0.005 and 0.002 (lines 65 and 68).
- `reflectorPosition == 50 * currentReading` holds at steps 3 and 5. After a reading (steps 6 and 8) the position is `50 * (currentReading - 1)`, because the count has already been incremented (lines 113 and 134).
- Moving the reflector takes the step from 8 back to 3 (line 135). `StepFollowsProtocol` states which step changes occur.
- The timer callback has no guard of its own (line 43).
- The handler for workpiece selection accepts any string, the empty one included. The page passes only "flat" and "tapered" (lines 511 and 522). So "no workpiece exactly at step 0" holds of the pages a user reaches (`Panel.ReachablePagesKeepInv`), not of every sequence of handler calls.

## Model

| member | source | states |
|---|---|---|
| Measurement.Table | components/AutocollimatorLab.tsx:63-69 | "tapered" selects the tapered table and every other workpiece, the empty one included, selects the flat one; both have five positive entries |
| Measurement.ExpectedDisplacement | components/AutocollimatorLab.tsx:62-69 | the displacement for reading i is the table's entry i for 0 ≤ i < 5 and the table's first entry otherwise; it is always a positive table entry |
| Measurement.Theta | components/AutocollimatorLab.tsx:100-101 | θ in mrad satisfies 2·f·θ = 1000·d with f = 150 |
| Measurement.Displacement | components/AutocollimatorLab.tsx:597-599 | the principle panel's d = 2·f·θ, with θ in mrad |
| Measurement.ThetaRoundTrip | components/AutocollimatorLab.tsx:597-598 | converting d to θ and back gives d, and θ to d and back gives θ |
| Measurement.ThetaStrictlyMonotone | components/AutocollimatorLab.tsx:100-101 | a larger displacement gives a larger angle, and conversely |
| Measurement.TaperedDisplacementIncreases | components/AutocollimatorLab.tsx:64 | on the tapered workpiece each reading's displacement exceeds the previous one |
| Experiment.SelectWorkpiece | components/AutocollimatorLab.tsx:39-45 | the workpiece selection handler; its effect is stated by `SelectWorkpieceActsOnlyAtStart` |
| Experiment.AutoAdvance | components/AutocollimatorLab.tsx:43 | the timer callback: step 3, with no guard; it keeps the invariant when it fires at step 1 (`ApplyPreservesInv`) |
| Experiment.ToggleLight | components/AutocollimatorLab.tsx:56-76 | the light button's handler; its effect is stated by `LightOnShowsCurrentDisplacement` and `LightOffAfterReadingChoosesNextStep` |
| Experiment.LightOffAfterReading | components/AutocollimatorLab.tsx:121-130 | the light-off after a reading; its effect is stated by `LightOffAfterReadingChoosesNextStep` and `FifthLightOffSkipsMove` |
| Experiment.CloseView | components/AutocollimatorLab.tsx:85-87 | the Close View handler: the view closes and nothing else changes; `Panel.CloseViewStrandsReading` shows where that leaves step 5 |
| Experiment.EditDeviation | components/AutocollimatorLab.tsx:558 | the input's change handler: the typed text is stored and nothing else changes |
| Experiment.Classify | components/AutocollimatorLab.tsx:89-98 | what Record tells the user: ignored, rejected with the expected value, or the recorded reading; stated by `ClassifyCases` |
| Experiment.SubmitDeviation | components/AutocollimatorLab.tsx:89-119 | the Record handler; its effect is stated by `UnacceptedSubmissionChangesNothing` and `AcceptedSubmissionRecordsReading` |
| Experiment.MoveReflector | components/AutocollimatorLab.tsx:132-137 | the Move handler; its effect is stated by `MoveReflectorActsOnlyAtStepEight` |
| Experiment.Reset | components/AutocollimatorLab.tsx:139-151 | the reset handler; its effect is stated by `ResetRestoresMount` |
| Experiment.ViewGraph | components/AutocollimatorLab.tsx:627 | the View Graph handler: step 9 with no guard; the invariant is kept (`ApplyPreservesInv`) |
| Experiment.SetGraphView | components/AutocollimatorLab.tsx:640-659 | the chart buttons' handlers: the chart choice is set and nothing else changes |
| Experiment.InitialInv | components/AutocollimatorLab.tsx:6-18 | the state at mount has no readings, is at step 0 and satisfies the invariant |
| Experiment.ApplyPreservesInv | components/AutocollimatorLab.tsx:39-151 | every handler keeps the invariant; the timer callback does so when it fires at step 1 |
| Experiment.RunPreservesInv | components/AutocollimatorLab.tsx:39-151 | the invariant holds after any sequence of events in which the timer fires only at step 1 |
| Experiment.ReachableFromMount | components/AutocollimatorLab.tsx:109-136 | in every state reached from mount: the step is one of 0, 1, 3, 5, 6, 8, 9; there are as many readings as counted, at most five; the graph is shown exactly when five readings are in; reading i is at 50·i mm with the table's i-th displacement and its θ; at steps 3 and 5 the reflector is at 50·count |
| Experiment.SelectWorkpieceActsOnlyAtStart | components/AutocollimatorLab.tsx:39-45 | at step 0, selection sets the workpiece and step 1 and nothing else; at any other step it changes nothing |
| Experiment.LightOnShowsCurrentDisplacement | components/AutocollimatorLab.tsx:56-72 | switching on at step 3 with the light off sets light and view on, sets the shown displacement to the current reading's table entry (the first entry past the table) and step 5, and changes nothing else |
| Experiment.LightOffAfterReadingChoosesNextStep | components/AutocollimatorLab.tsx:73-75 | at step 6 with the light on, the light goes off and the step becomes 9 once five readings are in, else 8; in every other state except step 3 with the light off, the button changes nothing |
| Experiment.FifthLightOffSkipsMove | components/AutocollimatorLab.tsx:121-130 | after the fifth reading the light-off goes straight to step 9 |
| Experiment.ClassifyCases | components/AutocollimatorLab.tsx:89-98 | Record is ignored exactly when the input is empty or the step is not 5; it is accepted exactly when the parsed value equals the shown displacement; a rejection carries the shown displacement |
| Experiment.UnacceptedSubmissionChangesNothing | components/AutocollimatorLab.tsx:89-98 | an empty input, a press outside step 5, a value that does not parse, or a value other than the shown one leaves the whole state unchanged |
| Experiment.AcceptedSubmissionRecordsReading | components/AutocollimatorLab.tsx:100-117 | an accepted value appends exactly one reading (the reflector's position, d and θ) and keeps the earlier ones; it clears the input, closes the view, sets step 6, adds one to the count and shows the graph once the count reaches five; nothing else changes |
| Experiment.MoveReflectorActsOnlyAtStepEight | components/AutocollimatorLab.tsx:132-137 | at step 8 with fewer than five readings the reflector moves 50 mm and the step becomes 3, and nothing else changes; otherwise nothing changes |
| Experiment.ResetRestoresMount | components/AutocollimatorLab.tsx:139-151 | reset from any state gives step 0, no workpiece, light and view off, no readings, an empty input, position 0, no graph, displacement 0 and the crosshairs chart |
| Experiment.StepFollowsProtocol | components/AutocollimatorLab.tsx:39-137 | apart from reset and View Graph, every change of step is one of 0→1, 1→3, 3→5, 5→6, 6→8, 6→9, 8→3, and the step goes back only when the reflector moves |
| Experiment.ReadingsOnlyGrow | components/AutocollimatorLab.tsx:109 | apart from reset, an event keeps every recorded reading and appends at most one, and only a Record press at step 5 appends |
| Experiment.WorkpieceFixedAfterSelection | components/AutocollimatorLab.tsx:39-45 | the workpiece changes only by a selection at step 0 or by reset |
| Experiment.CompletedRunMatchesTable | components/AutocollimatorLab.tsx:62-117 | a completed experiment shows the graph; its displacements are its workpiece's table in order, and its positions are 0, 50, 100, 150 and 200 mm |
| Experiment.FirstFlatReading | components/AutocollimatorLab.tsx:39-117 | selecting flat, waiting, switching on and recording 0.002 gives step 6 and the single reading (0 mm, 0.002, 1/150 mrad) |
| Experiment.WrongFlatValueRejected | components/AutocollimatorLab.tsx:89-98 | recording 0.003 when 0.002 is shown is rejected with 0.002, at step 5 with no readings, and leaves the state unchanged |
| Lab.AutocollimatorLab.constructor | components/AutocollimatorLab.tsx:6-18 | every field starts at its initial value, and the invariant holds |
| Lab.AutocollimatorLab.HandleWorkpieceSelect | components/AutocollimatorLab.tsx:39-45 | the fields become `SelectWorkpiece` of the old fields, and the invariant is kept |
| Lab.AutocollimatorLab.AutoAdvanceFired | components/AutocollimatorLab.tsx:43 | the step becomes 3 and nothing else changes; the invariant is kept when the old step was 1 |
| Lab.AutocollimatorLab.ToggleLight | components/AutocollimatorLab.tsx:56-76 | the fields become `ToggleLight` of the old fields, and the invariant is kept |
| Lab.AutocollimatorLab.HandleLightOffAfterReading | components/AutocollimatorLab.tsx:121-130 | the fields become `LightOffAfterReading` of the old fields, and the invariant is kept |
| Lab.AutocollimatorLab.HandleCloseView | components/AutocollimatorLab.tsx:85-87 | the view closes and nothing else changes; the invariant is kept |
| Lab.AutocollimatorLab.HandleDeviationChange | components/AutocollimatorLab.tsx:558 | the input holds the typed text and nothing else changes; the invariant is kept |
| Lab.AutocollimatorLab.HandleDeviationSubmit | components/AutocollimatorLab.tsx:89-119 | the outcome is `Classify` of the old fields (ignored, rejected with the expected value, or the recorded reading); the fields become `SubmitDeviation` of the old fields, and the invariant is kept |
| Lab.AutocollimatorLab.MoveReflector | components/AutocollimatorLab.tsx:132-137 | the fields become `MoveReflector` of the old fields, and the invariant is kept |
| Lab.AutocollimatorLab.Reset | components/AutocollimatorLab.tsx:139-151 | every field is back at its initial value from any state, and the invariant holds |
| Lab.AutocollimatorLab.ViewGraph | components/AutocollimatorLab.tsx:627 | the step becomes 9 and nothing else changes; the invariant is kept |
| Lab.AutocollimatorLab.SetGraphView | components/AutocollimatorLab.tsx:640-659 | the chart choice is set and nothing else changes; the invariant is kept |
| Lab.FlatExperiment | components/AutocollimatorLab.tsx:39-137 | five flat readings driven through the handlers record exactly the flat table at 0, 50, 100, 150 and 200 mm and end at step 9 |
| Messages.NatToString | components/AutocollimatorLab.tsx:28-29 | the decimal text of a count is non-empty, all digits, has no leading zero and denotes the count |
| Messages.IntToString | components/AutocollimatorLab.tsx:28-29 | an integer in a template literal: digits denoting it, with a leading minus sign when it is negative |
| Messages.StepMessage | components/AutocollimatorLab.tsx:20-33 | the instruction is empty exactly for steps outside 0–9 and for step 7 |
| Messages.ReachableStepsHaveMessage | components/AutocollimatorLab.tsx:20-33 | every state that satisfies the invariant has a non-empty instruction |
| Messages.ReadingMessagesCount | components/AutocollimatorLab.tsx:28-29 | at step 6 the instruction names the number of readings taken; at step 8 it names the number of the next reading |
| Panel.AvailableAsWritten | components/AutocollimatorLab.tsx:506-659 | which controls the page enables, as rendered: the workpiece buttons at step 0 (512, 523), the light at steps 3 and 6 (535-538), the input and Record while the view is open from step 5 (550), Close View while viewing (178, 481-486), Move at step 8 with fewer than five readings (572), Reset from step 9 (581), View Graph when the graph is available (625), the chart buttons at step 9 with readings (635), and the timer while it is pending (43) |
| Panel.Available | components/AutocollimatorLab.tsx:550 | the corrected panel enables everything the rendered one does; the only addition is the input and Record at step 5 with the view closed |
| Panel.PageRunIsRun | components/AutocollimatorLab.tsx:39-151 | the page's state after a sequence of events is the experiment's run of the same events |
| Panel.AvailablePressKeepsPageInv | components/AutocollimatorLab.tsx:39-45 | an enabled control or the pending timer keeps the invariant; the timer is pending exactly at step 1; the workpiece is empty exactly at step 0 |
| Panel.AvailableRunKeepsPageInv | components/AutocollimatorLab.tsx:39-151 | the same holds after any sequence of enabled presses |
| Panel.AvailableRunIsWellTimed | components/AutocollimatorLab.tsx:39-45 | from a page that keeps the page invariant, every run of enabled presses fires the timer only at step 1 |
| Panel.AsWrittenRunIsAvailableRun | components/AutocollimatorLab.tsx:506-659 | every run of presses the rendered panel enables is one the corrected panel enables too |
| Panel.ReachablePagesKeepInv | components/AutocollimatorLab.tsx:6-151 | every run a user makes from mount (as rendered, or with the corrected panel) fires the timer only at step 1, and the state it reaches is the experiment's run of the presses and satisfies the invariant; the timer is pending exactly at step 1, so it fires at step 1; the workpiece is empty exactly at step 0 |
| Panel.DisabledControlsAreGuarded | components/AutocollimatorLab.tsx:510-579 | pressing a disabled or hidden workpiece, light or move control would change nothing, because its handler has its own guard |
| Panel.CloseViewStrandsReading | components/AutocollimatorLab.tsx:481-486 | as rendered, select flat, wait, light on, Close View is an allowed run; it ends at step 5 with the invariant intact and no readings, and nothing is available there, the timer included |
| Panel.NoDeadEnd | components/AutocollimatorLab.tsx:550-570 | with the input kept on screen through step 5, every reachable page before step 9 has available presses that make one protocol move |

## Findings

| source | as written | input that shows it | evidently intended | confidence | as-written member | corrected member |
|---|---|---|---|---|---|---|
| components/AutocollimatorLab.tsx:550 | the displacement input and Record button are rendered only while `viewing`; Close View (lines 481-486) clears `viewing` at step 5, and there the light button is disabled (line 538) and no other control applies | press Flat, wait for the timer, Switch ON Light, then Close View: the experiment sits at step 5 with no enabled control, and only leaving the page gets out | the reading can still be entered after the eyepiece close-up is dismissed, i.e. the input stays on screen for all of step 5 | medium, not executed | Panel.CloseViewStrandsReading | Panel.NoDeadEnd |

## Left out

- Rendering: the SVG bench and eyepiece drawings, beam, reflector and workpiece geometry (`getWorkpieceTopY`), the readings table and both charts. These are layout on floating-point coordinates, and the model keeps only which controls are enabled.
- `getReflectorTiltAngle` and the random tilt drawn with `Math.random()`: display only, and random.
- `toFixed(3)` and `toFixed(4)`: θ is kept as an exact real, not as the four-decimal string the component stores. A rejection is modelled as `Rejected(expected)`, not as the formatted modal text.
- The modal message state and the effects that copy `getStepMessage` into it. The message function itself is modelled.
- `setTimeout` scheduling: the two-second delay itself is not modelled. The timer is the `TimerElapsed` event, which can occur at any moment while it is pending.
- `parseFloat`: its result is a parameter of type `Option<real>`, and its relation to the typed text is not modelled. `FlatExperiment` and `Panel.NextPresses` type a placeholder text and pass the shown value as the parsed result.
- The focal length is the constant 150 rather than the parsed string state "150", which no handler changes.
- The Home button's navigation to `/`, React re-rendering and batching, and the static-export configuration and page wrappers (next.config.js, pages/_app.tsx, pages/_document.tsx).
