/** The autocollimator lab component: its state fields and its handlers, each
    updating the fields in place as the component's setters do. Every method
    is proved to take the fields exactly where the matching transition of
    module Experiment takes them, and to keep the experiment's invariant. */
module Lab {
  import opened Wrappers
  import opened Measurement
  import opened Experiment

  class AutocollimatorLab {
    var step: int
    var workpiece: string
    var lightOn: bool
    var viewing: bool
    var currentReading: int
    var readings: seq<Reading>
    var deviation: string
    var reflectorPosition: int
    var showGraph: bool
    var crosshairDeviation: real
    var graphView: GraphView

    /** The fields as one value. */
    function Snapshot(): State
      reads this
    {
      State(step, workpiece, lightOn, viewing, currentReading, readings, deviation,
            reflectorPosition, showGraph, crosshairDeviation, graphView)
    }

    ghost predicate Valid()
      reads this
    {
      Inv(Snapshot())
    }

    /** The component at mount: every field at its initial value. */
    constructor ()
      ensures Snapshot() == Initial() && Valid()
    {
      step := 0;
      workpiece := "";
      lightOn := false;
      viewing := false;
      currentReading := 0;
      readings := [];
      deviation := "";
      reflectorPosition := 0;
      showGraph := false;
      crosshairDeviation := 0.0;
      graphView := Crosshairs;
    }

    method HandleWorkpieceSelect(kind: string)
      requires Valid()
      modifies this
      ensures Snapshot() == SelectWorkpiece(old(Snapshot()), kind) && Valid()
    {
      if step == 0 {
        workpiece := kind;
        step := 1;
      }
    }

    /** The timer callback scheduled by HandleWorkpieceSelect. It sets step 3
        unconditionally; the invariant survives when it fires at step 1. */
    method AutoAdvanceFired()
      requires Valid()
      modifies this
      ensures Snapshot() == AutoAdvance(old(Snapshot()))
      ensures old(step) == 1 ==> Valid()
    {
      step := 3;
    }

    method ToggleLight()
      requires Valid()
      modifies this
      ensures Snapshot() == Experiment.ToggleLight(old(Snapshot())) && Valid()
    {
      if step == 3 && !lightOn {
        lightOn := true;
        viewing := true;
        var displacement := 0.0;
        if workpiece == "tapered" {
          displacement := LookupOr(TaperedReadings, currentReading, 0.005);
        } else {
          displacement := LookupOr(FlatReadings, currentReading, 0.002);
        }
        crosshairDeviation := displacement;
        step := 5;
      } else if lightOn && step == 6 {
        HandleLightOffAfterReading();
      }
    }

    method HandleLightOffAfterReading()
      requires Valid()
      modifies this
      ensures Snapshot() == LightOffAfterReading(old(Snapshot())) && Valid()
    {
      if step == 6 && lightOn {
        lightOn := false;
        if currentReading >= ReadingCount {
          step := 9;
        } else {
          step := 8;
        }
      }
    }

    method HandleCloseView()
      requires Valid()
      modifies this
      ensures Snapshot() == CloseView(old(Snapshot())) && Valid()
    {
      viewing := false;
    }

    /** The displacement input's change handler. */
    method HandleDeviationChange(text: string)
      requires Valid()
      modifies this
      ensures Snapshot() == EditDeviation(old(Snapshot()), text) && Valid()
    {
      deviation := text;
    }

    /** Record: `parsed` is parseFloat of the typed text, None for NaN. The
        outcome is what the user is told: nothing, the value expected, or the
        reading that was recorded. */
    method HandleDeviationSubmit(parsed: Option<real>) returns (outcome: Submission)
      requires Valid()
      modifies this
      ensures outcome == Classify(old(Snapshot()), parsed)
      ensures Snapshot() == SubmitDeviation(old(Snapshot()), parsed) && Valid()
    {
      outcome := Ignored;
      if deviation != "" && step == 5 {
        if parsed.None? || parsed.value != crosshairDeviation {
          outcome := Rejected(crosshairDeviation);
          return;
        }
        var d := parsed.value;
        var theta := Theta(d);
        var newReading := Reading(reflectorPosition, d, theta);
        readings := readings + [newReading];
        deviation := "";
        viewing := false;
        step := 6;
        currentReading := currentReading + 1;
        if currentReading >= ReadingCount {
          showGraph := true;
        }
        outcome := Recorded(newReading);
      }
    }

    method MoveReflector()
      requires Valid()
      modifies this
      ensures Snapshot() == Experiment.MoveReflector(old(Snapshot())) && Valid()
    {
      if step == 8 && currentReading < ReadingCount {
        reflectorPosition := reflectorPosition + ReflectorStep;
        step := 3;
      }
    }

    method Reset()
      modifies this
      ensures Snapshot() == Initial() && Valid()
    {
      step := 0;
      workpiece := "";
      lightOn := false;
      viewing := false;
      currentReading := 0;
      readings := [];
      deviation := "";
      reflectorPosition := 0;
      showGraph := false;
      crosshairDeviation := 0.0;
      graphView := Crosshairs;
    }

    /** The View Graph button's click handler. */
    method ViewGraph()
      requires Valid()
      modifies this
      ensures Snapshot() == Experiment.ViewGraph(old(Snapshot())) && Valid()
    {
      step := 9;
    }

    /** The Crosshairs and Curve buttons. */
    method SetGraphView(v: GraphView)
      requires Valid()
      modifies this
      ensures Snapshot() == Experiment.SetGraphView(old(Snapshot()), v) && Valid()
    {
      graphView := v;
    }
  }

  /** A whole flat experiment driven through the component's handlers: five
      readings typed exactly as shown, the light switched off after each and
      the reflector moved between them. The recorded displacements are the
      flat table, taken 50 mm apart, and the experiment ends at step 9. */
  method FlatExperiment() returns (ds: seq<real>, positions: seq<int>, finalStep: int)
    ensures ds == FlatReadings
    ensures positions == [0, 50, 100, 150, 200]
    ensures finalStep == 9
  {
    var lab := new AutocollimatorLab();
    lab.HandleWorkpieceSelect("flat");
    lab.AutoAdvanceFired();
    var k := 0;
    while k < ReadingCount
      invariant 0 <= k <= ReadingCount
      invariant lab.Valid() && lab.workpiece == "flat" && lab.currentReading == k
      invariant k < ReadingCount ==> lab.step == 3
      invariant k == ReadingCount ==> lab.step == 9
    {
      lab.ToggleLight();
      lab.HandleDeviationChange("d");
      var outcome := lab.HandleDeviationSubmit(Some(lab.crosshairDeviation));
      lab.ToggleLight();
      if k + 1 < ReadingCount {
        lab.MoveReflector();
      }
      k := k + 1;
    }
    CompletedRunMatchesTable(lab.Snapshot());
    ds := Displacements(lab.readings);
    positions := Positions(lab.readings);
    finalStep := lab.step;
  }
}
