/** The measurement model of the autocollimator lab: the canned crosshair
    displacement shown for each reading and the tilt-angle formula
    theta = d / (2 f), in milliradians, with the focal length fixed at 150 mm. */
module Measurement {

  /** Focal length of the autocollimator objective, in mm. The component keeps
      it as the string "150" and parses it on every submission. */
  const FocalLength: real := 150.0

  /** Number of readings in one experiment. */
  const ReadingCount: nat := 5

  /** Reflector step between readings, in mm. */
  const ReflectorStep: int := 50

  /** Crosshair displacements (mm) for the tapered workpiece, by reading index. */
  const TaperedReadings: seq<real> := [0.005, 0.013, 0.022, 0.031, 0.040]

  /** Crosshair displacements (mm) for the flat workpiece, by reading index. */
  const FlatReadings: seq<real> := [0.002, 0.002, 0.003, 0.002, 0.003]

  /** The table used for a workpiece: anything other than "tapered",
      the empty string included, uses the flat table. */
  function Table(workpiece: string): (t: seq<real>)
    ensures |t| == ReadingCount
    ensures forall i :: 0 <= i < |t| ==> t[i] > 0.0
    ensures workpiece == "tapered" ==> t == TaperedReadings
    ensures workpiece != "tapered" ==> t == FlatReadings
  {
    if workpiece == "tapered" then TaperedReadings else FlatReadings
  }

  /** JavaScript's `table[index] || fallback` on an array of numbers: an index
      outside the array gives undefined and a zero entry is falsy, and both
      give way to the fallback. */
  function LookupOr(table: seq<real>, index: int, fallback: real): real
  {
    if 0 <= index < |table| && table[index] != 0.0 then table[index] else fallback
  }

  /** The crosshair displacement computed when the light is switched on for
      reading `index`; an index past the table falls back to the literal first
      entry of the table. */
  function ExpectedDisplacement(workpiece: string, index: int): (d: real)
    ensures 0 <= index < ReadingCount ==> d == Table(workpiece)[index]
    ensures !(0 <= index < ReadingCount) ==> d == Table(workpiece)[0]
    ensures d in Table(workpiece) && d > 0.0
  {
    if workpiece == "tapered" then LookupOr(TaperedReadings, index, 0.005)
    else LookupOr(FlatReadings, index, 0.002)
  }

  /** Tilt angle in milliradians for a displacement d in mm. */
  function Theta(d: real): (theta: real)
    ensures 2.0 * FocalLength * theta == 1000.0 * d
  {
    (d / (2.0 * FocalLength)) * 1000.0
  }

  /** The inverse relation shown on the principle panel: d = 2 f theta
      (theta converted back from milliradians). */
  function Displacement(theta: real): (d: real)
    ensures d * 1000.0 == 2.0 * FocalLength * theta
  {
    2.0 * FocalLength * theta / 1000.0
  }

  lemma ThetaRoundTrip(d: real, theta: real)
    ensures Displacement(Theta(d)) == d
    ensures Theta(Displacement(theta)) == theta
  {
  }

  /** A larger displacement always means a larger tilt. */
  lemma ThetaStrictlyMonotone(d1: real, d2: real)
    ensures d1 < d2 <==> Theta(d1) < Theta(d2)
  {
  }

  /** On the tapered workpiece the displacement grows with every reading,
      as the surface slope accumulates along the workpiece. */
  lemma TaperedDisplacementIncreases(i: int, j: int)
    requires 0 <= i < j < ReadingCount
    ensures ExpectedDisplacement("tapered", i) < ExpectedDisplacement("tapered", j)
  {
  }
}
