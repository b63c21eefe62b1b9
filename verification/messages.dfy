/** The instruction shown for each step (getStepMessage), with the reading
    count written out in decimal as a JavaScript template literal does. */
module Messages {
  import opened Experiment

  function DigitChar(d: nat): (c: char)
    requires d < 10
    ensures '0' <= c <= '9' && c as int - '0' as int == d
  {
    ('0' as int + d) as char
  }

  predicate IsDigits(r: string)
  {
    forall i :: 0 <= i < |r| ==> '0' <= r[i] <= '9'
  }

  /** The number a string of decimal digits denotes. */
  function DigitsValue(r: string): nat
    requires IsDigits(r)
    decreases |r|
  {
    if r == [] then 0 else DigitsValue(r[..|r| - 1]) * 10 + (r[|r| - 1] as int - '0' as int)
  }

  /** Decimal notation of a natural number, without leading zeros. */
  function NatToString(n: nat): (r: string)
    ensures 1 <= |r| && IsDigits(r)
    ensures DigitsValue(r) == n
    ensures r[0] == '0' ==> n == 0
    decreases n
  {
    if n < 10 then [DigitChar(n)]
    else
      var prefix := NatToString(n / 10);
      var r := prefix + [DigitChar(n % 10)];
      assert r[..|r| - 1] == prefix;
      r
  }

  /** How a template literal writes an integer. */
  function IntToString(n: int): (r: string)
    ensures n >= 0 ==> 1 <= |r| && IsDigits(r) && DigitsValue(r) == n && (r[0] == '0' ==> n == 0)
    ensures n < 0 ==> 2 <= |r| && r[0] == '-' && IsDigits(r[1..]) && DigitsValue(r[1..]) == -n && r[1] != '0'
  {
    if n < 0 then "-" + NatToString(-n) else NatToString(n)
  }

  const SelectMessage := "Please select a workpiece type (Flat or Tapered) to begin"
  const SelectedMessage := "Workpiece selected! Please switch on the light source using the button"
  const FocalLengthMessage := "Focal length is set to 150 mm"
  const LightOnMessage := "Please switch on the light source using the button"
  const CrosshairsMessage := "Crosshairs are now visible in the eyepiece view"
  const EnterMessage := "Please enter the linear displacement (d) value and click Record"
  const CompleteMessage := "All readings complete! Please click 'View Graph' to see results"

  /** getStepMessage. Steps 2 and 4 have text the machine never shows (it
      never stops there); step 7 and any step outside 0 to 9 have none. */
  function StepMessage(step: int, currentReading: int): (m: string)
    ensures |m| == 0 <==> !(0 <= step <= 9 && step != 7)
  {
    match step
    case 0 => SelectMessage
    case 1 => SelectedMessage
    case 2 => FocalLengthMessage
    case 3 => LightOnMessage
    case 4 => CrosshairsMessage
    case 5 => EnterMessage
    case 6 => "Reading " + IntToString(currentReading) + " of 5 recorded! Now switch off the light using the button"
    case 8 => "Light switched off! Click 'Move Reflector 5cm' for reading " + IntToString(currentReading + 1) + " of 5"
    case 9 => CompleteMessage
    case _ => ""
  }

  /** Every step the experiment reaches has an instruction. */
  lemma ReachableStepsHaveMessage(s: State)
    requires Inv(s)
    ensures |StepMessage(s.step, s.currentReading)| > 0
  {
  }

  /** After a reading the message counts it, and at step 8 it announces the
      next one, both in decimal. */
  lemma ReadingMessagesCount(s: State)
    requires Inv(s) && (s.step == 6 || s.step == 8)
    ensures var m := StepMessage(s.step, s.currentReading);
      var n := NatToString(if s.step == 6 then s.currentReading else s.currentReading + 1);
      (s.step == 6 ==> m[..8] == "Reading " && m[8..8 + |n|] == n)
      && (s.step == 8 ==> m[|m| - |n| - 5..|m| - 5] == n)
  {
  }
}
