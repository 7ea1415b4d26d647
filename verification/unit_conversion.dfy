/** Conversion of the operator's physical units into motor steps: bend angles
    in degrees through a 19-point table, feed lengths in millimetres through
    one linear `map()`. Angles and lengths arrive as floats; they are `real`
    here, and every place where the firmware turns them into integers goes
    through `Trunc`. */
module UnitConversion {
  import opened Arduino

  /** The bend angles of the calibration table, 0 to 90 degrees in 5-degree steps. */
  const AngleTable: seq<int> := [0, 5, 10, 15, 20, 25, 30, 35, 40, 45, 50, 55, 60, 65, 70, 75, 80, 85, 90]

  /** The bender step counts that belong to the entries of `AngleTable`. */
  const StepTable: seq<int> := [0, 10, 20, 30, 40, 50, 60, 70, 80, 90, 100, 110, 120, 130, 140, 150, 160, 170, 180]

  /** The bound of the firmware's search loop over the two tables. */
  const LoopBound := 20

  /** Both tables are linear: entry `i` is `5 * i` degrees and `10 * i` steps,
      so every step count is twice its angle. */
  lemma TablesAreLinear()
    ensures |AngleTable| == |StepTable| == 19
    ensures forall i :: 0 <= i < |AngleTable| ==> AngleTable[i] == 5 * i && StepTable[i] == 2 * AngleTable[i]
  {
  }

  // ---------------------------------------------------------------------
  // angleToSteps as the firmware writes it
  // ---------------------------------------------------------------------

  /** What the table lookup produces: a step count, or the index of the
      table entry it would read although that entry lies outside the arrays. */
  datatype Conversion = Converted(steps: int) | OutOfBounds(index: int)

  /** The meaning of the firmware's lookup: inside the table it doubles the
      truncated angle; an angle at or below the first breakpoint makes it read
      entry -1, an angle above the last breakpoint makes it read entry 19. */
  function AngleStepsAsWritten(angle: real): (r: Conversion)
  {
    if angle <= 0.0 then OutOfBounds(-1)
    else if angle > AngleTable[|AngleTable| - 1] as real then OutOfBounds(|AngleTable|)
    else Converted(2 * Trunc(angle))
  }

  /** Inside segment `i` of the table, `map()` over that segment's two
      breakpoints doubles the truncated angle. */
  lemma {:induction false} SegmentDoubles(i: int, t: int)
    requires 1 <= i < |AngleTable|
    requires AngleTable[i - 1] <= t <= AngleTable[i]
    ensures Map(t, AngleTable[i - 1], AngleTable[i], StepTable[i - 1], StepTable[i]) == 2 * t
  {
    TablesAreLinear();
    assert AngleTable[i] - AngleTable[i - 1] == 5 && StepTable[i] - StepTable[i - 1] == 10;
    var d := t - AngleTable[i - 1];
    assert d * 10 == (2 * d) * 5;
    TruncDivExact(2 * d, 5);
    assert StepTable[i - 1] == 2 * AngleTable[i - 1];
  }

  /** A truncated angle that lies strictly above one breakpoint and at or
      below the next lies between them. */
  lemma TruncInSegment(i: int, angle: real)
    requires 1 <= i < |AngleTable|
    requires AngleTable[i - 1] as real < angle <= AngleTable[i] as real
    ensures AngleTable[i - 1] <= Trunc(angle) <= AngleTable[i]
  {
    TablesAreLinear();
  }

  /** `angleToSteps`: finds the first breakpoint at or above the angle and
      maps the angle linearly between that breakpoint and the one before it.
      The loop runs to 20 over 19-entry tables, and the first breakpoint
      (index 0) has no predecessor. */
  method AngleToSteps(angle: real) returns (r: Conversion)
    ensures r == AngleStepsAsWritten(angle)
  {
    TablesAreLinear();
    var i := 0;
    while i < LoopBound
      invariant 0 <= i <= |AngleTable|
      invariant forall j :: 0 <= j < i ==> AngleTable[j] as real < angle
    {
      if i >= |AngleTable| {
        // `angles[i]` with i == 19
        return OutOfBounds(i);
      }
      if angle <= AngleTable[i] as real {
        if i == 0 {
          // `angles[i - 1]` with i == 0
          return OutOfBounds(i - 1);
        }
        TruncInSegment(i, angle);
        SegmentDoubles(i, Trunc(angle));
        return Converted(Map(Trunc(angle), AngleTable[i - 1], AngleTable[i], StepTable[i - 1], StepTable[i]));
      }
      i := i + 1;
    }
    assert false;
  }

  /** At every breakpoint after the first the lookup returns that
      breakpoint's step count; at the first it reads before the table. */
  lemma AngleStepsAtBreakpoints(i: int)
    requires 0 <= i < |AngleTable|
    ensures AngleStepsAsWritten(AngleTable[i] as real)
            == if i == 0 then OutOfBounds(-1) else Converted(StepTable[i])
  {
    TablesAreLinear();
  }

  /** Strictly inside a segment the result lies between the step counts of
      the segment's two breakpoints. */
  lemma AngleStepsInterpolates(i: int, angle: real)
    requires 1 <= i < |AngleTable|
    requires AngleTable[i - 1] as real < angle <= AngleTable[i] as real
    ensures AngleStepsAsWritten(angle).Converted?
    ensures StepTable[i - 1] <= AngleStepsAsWritten(angle).steps <= StepTable[i]
  {
    TruncInSegment(i, angle);
    TablesAreLinear();
  }

  /** The lookup yields a step count exactly for angles in (0, 90]. */
  lemma AngleStepsDomain(angle: real)
    ensures AngleStepsAsWritten(angle).Converted? <==> 0.0 < angle <= 90.0
    ensures AngleStepsAsWritten(angle).Converted? ==> 0 <= AngleStepsAsWritten(angle).steps <= 180
  {
    TablesAreLinear();
  }

  /** Where it yields step counts, the lookup is non-decreasing in the angle. */
  lemma {:induction false} AngleStepsMonotone(a: real, b: real)
    requires 0.0 < a <= b <= 90.0
    ensures AngleStepsAsWritten(a).Converted? && AngleStepsAsWritten(b).Converted?
    ensures AngleStepsAsWritten(a).steps <= AngleStepsAsWritten(b).steps
  {
    TablesAreLinear();
    TruncMonotone(a, b);
  }

  // ---------------------------------------------------------------------
  // angleValid and the zero angle
  // ---------------------------------------------------------------------

  /** `angleValid`: the angle lies between 0 and 90 degrees, both included,
      which is exactly the span of the angle table. */
  predicate AngleValid(angle: real): (ok: bool)
    ensures ok <==> AngleTable[0] as real <= angle <= AngleTable[|AngleTable| - 1] as real
  {
    angle >= 0.0 && angle <= 90.0
  }

  /** Although the validation admits exactly the span of the angle table,
      the as-written lookup yields a step count for a validated angle unless
      that angle is 0, and for no angle that fails validation. */
  lemma ValidAnglesConvertExceptZero(angle: real)
    ensures AngleStepsAsWritten(angle).Converted? <==> AngleValid(angle) && angle != 0.0
  {
    TablesAreLinear();
  }

  /** A concrete input: 0 degrees passes `angleValid` and makes the lookup
      read entry -1 of both tables. */
  lemma ZeroAngleReadsBeforeTable()
    ensures AngleValid(0.0) && AngleStepsAsWritten(0.0) == OutOfBounds(-1)
  {
  }

  /** A concrete input: 91 degrees makes the lookup read entry 19 of both
      19-entry tables. */
  lemma AngleAboveTableReadsPastIt()
    ensures !AngleValid(91.0) && AngleStepsAsWritten(91.0) == OutOfBounds(19)
  {
    TablesAreLinear();
  }

  // ---------------------------------------------------------------------
  // angleToSteps with the two index errors removed
  // ---------------------------------------------------------------------

  /** The lookup as evidently intended: an angle at or below the first
      breakpoint gets the first step count, the search stays inside the
      table, and an angle beyond it falls through to the final `return 0`. */
  function AngleSteps(angle: real): (steps: int)
  {
    if angle <= 0.0 then StepTable[0]
    else if angle > AngleTable[|AngleTable| - 1] as real then 0
    else 2 * Trunc(angle)
  }

  /** `angleToSteps` with the loop bounded by the table size and the first
      breakpoint answered from the table itself. */
  method AngleToStepsCorrected(angle: real) returns (steps: int)
    ensures steps == AngleSteps(angle)
  {
    TablesAreLinear();
    for i := 0 to |AngleTable|
      invariant forall j :: 0 <= j < i ==> AngleTable[j] as real < angle
    {
      if angle <= AngleTable[i] as real {
        if i == 0 {
          return StepTable[0];
        }
        TruncInSegment(i, angle);
        SegmentDoubles(i, Trunc(angle));
        return Map(Trunc(angle), AngleTable[i - 1], AngleTable[i], StepTable[i - 1], StepTable[i]);
      }
    }
    return 0;
  }

  /** The corrected lookup returns the table's own step count at every
      breakpoint, the first one included. */
  lemma AngleStepsCorrectedAtBreakpoints(i: int)
    requires 0 <= i < |AngleTable|
    ensures AngleSteps(AngleTable[i] as real) == StepTable[i]
  {
    TablesAreLinear();
  }

  /** Over every angle `angleValid` admits, the corrected lookup is
      non-decreasing and stays within the step table's range. */
  lemma {:induction false} AngleStepsCorrectedMonotone(a: real, b: real)
    requires AngleValid(a) && AngleValid(b) && a <= b
    ensures StepTable[0] <= AngleSteps(a) <= AngleSteps(b) <= StepTable[|StepTable| - 1]
  {
    TablesAreLinear();
    TruncMonotone(a, b);
    TruncMonotone(b, 90.0);
  }

  /** Wherever the firmware's lookup yields a step count, the corrected one
      yields the same count. */
  lemma AngleStepsCorrectedAgrees(angle: real)
    ensures AngleStepsAsWritten(angle).Converted? ==> AngleSteps(angle) == AngleStepsAsWritten(angle).steps
    ensures !AngleStepsAsWritten(angle).Converted? ==> AngleSteps(angle) == 0
  {
    TablesAreLinear();
  }

  // ---------------------------------------------------------------------
  // lengthToSteps
  // ---------------------------------------------------------------------

  /** `lengthToSteps`: 0 to 100 mm mapped linearly onto 0 to 180 feeder
      steps. That is 1.8 steps per whole millimetre, truncated toward zero:
      the fractional millimetre is dropped first, then the fractional step. */
  function LengthToSteps(length: real): (steps: int)
    ensures 0.0 <= length ==>
              0 <= steps &&
              100 * steps <= 180 * Trunc(length) < 100 * steps + 100
    ensures length < 0.0 ==>
              steps <= 0 &&
              100 * steps - 100 < 180 * Trunc(length) <= 100 * steps
  {
    Map(Trunc(length), 0, 100, 0, 180)
  }

  /** The ends of the length range map to the ends of the step range. */
  lemma LengthToStepsEndpoints()
    ensures LengthToSteps(0.0) == 0 && LengthToSteps(100.0) == 180
  {
  }

  /** `lengthToSteps` is non-decreasing over all lengths. */
  lemma {:induction false} LengthToStepsMonotone(a: real, b: real)
    requires a <= b
    ensures LengthToSteps(a) <= LengthToSteps(b)
  {
    TruncMonotone(a, b);
    TruncDivMonotone(Trunc(a) * 180, Trunc(b) * 180, 100);
  }

  /** Nothing rejects a negative length: it becomes a negative step count
      exactly when it is at least one whole millimetre below zero. */
  lemma {:induction false} LengthToStepsNegative(length: real)
    ensures LengthToSteps(length) < 0 <==> length <= -1.0
  {
    if length <= -1.0 {
      TruncMonotone(length, -1.0);
      TruncDivMonotone(Trunc(length) * 180, -180, 100);
    } else {
      assert 0 <= Trunc(length);
      TruncDivMonotone(0, Trunc(length) * 180, 100);
    }
  }

  /** A concrete input: 1 mm is 1.8 steps, which the firmware truncates to 1
      step rather than rounding to 2. */
  lemma LengthOneMillimetre()
    ensures LengthToSteps(1.0) == 1
  {
  }
}
