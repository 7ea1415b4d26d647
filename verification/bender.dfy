/** The bending machine: the firmware's global state (the selected mode, the
    last input line, the last confirmation and the two stepper axes), the
    homing run at start-up, the bend cycle, and the two input modes that
    decide whether a cycle runs. Serial I/O and the waits on it are not part
    of this model: each operation receives the line and the reply that the
    firmware would read. */
module Bender {
  import opened Arduino
  import opened UnitConversion
  import opened OperatorInput
  import opened Stepper

  /** The speed of every motion, in steps per second. */
  const BendSpeed := 1200

  /** How far the bender retracts from the limit switch to its working origin, in steps. */
  const RetractSteps := 1400

  /** The limit switch input is pulled up; `digitalRead` gives 0 while it is pressed. */
  const SwitchPressed := 0

  /** The motion whose loop never ends when a bend cycle does not complete. */
  datatype Phase = Feeding | Bending

  /** How a bend cycle ends: completed, or caught in a loop that never exits
      because its target lies behind the direction of motion. */
  datatype BendOutcome = Completed | Hangs(phase: Phase)

  /** What one input line led to: no motion, or a bend cycle with its outcome. */
  datatype CycleResult = NotBent | Bent(outcome: BendOutcome)

  /** No poll before the `k`-th reads pressed. */
  ghost predicate Released(readings: seq<int>, k: int)
    requires 0 <= k <= |readings|
  {
    forall j :: 0 <= j < k ==> readings[j] != SwitchPressed
  }

  /** A poll index that no earlier poll reads pressed at, and that is either
      past the last poll or reads pressed itself, is the first pressed poll. */
  lemma FirstPressed(readings: seq<int>, k: int)
    requires 0 <= k <= |readings|
    requires Released(readings, k)
    requires k == |readings| || readings[k] == SwitchPressed
    ensures k == if SwitchPressed in readings then IndexOf(readings, SwitchPressed) else |readings|
  {
  }

  class Machine {
    var mode: Mode
    var dataIn: string
    var confirmation: string
    const feeder: Axis
    const bender: Axis

    ghost predicate Valid()
    {
      feeder != bender
    }

    /** Between commands both axes stand at logical position 0: homing ends
        there and every completed bend cycle returns there. */
    ghost predicate AtRest()
      reads feeder, bender
    {
      Valid() && feeder.position == 0 && bender.position == 0
    }

    /** The firmware's globals at power-on: `mode` is zero-initialised, which
        is angle mode, and both strings are empty. */
    constructor ()
      ensures AtRest() && fresh(feeder) && fresh(bender)
      ensures mode == Angle && dataIn == "" && confirmation == ""
      ensures feeder.physical == 0 && feeder.path == [] && bender.physical == 0 && bender.path == []
    {
      mode := Angle;
      dataIn, confirmation := "", "";
      feeder := new Axis();
      bender := new Axis();
    }

    /** The effect of one bend cycle for the step counts `angleSteps` and
        `lengthSteps`, started with both axes at 0. The feeder advances the
        material by exactly `lengthSteps`, one step at a time, and is then
        renamed 0; the bender swings out to exactly `angleSteps` and back to
        where it started. A negative target is never reached: the cycle
        hangs in that motion, shown here with the axes as they were when the
        endless loop began. */
    twostate predicate BendEffect(angleSteps: int, lengthSteps: int, outcome: BendOutcome)
      reads feeder, bender
    {
      && Valid()
      && (outcome == Completed <==> 0 <= lengthSteps && 0 <= angleSteps)
      && (outcome == Hangs(Feeding) <==> lengthSteps < 0)
      && (outcome == Hangs(Bending) <==> 0 <= lengthSteps && angleSteps < 0)
      && (0 <= lengthSteps ==>
            feeder.position == 0 &&
            feeder.physical == old(feeder.physical) + lengthSteps &&
            feeder.path == old(feeder.path) + Ramp(old(feeder.physical), feeder.physical))
      && (lengthSteps < 0 ==>
            feeder.position == old(feeder.position) &&
            feeder.physical == old(feeder.physical) &&
            feeder.path == old(feeder.path))
      && (outcome == Completed ==>
            bender.position == 0 &&
            bender.physical == old(bender.physical) &&
            bender.path == old(bender.path)
                           + Ramp(old(bender.physical), old(bender.physical) + angleSteps)
                           + Ramp(old(bender.physical) + angleSteps, old(bender.physical)))
      && (outcome != Completed ==>
            bender.position == old(bender.position) &&
            bender.physical == old(bender.physical) &&
            bender.path == old(bender.path))
    }

    /** `bend`: feed to `lengthSteps`, rename the feeder's place 0, bend to
        `angleSteps`, dwell, bend back to 0. */
    method Bend(angleSteps: int, lengthSteps: int) returns (outcome: BendOutcome)
      requires AtRest()
      modifies feeder, bender
      ensures BendEffect(angleSteps, lengthSteps, outcome)
      ensures outcome == Completed ==> AtRest()
    {
      var fed := feeder.RunUntil(lengthSteps, BendSpeed);
      if !fed {
        return Hangs(Feeding);
      }
      feeder.SetCurrentPosition(0);
      var bent := bender.RunUntil(angleSteps, BendSpeed);
      if !bent {
        return Hangs(Bending);
      }
      // delay(400): the dwell at the bent angle moves nothing
      var back := bender.RunUntil(0, -BendSpeed);
      assert back;
      return Completed;
    }

    /** The homing run after a sequence of limit-switch polls, `readings[k]`
        being what `digitalRead` returns at the k-th poll. Until the first
        poll that reads pressed, every poll steps the bender once toward the
        switch and renames its place 0; from the place where the switch was
        found it then retracts exactly `RetractSteps`, and both axes are
        renamed 0. When no poll reads pressed the firmware is still seeking. */
    twostate predicate HomeEffect(readings: seq<int>, homed: bool)
      reads feeder, bender
    {
      var seek := IndexOf(readings, SwitchPressed);
      var found := old(bender.physical) + seek;
      && Valid()
      && (homed <==> SwitchPressed in readings)
      && (homed ==>
            AtRest() &&
            bender.physical == found - RetractSteps &&
            bender.path == old(bender.path) + Ramp(old(bender.physical), found) + Ramp(found, found - RetractSteps))
      && (!homed ==>
            feeder.position == old(feeder.position) &&
            bender.position == 0 &&
            bender.physical == old(bender.physical) + |readings| &&
            bender.path == old(bender.path) + Ramp(old(bender.physical), bender.physical))
      && feeder.physical == old(feeder.physical)
      && feeder.path == old(feeder.path)
    }

    /** The seek loop of the homing run: step toward the switch and rename the
        place 0 at every poll, until a poll reads pressed or the polls run out.
        Returns how many polls read released. */
    method Seek(readings: seq<int>) returns (k: nat)
      requires AtRest()
      modifies bender
      ensures k == if SwitchPressed in readings then IndexOf(readings, SwitchPressed) else |readings|
      ensures bender.position == 0
      ensures bender.physical == old(bender.physical) + k
      ensures bender.path == old(bender.path) + Ramp(old(bender.physical), bender.physical)
    {
      ghost var start, path0 := bender.physical, bender.path;
      k := 0;
      while k < |readings| && readings[k] != SwitchPressed
        invariant 0 <= k <= |readings|
        invariant Released(readings, k)
        invariant bender.position == 0
        invariant bender.physical == start + k
        invariant bender.path == path0 + Ramp(start, start + k)
      {
        RampExtend(start, start + k, start + k + 1);
        assert path0 + Ramp(start, start + k + 1) == (path0 + Ramp(start, start + k)) + [start + k + 1];
        SeekStep();
        k := k + 1;
      }
      FirstPressed(readings, k);
    }

    /** One pass of the seek loop: one step toward the switch, and the place
        renamed 0. */
    method SeekStep()
      requires Valid()
      modifies bender
      ensures bender.position == 0 && bender.speed == BendSpeed
      ensures bender.physical == old(bender.physical) + 1
      ensures bender.path == old(bender.path) + [bender.physical]
    {
      bender.SetSpeed(BendSpeed);
      bender.Tick();
      bender.SetCurrentPosition(0);
    }

    /** The homing part of `setup`. It runs once at power-on, when
        AccelStepper reports position 0 for both axes. */
    method Home(readings: seq<int>) returns (homed: bool)
      requires AtRest()
      modifies feeder, bender
      ensures HomeEffect(readings, homed)
    {
      var seek := Seek(readings);
      if seek == |readings| {
        return false;
      }
      // delay(40)
      var retracted := bender.RunUntil(-RetractSteps, -BendSpeed);
      assert retracted;
      bender.SetCurrentPosition(0);
      feeder.SetCurrentPosition(0);
      return true;
    }

    /** `setup`: read the mode choice, then home the bender. */
    method Setup(modeLine: string, readings: seq<int>, toInt: string -> int) returns (homed: bool)
      requires AtRest()
      modifies this`dataIn, this`mode, feeder, bender
      ensures dataIn == modeLine && mode == SelectMode(toInt(modeLine))
      ensures HomeEffect(readings, homed)
    {
      dataIn := modeLine;
      mode := SelectMode(toInt(dataIn));
      homed := Home(readings);
    }

    /** What one input line did to the axes: nothing, unless the command is a
        bend, in which case the cycle ran for exactly its step counts. */
    twostate predicate Performed(c: Command, result: CycleResult)
      reads feeder, bender
    {
      && (result.Bent? <==> c.Bend?)
      && (c.Bend? ==> BendEffect(c.request.angleSteps, c.request.lengthSteps, result.outcome))
      && (!c.Bend? ==> Valid() && unchanged(feeder, bender))
    }

    /** The command a reply makes of the step counts a line asked for. */
    static function Confirmed(reply: string, angleSteps: int, lengthSteps: int): (c: Command)
    {
      if reply == "y" then Command.Bend(BendRequest(angleSteps, lengthSteps)) else Declined
    }

    /** The tail both input modes share once the confirmation is read:
        `if (confirmation == "y") bend(angleSteps, lengthSteps)`. */
    method BendIfConfirmed(angleSteps: int, lengthSteps: int) returns (result: CycleResult)
      requires AtRest()
      modifies feeder, bender
      ensures Performed(Confirmed(confirmation, angleSteps, lengthSteps), result)
    {
      if confirmation == "y" {
        var outcome := Bend(angleSteps, lengthSteps);
        return Bent(outcome);
      }
      return NotBent;
    }

    /** `stepMode`. */
    method StepMode(line: string, reply: string, toInt: string -> int) returns (result: CycleResult)
      requires AtRest()
      modifies this`dataIn, this`confirmation, feeder, bender
      ensures dataIn == line && confirmation == reply
      ensures Performed(StepModeCommand(line, reply, toInt), result)
    {
      dataIn := line;
      var (lengthField, angleField) := Fields(dataIn);
      var lengthSteps, angleSteps := toInt(lengthField), toInt(angleField);
      confirmation := reply;
      result := BendIfConfirmed(angleSteps, lengthSteps);
    }

    /** `angleMode`, with the lookup of `AngleToStepsCorrected`. The
        confirmation is only asked for, and so only overwritten, when the
        angle is valid. */
    method AngleMode(line: string, reply: string, toFloat: string -> real) returns (result: CycleResult)
      requires AtRest()
      modifies this`dataIn, this`confirmation, feeder, bender
      ensures dataIn == line
      ensures confirmation == if AngleValid(toFloat(Fields(line).1)) then reply else old(confirmation)
      ensures Performed(AngleModeCommand(line, reply, toFloat), result)
    {
      dataIn := line;
      var fields := Fields(line);
      var lengthMm, angle := toFloat(fields.0), toFloat(fields.1);
      if !AngleValid(angle) {
        return NotBent;
      }
      confirmation := reply;
      result := ConvertAndBend(lengthMm, angle);
    }

    /** The part of `angleMode` after a valid angle is confirmed: convert
        both quantities to steps and bend on "y". */
    method ConvertAndBend(lengthMm: real, angle: real) returns (result: CycleResult)
      requires AtRest()
      modifies feeder, bender
      ensures Performed(Confirmed(confirmation, AngleSteps(angle), LengthToSteps(lengthMm)), result)
    {
      var angleSteps := AngleToStepsCorrected(angle);
      var lengthSteps := LengthToSteps(lengthMm);
      result := BendIfConfirmed(angleSteps, lengthSteps);
    }

    /** `loop`: one input line in the selected mode. */
    method Loop(line: string, reply: string, toInt: string -> int, toFloat: string -> real) returns (result: CycleResult)
      requires AtRest()
      modifies this`dataIn, this`confirmation, feeder, bender
      ensures mode == old(mode) && dataIn == line
      ensures confirmation == if mode == Steps || AngleValid(toFloat(Fields(line).1)) then reply else old(confirmation)
      ensures Performed(Dispatch(mode, line, reply, toInt, toFloat), result)
      ensures result == Bent(Completed) || result == NotBent ==> AtRest()
    {
      if mode == Angle {
        result := AngleMode(line, reply, toFloat);
      } else {
        result := StepMode(line, reply, toInt);
      }
    }
  }
}
