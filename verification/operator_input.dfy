/** What the operator's serial input turns into: the mode chosen at start-up,
    the two comma-separated fields of a bend line, and the decision whether a
    line and its confirmation lead to a bend, and with which step counts.
    The text-to-number conversions of the Arduino String class are not part
    of this model; they are passed in as `toInt` and `toFloat`. */
module OperatorInput {
  import opened Arduino
  import opened UnitConversion

  /** The two operating modes; a bend line holds degrees and millimetres in
      angle mode and raw motor steps in steps mode. */
  datatype Mode = Angle | Steps

  /** The mode selection in `setup`: 1 picks angle mode, 2 picks steps mode,
      and any other number falls back to angle mode. */
  function SelectMode(choice: int): (mode: Mode)
    ensures mode == Steps <==> choice == 2
  {
    if choice == 1 then Angle
    else if choice == 2 then Steps
    else Angle
  }

  /** The split of an input line at its first comma into the length field
      and the angle field. When the line has no comma, `indexOf` returns -1
      and both substrings are the whole line. */
  function Fields(line: string): (fields: (string, string))
    ensures ',' in line ==> fields.0 + "," + fields.1 == line && ',' !in fields.0
    ensures ',' !in line ==> fields.0 == line && fields.1 == line
  {
    var comma := IndexOf(line, ',');
    (Substring(line, 0, comma), SubstringFrom(line, comma + 1))
  }

  /** The step counts one bend cycle is asked to reach. */
  datatype BendRequest = BendRequest(angleSteps: int, lengthSteps: int)

  /** What an input line and its confirmation lead to. */
  datatype Command = Bend(request: BendRequest) | Declined | InvalidAngle

  /** `stepMode`: the line holds `lengthSteps,angleSteps`; the bend runs with
      exactly those numbers when the reply is "y", and nothing is checked. */
  function StepModeCommand(line: string, reply: string, toInt: string -> int): (c: Command)
    ensures c != InvalidAngle
    ensures c.Bend? <==> reply == "y"
    ensures c.Bend? ==> c.request == BendRequest(toInt(Fields(line).1), toInt(Fields(line).0))
  {
    var (lengthField, angleField) := Fields(line);
    if reply == "y" then Bend(BendRequest(toInt(angleField), toInt(lengthField)))
    else Declined
  }

  /** `angleMode`: the line holds `length,angle` in millimetres and degrees;
      an angle outside 0 to 90 degrees is refused before any confirmation is
      asked for, and a valid one bends on "y" with the converted step counts. */
  function AngleModeCommand(line: string, reply: string, toFloat: string -> real): (c: Command)
    ensures c == InvalidAngle <==> !AngleValid(toFloat(Fields(line).1))
    ensures c.Bend? <==> AngleValid(toFloat(Fields(line).1)) && reply == "y"
    ensures c.Bend? ==> 0 <= c.request.angleSteps <= 180
    ensures c.Bend? ==> c.request.lengthSteps == LengthToSteps(toFloat(Fields(line).0))
  {
    var (lengthField, angleField) := Fields(line);
    var angle := toFloat(angleField);
    if !AngleValid(angle) then InvalidAngle
    else if reply == "y" then
      AngleStepsCorrectedMonotone(angle, angle);
      Bend(BendRequest(AngleSteps(angle), LengthToSteps(toFloat(lengthField))))
    else Declined
  }

  /** `loop`: the command of one input line in the selected mode. Only angle
      mode refuses a line, and it refuses exactly the invalid angles. */
  function Dispatch(mode: Mode, line: string, reply: string, toInt: string -> int, toFloat: string -> real): (c: Command)
    ensures c == InvalidAngle <==> mode == Angle && !AngleValid(toFloat(Fields(line).1))
    ensures c == Declined <==> reply != "y" && (mode == Angle ==> AngleValid(toFloat(Fields(line).1)))
  {
    match mode
    case Angle => AngleModeCommand(line, reply, toFloat)
    case Steps => StepModeCommand(line, reply, toInt)
  }

  /** The gate in front of every bend: it runs exactly when the reply is "y"
      and, in angle mode, the angle passes `angleValid`. */
  lemma BendOnlyWhenConfirmed(mode: Mode, line: string, reply: string, toInt: string -> int, toFloat: string -> real)
    ensures Dispatch(mode, line, reply, toInt, toFloat).Bend?
            <==> reply == "y" && (mode == Angle ==> AngleValid(toFloat(Fields(line).1)))
  {
  }

  /** In angle mode the requested feed is never negative unless the length
      itself is at least a whole millimetre below zero, which nothing rejects. */
  lemma AngleModeLengthSign(line: string, reply: string, toFloat: string -> real)
    requires AngleModeCommand(line, reply, toFloat).Bend?
    ensures AngleModeCommand(line, reply, toFloat).request.lengthSteps < 0 <==> toFloat(Fields(line).0) <= -1.0
  {
    LengthToStepsNegative(toFloat(Fields(line).0));
  }
}
