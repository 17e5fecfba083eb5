/**
 * The Robot controller of robot.py: a small state machine over the buggy's pose, speed, motor
 * flags, action and lighting mode.  Every driver call is appended to the ghost `trace`, so each
 * method states exactly which calls it makes, and the lemmas below say what those calls leave
 * the motors and LEDs doing.
 */
module RobotModel {
  import opened Wrappers
  import opened Buggy

  const DEFAULT_SPEED: int := 50
  const TOO_CLOSE: int := 30
  const MIDDLE_DISTANCE: int := 60
  const LIGHT_LEVEL: int := 15

  /** The driver's direction letters are swapped to make up for the way the motors are wired. */
  const FORWARD_DIRECTION: char := 'r'
  const REVERSE_DIRECTION: char := 'f'

  /** The calibrated turning rate, 360 * (6 / 5) degrees per second. */
  const DEGREES_PER_SECOND: real := 360.0 * (6.0 / 5.0)

  /** The actions the robot performs on its own (ACTION_MANUAL = 0, ACTION_WANDER = 1). */
  datatype Action = Manual | Wander

  const AllLights: seq<int> := [0, 1, 2, 3]
  const HaltEvents: seq<Event> := [MotorOff(Left), MotorOff(Right)]
  const ClearEvents: seq<Event> := [ClearLed(0), ClearLed(1), ClearLed(2), ClearLed(3), Show]

  /** The safety band in which update() halts a robot that is driving forward. */
  predicate TooClose(distance: int) {
    distance <= TOO_CLOSE && distance > 1
  }

  /** forward() only drives off when nothing is within MIDDLE_DISTANCE or nothing was seen (< 0). */
  predicate PathClear(distance: int) {
    distance > MIDDLE_DISTANCE || distance < 0
  }

  predicate ValidSteps(n: real) {
    0.3 <= n <= 10.0
  }

  predicate ValidDegrees(degrees: int) {
    -359 <= degrees <= 359
  }

  function Abs(n: int): nat {
    if n < 0 then -n else n
  }

  /** The speed a primitive drives at: an unset (non-positive) speed is replaced by the default. */
  function Effective(speed: int): (power: int)
    ensures power > 0
    ensures speed > 0 ==> power == speed
    ensures speed <= 0 ==> power == DEFAULT_SPEED
  {
    if speed <= 0 then DEFAULT_SPEED else speed
  }

  /** The driver was last told to stop this motor. */
  ghost predicate Stopped(trace: seq<Event>, side: Side) {
    LastFor(trace, Motor(side)) == Some(MotorOff(side))
  }

  /** The LED colour update() chooses for a distance reading. */
  function UpdateColour(distance: int): (colour: Colour)
    ensures colour == Red <==> TooClose(distance)
    ensures colour == Blue <==> TOO_CLOSE < distance < MIDDLE_DISTANCE
    ensures colour == Green <==> distance <= 1 || distance >= MIDDLE_DISTANCE
  {
    if distance <= TOO_CLOSE && distance > 1 then Red
    else if distance > TOO_CLOSE && distance < MIDDLE_DISTANCE then Blue
    else Green
  }

  /** Seconds that turn() sleeps: |degrees| at DEGREES_PER_SECOND. */
  function TurnTime(degrees: int): real {
    Abs(degrees) as real / DEGREES_PER_SECOND
  }

  /** turn() sleeps exactly long enough to cover the angle, and under a second for every valid angle. */
  lemma TurnTimeCovers(degrees: int)
    ensures TurnTime(degrees) * DEGREES_PER_SECOND == Abs(degrees) as real
    ensures ValidDegrees(degrees) ==> 0.0 <= TurnTime(degrees) < 1.0
  {
  }

  /** Seconds that forward_steps() and reverse_steps() drive: (100 / speed) * steps / 2. */
  function StepTime(speed: int, steps: real): real
    requires speed > 0
  {
    (100.0 / speed as real) * steps / 2.0
  }

  /** At speed per cent, each step takes 50 / speed seconds, and a positive number of steps takes time. */
  lemma StepTimeScales(speed: int, steps: real)
    requires speed > 0
    ensures StepTime(speed, steps) * speed as real == 50.0 * steps
    ensures steps > 0.0 ==> StepTime(speed, steps) > 0.0
  {
    var perStep := 100.0 / speed as real;
    assert perStep * speed as real == 100.0;
  }

  /**
   * The calls set_speed() makes when it accepts a speed: each motor that is flagged as running is
   * re-engaged at the new power, the others are switched off.  As in the source, the right motor's
   * forward case tests the LEFT flag.
   */
  function SetSpeedEvents(left: int, right: int, power: int): seq<Event> {
    (if left < 0 then [MotorOn(Left, REVERSE_DIRECTION, power)]
     else if left > 0 then [MotorOn(Left, FORWARD_DIRECTION, power)]
     else [MotorOff(Left)])
    + (if right < 0 then [MotorOn(Right, REVERSE_DIRECTION, power)]
       else if left > 0 then [MotorOn(Right, FORWARD_DIRECTION, power)]
       else [MotorOff(Right)])
  }

  /** Each motor re-engaged by its own flag. */
  function EngageByFlags(left: int, right: int, power: int): seq<Event> {
    (if left < 0 then [MotorOn(Left, REVERSE_DIRECTION, power)]
     else if left > 0 then [MotorOn(Left, FORWARD_DIRECTION, power)]
     else [MotorOff(Left)])
    + (if right < 0 then [MotorOn(Right, REVERSE_DIRECTION, power)]
       else if right > 0 then [MotorOn(Right, FORWARD_DIRECTION, power)]
       else [MotorOff(Right)])
  }

  /**
   * Testing the left flag for the right motor makes no difference as long as the two flags agree,
   * which they do in every state the controller reaches (Robot.Valid); with the left flag +1 and
   * the right one 0 the right motor would be started.
   */
  lemma SetSpeedFlagTest(flag: int, power: int)
    ensures SetSpeedEvents(flag, flag, power) == EngageByFlags(flag, flag, power)
    ensures SetSpeedEvents(1, 0, power) != EngageByFlags(1, 0, power)
  {
    assert SetSpeedEvents(1, 0, power)[1] != EngageByFlags(1, 0, power)[1];
  }

  /** set_speed(DEFAULT_SPEED) when the speed is still unset, as each primitive does first. */
  function Throttle(speed: int, left: int, right: int): seq<Event> {
    if speed <= 0 then SetSpeedEvents(left, right, DEFAULT_SPEED) else []
  }

  /** The calls forward() makes: none when the path is blocked. */
  function ForwardEvents(speed: int, left: int, right: int, distance: int): seq<Event> {
    if PathClear(distance) then
      Throttle(speed, left, right)
      + [MotorOn(Right, FORWARD_DIRECTION, Effective(speed)), MotorOn(Left, FORWARD_DIRECTION, Effective(speed))]
    else []
  }

  /** The calls reverse() makes; it never checks the rear. */
  function ReverseEvents(speed: int, left: int, right: int): seq<Event> {
    Throttle(speed, left, right)
    + [MotorOn(Right, REVERSE_DIRECTION, Effective(speed)), MotorOn(Left, REVERSE_DIRECTION, Effective(speed))]
  }

  /** The calls forward_steps(n) makes: halt, and for a valid n throttle, drive, sleep and halt. */
  function ForwardStepsEvents(steps: real, speed: int, distance: int): seq<Event> {
    if !ValidSteps(steps) then HaltEvents
    else
      HaltEvents + Throttle(speed, 0, 0) + ForwardEvents(Effective(speed), 0, 0, distance)
      + (if PathClear(distance) then [Sleep(StepTime(Effective(speed), steps))] + HaltEvents else [])
  }

  function ReverseStepsEvents(steps: real, speed: int): seq<Event> {
    if !ValidSteps(steps) then HaltEvents
    else
      HaltEvents + Throttle(speed, 0, 0) + ReverseEvents(Effective(speed), 0, 0)
      + ([Sleep(StepTime(Effective(speed), steps))] + HaltEvents)
  }

  /** The side spin() engages: "r" spins right, anything else spins left. */
  function SpinSide(leftRight: string): Side {
    if leftRight == "r" then Right else Left
  }

  function SpinEvents(leftRight: string, speed: int): seq<Event> {
    HaltEvents + Throttle(speed, 0, 0) + [MotorOn(SpinSide(leftRight), FORWARD_DIRECTION, Effective(speed))]
  }

  /** The calls turn(degrees) makes: halt, and for a valid angle spin, sleep and halt. */
  function TurnEvents(degrees: int, speed: int): seq<Event> {
    if !ValidDegrees(degrees) then HaltEvents
    else HaltEvents + SpinEvents(if degrees < 0 then "l" else "r", speed) + [Sleep(TurnTime(degrees))] + HaltEvents
  }

  /** The results of the random.randint calls wander() may make, in the order the source makes them. */
  datatype Draws = Draws(choice: int, degrees: int, side: int, steps: int)

  predicate DrawsInRange(r: Draws) {
    0 <= r.choice <= 3 && 60 <= r.degrees <= 90 && 0 <= r.side <= 1 && 3 <= r.steps <= 6
  }

  /** One move of the wander behaviour. */
  datatype Move = TurnBy(degrees: int) | StepForward(steps: real)

  /**
   * What wander() does with its draws: choice 0 turns left, 2 turns right, and 1 or 3 steps half a
   * step forward when the path ahead is beyond MIDDLE_DISTANCE, else turns the way `side` says.
   */
  function WanderMove(r: Draws, distance: int): (m: Move)
    requires DrawsInRange(r)
    ensures m.TurnBy? ==> 60 <= Abs(m.degrees) <= 90 && ValidDegrees(m.degrees)
    ensures m.StepForward? <==> (r.choice == 1 || r.choice == 3) && distance > MIDDLE_DISTANCE
    ensures m.StepForward? ==> m.steps == 0.5 && ValidSteps(m.steps)
    ensures r.choice == 0 ==> m == TurnBy(-r.degrees)
    ensures r.choice == 2 ==> m == TurnBy(r.degrees)
    ensures m.TurnBy? && r.choice != 0 && r.choice != 2 ==> (m.degrees < 0 <==> r.side == 0)
  {
    if r.choice == 0 then TurnBy(-r.degrees)
    else if r.choice == 2 then TurnBy(r.degrees)
    else if distance > MIDDLE_DISTANCE then StepForward(0.5)
    else if r.side == 0 then TurnBy(-r.degrees)
    else TurnBy(r.degrees)
  }

  function MoveEvents(m: Move, speed: int, distance: int): seq<Event> {
    match m
    case TurnBy(degrees) => TurnEvents(degrees, speed)
    case StepForward(steps) => ForwardStepsEvents(steps, speed, distance)
  }

  /** The calls set_lights() makes for the in-range indices, in order (show() comes after). */
  function LightEvents(lights: seq<int>, colour: Colour): seq<Event>
    decreases |lights|
  {
    if lights == [] then []
    else
      var last := lights[|lights| - 1];
      LightEvents(lights[..|lights| - 1], colour) + (if 0 <= last <= 3 then [SetLed(last, colour)] else [])
  }

  /** What reset() tells the driver after its set_lights(): brightness, show, silence. */
  const SettleEvents: seq<Event> := [SetBrightness(LIGHT_LEVEL), Show, Silence]

  function ResetEvents(reading: int): seq<Event> {
    [GetDistance(FORWARD_DIRECTION, reading)] + LightEvents(AllLights, Green) + [Show] + SettleEvents
  }

  /** The calls one update() makes, given the state it starts from. */
  function UpdateEvents(reading: int, lightsAuto: bool, left: int, right: int, action: Action,
                        r: Draws, speed: int): seq<Event>
    requires DrawsInRange(r)
  {
    [GetDistance(FORWARD_DIRECTION, reading)] + UpdateLights(reading, lightsAuto)
    + UpdateMotion(reading, left, right, action, r, speed)
  }

  /** set_lights() only ever addresses LEDs 0 to 3, and only those it was given, in the given colour. */
  lemma {:induction false} LightEventsOnlyLeds(lights: seq<int>, colour: Colour)
    ensures forall k :: 0 <= k < |LightEvents(lights, colour)| ==>
      LightEvents(lights, colour)[k].SetLed?
      && 0 <= LightEvents(lights, colour)[k].index <= 3
      && LightEvents(lights, colour)[k].index in lights
      && LightEvents(lights, colour)[k].colour == colour
    decreases |lights|
  {
    if lights != [] {
      var front := lights[..|lights| - 1];
      LightEventsOnlyLeds(front, colour);
      assert forall i :: i in front ==> i in lights;
    }
  }

  lemma LightEventsLeaveMotors(lights: seq<int>, colour: Colour, side: Side)
    ensures Untouched(LightEvents(lights, colour), Motor(side))
  {
    LightEventsOnlyLeds(lights, colour);
  }

  /** set_lights([0, 1, 2, 3], c) sets the four LEDs in index order. */
  lemma AllLightsInOrder(colour: Colour)
    ensures LightEvents(AllLights, colour) == [SetLed(0, colour), SetLed(1, colour), SetLed(2, colour), SetLed(3, colour)]
  {
    assert AllLights[..3] == [0, 1, 2] && [0, 1, 2][..2] == [0, 1] && [0, 1][..1] == [0] && [0][..0] == [];
    assert LightEvents([0], colour) == [SetLed(0, colour)];
    assert LightEvents([0, 1], colour) == [SetLed(0, colour), SetLed(1, colour)];
    assert LightEvents([0, 1, 2], colour) == [SetLed(0, colour), SetLed(1, colour), SetLed(2, colour)];
  }

  /** After set_lights([0, 1, 2, 3], c) every one of the four LEDs was last set to c. */
  lemma AllLightsSet(t: seq<Event>, colour: Colour, index: int)
    requires 0 <= index <= 3
    ensures LastFor(t + LightEvents(AllLights, colour) + [Show], Led(index)) == Some(SetLed(index, colour))
  {
    AllLightsInOrder(colour);
    var t1 := t + [SetLed(0, colour)];
    var t2 := t1 + [SetLed(1, colour)];
    var t3 := t2 + [SetLed(2, colour)];
    var t4 := t3 + [SetLed(3, colour)];
    assert t + LightEvents(AllLights, colour) + [Show] == t4 + [Show];
    LastForPush(t4, Show, Led(index));
    LastForPush(t3, SetLed(3, colour), Led(index));
    LastForPush(t2, SetLed(2, colour), Led(index));
    LastForPush(t1, SetLed(1, colour), Led(index));
    LastForPush(t, SetLed(0, colour), Led(index));
  }

  /** After reset() the four LEDs were last set green. */
  lemma ResetLightsGreen(t: seq<Event>, reading: int, index: int)
    requires 0 <= index <= 3
    ensures LastFor(t + ResetEvents(reading), Led(index)) == Some(SetLed(index, Green))
  {
    var sensed := t + [GetDistance(FORWARD_DIRECTION, reading)];
    var lit := sensed + LightEvents(AllLights, Green) + [Show];
    Regroup(t, [GetDistance(FORWARD_DIRECTION, reading)], LightEvents(AllLights, Green));
    Regroup(t, [GetDistance(FORWARD_DIRECTION, reading)] + LightEvents(AllLights, Green), [Show]);
    Regroup(t, [GetDistance(FORWARD_DIRECTION, reading)] + LightEvents(AllLights, Green) + [Show], SettleEvents);
    assert t + ResetEvents(reading) == lit + SettleEvents;
    AllLightsSet(sensed, Green, index);
    UntouchedKeeps(lit, SettleEvents, Led(index));
  }

  /** After lights_off() every one of the four LEDs was last cleared. */
  lemma AllLightsCleared(t: seq<Event>, index: int)
    requires 0 <= index <= 3
    ensures LastFor(t + ClearEvents, Led(index)) == Some(ClearLed(index))
  {
    var t1 := t + [ClearLed(0)];
    var t2 := t1 + [ClearLed(1)];
    var t3 := t2 + [ClearLed(2)];
    var t4 := t3 + [ClearLed(3)];
    assert t + ClearEvents == t4 + [Show];
    LastForPush(t4, Show, Led(index));
    LastForPush(t3, ClearLed(3), Led(index));
    LastForPush(t2, ClearLed(2), Led(index));
    LastForPush(t1, ClearLed(1), Led(index));
    LastForPush(t, ClearLed(0), Led(index));
  }

  /** Two engage calls, right motor first, leave both motors running at that power in that direction. */
  lemma EngagePair(t: seq<Event>, dir: char, power: int, side: Side)
    ensures LastFor(t + [MotorOn(Right, dir, power), MotorOn(Left, dir, power)], Motor(side)) == Some(MotorOn(side, dir, power))
  {
    assert t + [MotorOn(Right, dir, power), MotorOn(Left, dir, power)]
      == (t + [MotorOn(Right, dir, power)]) + [MotorOn(Left, dir, power)];
    LastForPush(t + [MotorOn(Right, dir, power)], MotorOn(Left, dir, power), Motor(side));
    LastForPush(t, MotorOn(Right, dir, power), Motor(side));
  }

  /**
   * forward() with a clear path leaves both motors running forward at the speed in force (the
   * default when none was set); with the path blocked it makes no call at all.
   */
  lemma ForwardEngages(t: seq<Event>, speed: int, left: int, right: int, distance: int, side: Side)
    ensures PathClear(distance) ==>
      LastFor(t + ForwardEvents(speed, left, right, distance), Motor(side)) == Some(MotorOn(side, FORWARD_DIRECTION, Effective(speed)))
    ensures !PathClear(distance) ==> ForwardEvents(speed, left, right, distance) == []
  {
    if PathClear(distance) {
      var power := Effective(speed);
      Regroup(t, Throttle(speed, left, right), [MotorOn(Right, FORWARD_DIRECTION, power), MotorOn(Left, FORWARD_DIRECTION, power)]);
      EngagePair(t + Throttle(speed, left, right), FORWARD_DIRECTION, power, side);
    }
  }

  /** reverse() always leaves both motors running backwards at the speed in force. */
  lemma ReverseEngages(t: seq<Event>, speed: int, left: int, right: int, side: Side)
    ensures LastFor(t + ReverseEvents(speed, left, right), Motor(side)) == Some(MotorOn(side, REVERSE_DIRECTION, Effective(speed)))
  {
    var power := Effective(speed);
    Regroup(t, Throttle(speed, left, right), [MotorOn(Right, REVERSE_DIRECTION, power), MotorOn(Left, REVERSE_DIRECTION, power)]);
    EngagePair(t + Throttle(speed, left, right), REVERSE_DIRECTION, power, side);
  }

  /** spin() leaves the chosen motor running forward and the other one stopped. */
  lemma SpinEngages(t: seq<Event>, leftRight: string, speed: int)
    ensures LastFor(t + SpinEvents(leftRight, speed), Motor(SpinSide(leftRight)))
      == Some(MotorOn(SpinSide(leftRight), FORWARD_DIRECTION, Effective(speed)))
    ensures Stopped(t + SpinEvents(leftRight, speed), if SpinSide(leftRight) == Left then Right else Left)
  {
    var side := SpinSide(leftRight);
    var other := if side == Left then Right else Left;
    var engage := MotorOn(side, FORWARD_DIRECTION, Effective(speed));
    var before := t + HaltEvents + Throttle(speed, 0, 0);
    Regroup(t + HaltEvents, Throttle(speed, 0, 0), [engage]);
    Regroup(t, HaltEvents + Throttle(speed, 0, 0), [engage]);
    Regroup(t, HaltEvents, Throttle(speed, 0, 0));
    assert t + SpinEvents(leftRight, speed) == before + [engage];
    LastForPush(before, engage, Motor(side));
    LastForPush(before, engage, Motor(other));
    // Either way the last two calls before the engage stop both motors.
    var stops := if speed <= 0 then t + HaltEvents else t;
    assert before == (stops + [MotorOff(Left)]) + [MotorOff(Right)];
    LastForPush(stops + [MotorOff(Left)], MotorOff(Right), Motor(other));
    LastForPush(stops, MotorOff(Left), Motor(other));
  }

  /** Every motion primitive is made of motor calls and pauses only. */
  lemma MotionPrimitives(m: Move, speed: int, distance: int)
    ensures MotionOnly(MoveEvents(m, speed, distance))
  {
  }

  /** After a halt both motors were last told to stop. */
  lemma HaltStops(t: seq<Event>, side: Side)
    ensures Stopped(t + HaltEvents, side)
  {
    assert t + HaltEvents == (t + [MotorOff(Left)]) + [MotorOff(Right)];
    LastForPush(t + [MotorOff(Left)], MotorOff(Right), Motor(side));
    LastForPush(t, MotorOff(Left), Motor(side));
  }

  /** turn() ends with both motors told to stop, whether or not it accepted the angle. */
  lemma TurnEndsStopped(t: seq<Event>, degrees: int, speed: int, side: Side)
    ensures Stopped(t + TurnEvents(degrees, speed), side)
  {
    if ValidDegrees(degrees) {
      var body := HaltEvents + SpinEvents(if degrees < 0 then "l" else "r", speed) + [Sleep(TurnTime(degrees))];
      Regroup(t, body, HaltEvents);
      HaltStops(t + body, side);
    } else {
      HaltStops(t, side);
    }
  }

  /**
   * forward_steps() ends with both motors told to stop: after the final halt when it drove, and
   * otherwise because nothing after its first halt engaged a motor.
   */
  lemma ForwardStepsEndsStopped(t: seq<Event>, steps: real, speed: int, distance: int, side: Side)
    ensures Stopped(t + ForwardStepsEvents(steps, speed, distance), side)
  {
    if !ValidSteps(steps) {
      HaltStops(t, side);
    } else {
      var body := HaltEvents + Throttle(speed, 0, 0) + ForwardEvents(Effective(speed), 0, 0, distance);
      if PathClear(distance) {
        var sleep := [Sleep(StepTime(Effective(speed), steps))];
        Regroup(body, sleep, HaltEvents);
        Regroup(t, body + sleep, HaltEvents);
        HaltStops(t + (body + sleep), side);
      } else if speed <= 0 {
        assert ForwardStepsEvents(steps, speed, distance) == HaltEvents + HaltEvents;
        Regroup(t, HaltEvents, HaltEvents);
        HaltStops(t + HaltEvents, side);
      } else {
        assert ForwardStepsEvents(steps, speed, distance) == HaltEvents;
        HaltStops(t, side);
      }
    }
  }

  lemma ReverseStepsEndsStopped(t: seq<Event>, steps: real, speed: int, side: Side)
    ensures Stopped(t + ReverseStepsEvents(steps, speed), side)
  {
    if ValidSteps(steps) {
      var body := HaltEvents + Throttle(speed, 0, 0) + ReverseEvents(Effective(speed), 0, 0);
      var sleep := [Sleep(StepTime(Effective(speed), steps))];
      Regroup(t, body, sleep + HaltEvents);
      Regroup(t + body, sleep, HaltEvents);
      HaltStops(t + body + sleep, side);
    } else {
      HaltStops(t, side);
    }
  }

  /** Every turn and every step of the wander behaviour ends with both motors told to stop. */
  lemma MoveEndsStopped(t: seq<Event>, m: Move, speed: int, distance: int, side: Side)
    ensures Stopped(t + MoveEvents(m, speed, distance), side)
  {
    match m
    case TurnBy(degrees) => TurnEndsStopped(t, degrees, speed, side);
    case StepForward(steps) => ForwardStepsEndsStopped(t, steps, speed, distance, side);
  }

  /** The LED calls of one update(): the colour for the reading on all four LEDs, or nothing at all. */
  function UpdateLights(reading: int, lightsAuto: bool): seq<Event> {
    if lightsAuto then LightEvents(AllLights, UpdateColour(reading)) + [Show] else []
  }

  /**
   * The LED calls of update() address LEDs 0 to 3 only, all in the colour for the reading, and end
   * with show(); with automatic lighting off there are none.
   */
  lemma UpdateLightsOnlyLeds(reading: int, lightsAuto: bool)
    ensures var lights := UpdateLights(reading, lightsAuto);
      (lightsAuto <==> lights != []) && (lights != [] ==> lights[|lights| - 1] == Show)
      && forall k :: 0 <= k < |lights| - 1 ==>
           lights[k].SetLed? && 0 <= lights[k].index <= 3 && lights[k].colour == UpdateColour(reading)
  {
    if lightsAuto {
      var colours := LightEvents(AllLights, UpdateColour(reading));
      LightEventsOnlyLeds(AllLights, UpdateColour(reading));
      AllLightsInOrder(UpdateColour(reading));
      assert UpdateLights(reading, lightsAuto) == colours + [Show];
    }
  }

  /** The halt update() makes inside the safety band when both motors are flagged forward. */
  function UpdateHalt(reading: int, left: int, right: int): seq<Event> {
    if TooClose(reading) && left > 0 && right > 0 then HaltEvents else []
  }

  /** The calls to the motors alone that one update() makes after choosing the colours. */
  function UpdateMotion(reading: int, left: int, right: int, action: Action, r: Draws, speed: int): seq<Event>
    requires DrawsInRange(r)
  {
    UpdateHalt(reading, left, right)
    + (if action == Wander then MoveEvents(WanderMove(r, reading), speed, reading) else [])
  }

  lemma UpdateMotionOnly(reading: int, left: int, right: int, action: Action, r: Draws, speed: int)
    requires DrawsInRange(r)
    ensures MotionOnly(UpdateMotion(reading, left, right, action, r, speed))
  {
    var halted := if TooClose(reading) && left > 0 && right > 0 then HaltEvents else [];
    var steps := if action == Wander then MoveEvents(WanderMove(r, reading), speed, reading) else [];
    if action == Wander {
      MotionPrimitives(WanderMove(r, reading), speed, reading);
    }
    assert UpdateMotion(reading, left, right, action, r, speed) == halted + steps;
  }

  /** One update() is its reading, its LED calls, and then motor calls only. */
  lemma UpdateShape(t: seq<Event>, reading: int, lightsAuto: bool, left: int, right: int,
                    action: Action, r: Draws, speed: int)
    requires DrawsInRange(r)
    ensures t + UpdateEvents(reading, lightsAuto, left, right, action, r, speed)
      == t + [GetDistance(FORWARD_DIRECTION, reading)] + UpdateLights(reading, lightsAuto)
         + UpdateMotion(reading, left, right, action, r, speed)
  {
    var sensed := [GetDistance(FORWARD_DIRECTION, reading)];
    Regroup(t, sensed + UpdateLights(reading, lightsAuto), UpdateMotion(reading, left, right, action, r, speed));
    Regroup(t, sensed, UpdateLights(reading, lightsAuto));
  }

  /** In automatic lighting an update() leaves the four LEDs showing the colour for the reading. */
  lemma UpdateColoursLeds(t: seq<Event>, reading: int, left: int, right: int, action: Action, r: Draws,
                          speed: int, index: int)
    requires DrawsInRange(r)
    requires 0 <= index <= 3
    ensures LastFor(t + UpdateEvents(reading, true, left, right, action, r, speed), Led(index))
      == Some(SetLed(index, UpdateColour(reading)))
  {
    var sensed := t + [GetDistance(FORWARD_DIRECTION, reading)];
    var colours := LightEvents(AllLights, UpdateColour(reading));
    var motion := UpdateMotion(reading, left, right, action, r, speed);
    UpdateShape(t, reading, true, left, right, action, r, speed);
    Regroup(sensed, colours, [Show]);
    UpdateMotionOnly(reading, left, right, action, r, speed);
    MotionLeavesLeds(motion, index);
    UntouchedKeeps(sensed + colours + [Show], motion, Led(index));
    AllLightsSet(sensed, UpdateColour(reading), index);
  }

  /** With automatic lighting off an update() leaves every LED as it was. */
  lemma UpdateKeepsManualLeds(t: seq<Event>, reading: int, left: int, right: int, action: Action, r: Draws,
                              speed: int, index: int)
    requires DrawsInRange(r)
    ensures LastFor(t + UpdateEvents(reading, false, left, right, action, r, speed), Led(index)) == LastFor(t, Led(index))
  {
    var sensed := t + [GetDistance(FORWARD_DIRECTION, reading)];
    var motion := UpdateMotion(reading, left, right, action, r, speed);
    UpdateShape(t, reading, false, left, right, action, r, speed);
    assert sensed + UpdateLights(reading, false) == sensed;
    UpdateMotionOnly(reading, left, right, action, r, speed);
    MotionLeavesLeds(motion, index);
    UntouchedKeeps(sensed, motion, Led(index));
    LastForPush(t, GetDistance(FORWARD_DIRECTION, reading), Led(index));
  }

  /** An update() that halts, or that wanders, leaves both motors told to stop. */
  lemma UpdateStops(t: seq<Event>, reading: int, lightsAuto: bool, left: int, right: int,
                    action: Action, r: Draws, speed: int, side: Side)
    requires DrawsInRange(r)
    requires action == Wander || (TooClose(reading) && left > 0 && right > 0)
    ensures Stopped(t + UpdateEvents(reading, lightsAuto, left, right, action, r, speed), side)
  {
    var front := [GetDistance(FORWARD_DIRECTION, reading)] + UpdateLights(reading, lightsAuto);
    var halted := UpdateHalt(reading, left, right);
    Regroup(t, front, UpdateMotion(reading, left, right, action, r, speed));
    if action == Wander {
      var m := WanderMove(r, reading);
      Regroup(t + front, halted, MoveEvents(m, speed, reading));
      MoveEndsStopped(t + front + halted, m, speed, reading, side);
    } else {
      assert UpdateMotion(reading, left, right, action, r, speed) == HaltEvents;
      HaltStops(t + front, side);
    }
  }

  class Robot {
    var x: real
    var y: real
    var direction: real
    var speed: int
    var leftMotor: int
    var rightMotor: int
    var action: Action
    var lightsAuto: bool
    var forwardDistance: int
    /** Every call made to the driver so far, oldest first, with the pauses between them. */
    ghost var trace: seq<Event>

    /**
     * The state every method keeps: the flags are -1, 0 or +1 and always agree, the speed is a
     * percentage and the heading is in [0, 360).  (A zero flag does not mean the motor is off:
     * spin() engages a motor without setting a flag.)
     */
    ghost predicate Valid()
      reads this
    {
      && -1 <= leftMotor <= 1
      && rightMotor == leftMotor
      && 0 <= speed <= 100
      && 0.0 <= direction < 360.0
    }

    /** __init__: halt, reset, and switch the sensors to centimetres. */
    constructor (reading: int)
      ensures Valid()
      ensures x == 0.0 && y == 0.0 && direction == 0.0 && speed == 0
      ensures leftMotor == 0 && rightMotor == 0
      ensures action == Manual && lightsAuto && forwardDistance == reading
      ensures trace == HaltEvents + ResetEvents(reading) + [SetUnits("cm")]
    {
      x, y, direction, speed := 0.0, 0.0, 0.0, 0;
      leftMotor, rightMotor := 0, 0;
      action, lightsAuto, forwardDistance := Manual, true, reading;
      trace := [];
      new;
      Halt();
      Reset(reading);
      trace := trace + [SetUnits("cm")];
    }

    function GetMode(): (mode: string)
      reads this
      ensures mode == "Wander" <==> action == Wander
      ensures mode == "Manual" <==> action == Manual
    {
      match action
      case Wander => "Wander"
      case Manual => assert "Manual"[0] != "Wander"[0]; "Manual"
    }

    method GetForwardDistance(reading: int) returns (distance: int)
      requires Valid()
      modifies this`forwardDistance, this`trace
      ensures Valid()
      ensures distance == reading && forwardDistance == reading
      ensures trace == old(trace) + [GetDistance(FORWARD_DIRECTION, reading)]
    {
      forwardDistance := reading;
      trace := trace + [GetDistance(FORWARD_DIRECTION, reading)];
      distance := forwardDistance;
      LastForPush(old(trace), GetDistance(FORWARD_DIRECTION, reading), Motor(Left));
      LastForPush(old(trace), GetDistance(FORWARD_DIRECTION, reading), Motor(Right));
    }

    /** reset(): back to the origin, heading 0, speed unset, manual mode and automatic green lights. */
    method Reset(reading: int)
      requires Valid()
      modifies this`x, this`y, this`direction, this`forwardDistance, this`lightsAuto, this`speed,
               this`action, this`trace
      ensures Valid()
      ensures x == 0.0 && y == 0.0 && direction == 0.0 && speed == 0
      ensures action == Manual && lightsAuto && forwardDistance == reading
      ensures trace == old(trace) + ResetEvents(reading)
    {
      x := 0.0;
      y := 0.0;
      direction := 0.0;
      var _ := GetForwardDistance(reading);
      SetLights(AllLights, Green);
      lightsAuto := true;
      trace := trace + SettleEvents;
      speed := 0;
      action := Manual;
      assert trace == old(trace) + ResetEvents(reading) by {
        var sensed := [GetDistance(FORWARD_DIRECTION, reading)];
        Regroup(old(trace), sensed, LightEvents(AllLights, Green));
        Regroup(old(trace), sensed + LightEvents(AllLights, Green), [Show]);
        Regroup(old(trace), sensed + LightEvents(AllLights, Green) + [Show], SettleEvents);
      }
    }

    /** halt(): both motors off and both flags 0. */
    method Halt()
      requires Valid()
      modifies this`leftMotor, this`rightMotor, this`trace
      ensures Valid()
      ensures leftMotor == 0 && rightMotor == 0
      ensures trace == old(trace) + HaltEvents
      ensures Stopped(trace, Left) && Stopped(trace, Right)
    {
      trace := trace + HaltEvents;
      leftMotor := 0;
      rightMotor := 0;
      HaltStops(old(trace), Left);
      HaltStops(old(trace), Right);
    }

    /** wander(): one random move, made with the primitives below. */
    method DoWander(r: Draws)
      requires Valid() && DrawsInRange(r)
      modifies this`speed, this`leftMotor, this`rightMotor, this`trace
      ensures Valid()
      ensures leftMotor == 0 && rightMotor == 0
      ensures speed == Effective(old(speed))
      ensures trace == old(trace) + MoveEvents(WanderMove(r, forwardDistance), old(speed), forwardDistance)
    {
      var moved: bool;
      if r.choice == 0 {
        moved := Turn(-r.degrees);
      } else if r.choice == 2 {
        moved := Turn(r.degrees);
      } else {
        if forwardDistance > MIDDLE_DISTANCE {
          var moveSteps := r.steps as real / 10.0;  // drawn, then not used
          moved := ForwardSteps(0.5);
        } else {
          if r.side == 0 {
            moved := Turn(-r.degrees);
          } else {
            moved := Turn(r.degrees);
          }
        }
      }
    }

    /**
     * update(): take a reading and react to it, then, in wander mode, make one move.
     */
    method Update(reading: int, r: Draws)
      requires Valid() && DrawsInRange(r)
      modifies this`forwardDistance, this`speed, this`leftMotor, this`rightMotor, this`trace
      ensures Valid()
      ensures forwardDistance == reading
      ensures var halts := action == Wander || (TooClose(reading) && old(leftMotor) > 0 && old(rightMotor) > 0);
        leftMotor == (if halts then 0 else old(leftMotor)) && rightMotor == (if halts then 0 else old(rightMotor))
      ensures speed == if action == Wander then Effective(old(speed)) else old(speed)
      ensures trace == old(trace) + UpdateEvents(reading, lightsAuto, old(leftMotor), old(rightMotor), action, r, old(speed))
    {
      React(reading);
      ghost var reacted := trace;
      if action == Wander {
        DoWander(r);
      }
      ghost var front := [GetDistance(FORWARD_DIRECTION, reading)] + UpdateLights(reading, lightsAuto);
      ghost var halted := UpdateHalt(reading, old(leftMotor), old(rightMotor));
      ghost var steps := if action == Wander then MoveEvents(WanderMove(r, reading), old(speed), reading) else [];
      assert trace == reacted + steps;
      assert UpdateMotion(reading, old(leftMotor), old(rightMotor), action, r, old(speed)) == halted + steps;
      Regroup(old(trace), [GetDistance(FORWARD_DIRECTION, reading)], UpdateLights(reading, lightsAuto));
      Regroup(old(trace) + front, halted, steps);
      Regroup(old(trace), front, halted + steps);
    }

    /**
     * The first part of update(): take a reading; within the safety band halt a robot whose motors
     * are both flagged forward; in automatic lighting colour the LEDs by the reading.
     */
    method React(reading: int)
      requires Valid()
      modifies this`forwardDistance, this`leftMotor, this`rightMotor, this`trace
      ensures Valid()
      ensures forwardDistance == reading
      ensures var halts := TooClose(reading) && old(leftMotor) > 0 && old(rightMotor) > 0;
        leftMotor == (if halts then 0 else old(leftMotor)) && rightMotor == (if halts then 0 else old(rightMotor))
      ensures trace == old(trace) + [GetDistance(FORWARD_DIRECTION, reading)] + UpdateLights(reading, lightsAuto)
                       + UpdateHalt(reading, old(leftMotor), old(rightMotor))
    {
      forwardDistance := reading;
      trace := trace + [GetDistance(FORWARD_DIRECTION, reading)];
      ghost var sensed := trace;
      if forwardDistance <= TOO_CLOSE && forwardDistance > 1 {
        if lightsAuto {
          SetLights(AllLights, Red);
          Regroup(sensed, LightEvents(AllLights, Red), [Show]);
        }
        assert trace == sensed + UpdateLights(reading, lightsAuto);
        if leftMotor > 0 && rightMotor > 0 {
          Halt();
        }
      } else if forwardDistance > TOO_CLOSE && forwardDistance < MIDDLE_DISTANCE {
        if lightsAuto {
          SetLights(AllLights, Blue);
          Regroup(sensed, LightEvents(AllLights, Blue), [Show]);
        }
        assert trace == sensed + UpdateLights(reading, lightsAuto);
      } else {
        if lightsAuto {
          SetLights(AllLights, Green);
          Regroup(sensed, LightEvents(AllLights, Green), [Show]);
        }
        assert trace == sensed + UpdateLights(reading, lightsAuto);
      }
    }

    /** set_lights(): set every listed LED that exists (0 to 3) to the colour, then show. */
    method SetLights(lights: seq<int>, colour: Colour)
      requires Valid()
      modifies this`trace
      ensures Valid()
      ensures trace == old(trace) + LightEvents(lights, colour) + [Show]
    {
      for k := 0 to |lights|
        invariant trace == old(trace) + LightEvents(lights[..k], colour)
      {
        if lights[k] >= 0 && lights[k] <= 3 {
          trace := trace + [SetLed(lights[k], colour)];
        }
        assert lights[..k + 1][..k] == lights[..k];
      }
      assert lights[..|lights|] == lights;
      trace := trace + [Show];
    }

    /** lights_off(): clear the four LEDs, then show. */
    method LightsOff()
      requires Valid()
      modifies this`trace
      ensures Valid()
      ensures trace == old(trace) + ClearEvents
    {
      for light := 0 to 4
        invariant trace == old(trace) + ClearEvents[..light]
      {
        trace := trace + [ClearLed(light)];
        assert ClearEvents[..light + 1] == ClearEvents[..light] + [ClearLed(light)];
      }
      trace := trace + [Show];
      assert ClearEvents == ClearEvents[..4] + [Show];
    }

    /** set_direction(): accepted only for headings in [0, 360). */
    method SetDirection(newDirection: real) returns (ok: bool)
      requires Valid()
      modifies this`direction
      ensures Valid()
      ensures ok <==> 0.0 <= newDirection < 360.0
      ensures direction == if ok then newDirection else old(direction)
    {
      if newDirection >= 0.0 && newDirection < 360.0 {
        direction := newDirection;
        return true;
      }
      return false;
    }

    method SetCoordinates(newX: real, newY: real) returns (ok: bool)
      requires Valid()
      modifies this`x, this`y
      ensures Valid()
      ensures ok && x == newX && y == newY
    {
      x := newX;
      y := newY;
      return true;
    }

    /** set_speed(): accept a percentage and re-engage the flagged motors at it; refuse anything else. */
    method SetSpeed(newSpeed: int) returns (ok: bool)
      requires Valid()
      modifies this`speed, this`trace
      ensures Valid()
      ensures ok <==> 0 <= newSpeed <= 100
      ensures speed == if ok then newSpeed else old(speed)
      ensures trace == old(trace) + if ok then SetSpeedEvents(leftMotor, rightMotor, newSpeed) else []
    {
      if newSpeed >= 0 && newSpeed <= 100 {
        speed := newSpeed;
        ghost var e1 := if leftMotor < 0 then MotorOn(Left, REVERSE_DIRECTION, speed)
                        else if leftMotor > 0 then MotorOn(Left, FORWARD_DIRECTION, speed)
                        else MotorOff(Left);
        if leftMotor < 0 {
          trace := trace + [MotorOn(Left, REVERSE_DIRECTION, speed)];
        } else if leftMotor > 0 {
          trace := trace + [MotorOn(Left, FORWARD_DIRECTION, speed)];
        } else {
          trace := trace + [MotorOff(Left)];
        }
        ghost var e2 := if rightMotor < 0 then MotorOn(Right, REVERSE_DIRECTION, speed)
                        else if leftMotor > 0 then MotorOn(Right, FORWARD_DIRECTION, speed)
                        else MotorOff(Right);
        if rightMotor < 0 {
          trace := trace + [MotorOn(Right, REVERSE_DIRECTION, speed)];
        } else if leftMotor > 0 {
          trace := trace + [MotorOn(Right, FORWARD_DIRECTION, speed)];
        } else {
          trace := trace + [MotorOff(Right)];
        }
        LastForPush(old(trace), e1, Motor(Left));
        LastForPush(old(trace) + [e1], e2, Motor(Left));
        LastForPush(old(trace) + [e1], e2, Motor(Right));
        assert trace == old(trace) + [e1] + [e2];
        return true;
      }
      return false;
    }

    method Honk()
      requires Valid()
      modifies this`trace
      ensures Valid()
      ensures trace == old(trace) + [BeepHorn]
    {
      trace := trace + [BeepHorn];
      LastForPush(old(trace), BeepHorn, Motor(Left));
      LastForPush(old(trace), BeepHorn, Motor(Right));
    }

    method EnterManualMode()
      requires Valid()
      modifies this`action, this`leftMotor, this`rightMotor, this`trace
      ensures Valid()
      ensures action == Manual && leftMotor == 0 && rightMotor == 0
      ensures trace == old(trace) + HaltEvents
      ensures Stopped(trace, Left) && Stopped(trace, Right)
    {
      action := Manual;
      Halt();
    }

    method EnterWanderMode()
      requires Valid()
      modifies this`action, this`leftMotor, this`rightMotor, this`trace
      ensures Valid()
      ensures action == Wander && leftMotor == 0 && rightMotor == 0
      ensures trace == old(trace) + HaltEvents
      ensures Stopped(trace, Left) && Stopped(trace, Right)
    {
      Halt();
      action := Wander;
    }

    /**
     * forward(): when the cached reading shows a clear path, make sure a speed is set, flag both
     * motors forward and engage them; otherwise refuse and change nothing.
     */
    method Forward() returns (ok: bool)
      requires Valid()
      modifies this`speed, this`leftMotor, this`rightMotor, this`trace
      ensures Valid()
      ensures ok <==> PathClear(forwardDistance)
      ensures ok ==> speed == Effective(old(speed)) && leftMotor == 1 && rightMotor == 1
      ensures !ok ==> speed == old(speed) && leftMotor == old(leftMotor) && rightMotor == old(rightMotor)
      ensures trace == old(trace) + ForwardEvents(old(speed), old(leftMotor), old(rightMotor), forwardDistance)
    {
      var distance := forwardDistance;
      if distance > MIDDLE_DISTANCE || distance < 0 {
        if speed <= 0 {
          var _ := SetSpeed(DEFAULT_SPEED);
        }
        leftMotor := 1;
        rightMotor := 1;
        trace := trace + [MotorOn(Right, FORWARD_DIRECTION, speed)];
        trace := trace + [MotorOn(Left, FORWARD_DIRECTION, speed)];
        return true;
      } else {
        return false;
      }
    }

    /** forward_steps(n): halt; for 0.3 <= n <= 10 set a speed, then drive (100 / speed) * n / 2 seconds if forward() agrees. */
    method ForwardSteps(steps: real) returns (ok: bool)
      requires Valid()
      modifies this`speed, this`leftMotor, this`rightMotor, this`trace
      ensures Valid()
      ensures ok <==> ValidSteps(steps) && PathClear(forwardDistance)
      ensures leftMotor == 0 && rightMotor == 0
      ensures speed == if ValidSteps(steps) then Effective(old(speed)) else old(speed)
      ensures trace == old(trace) + ForwardStepsEvents(steps, old(speed), forwardDistance)
    {
      Halt();
      ghost var t0 := trace;
      if steps < 0.3 || steps > 10.0 {
        return false;
      }
      if speed <= 0 {
        var _ := SetSpeed(DEFAULT_SPEED);
      }
      ghost var t1 := trace;
      assert t1 == t0 + Throttle(old(speed), 0, 0);
      var timeToWait := (100.0 / speed as real) * steps;
      timeToWait := timeToWait / 2.0;
      assert speed == Effective(old(speed));
      assert timeToWait == StepTime(Effective(old(speed)), steps);
      ok := Forward();
      ghost var t2 := trace;
      assert t2 == t1 + ForwardEvents(Effective(old(speed)), 0, 0, forwardDistance);
      if ok {
        trace := trace + [Sleep(timeToWait)];
        ghost var t3 := trace;
        Halt();
        assert trace == t3 + HaltEvents;
        assert trace == t2 + ([Sleep(StepTime(Effective(old(speed)), steps))] + HaltEvents);
      }
      ghost var tail := if PathClear(forwardDistance) then [Sleep(StepTime(Effective(old(speed)), steps))] + HaltEvents else [];
      assert trace == t2 + tail;
      Regroup(old(trace), HaltEvents, Throttle(old(speed), 0, 0));
      Regroup(old(trace), HaltEvents + Throttle(old(speed), 0, 0), ForwardEvents(Effective(old(speed)), 0, 0, forwardDistance));
      Regroup(old(trace), HaltEvents + Throttle(old(speed), 0, 0) + ForwardEvents(Effective(old(speed)), 0, 0, forwardDistance), tail);
    }

    /** reverse(): make sure a speed is set, flag both motors backwards and engage them; never refuses. */
    method Reverse() returns (ok: bool)
      requires Valid()
      modifies this`speed, this`leftMotor, this`rightMotor, this`trace
      ensures Valid()
      ensures ok
      ensures speed == Effective(old(speed)) && leftMotor == -1 && rightMotor == -1
      ensures trace == old(trace) + ReverseEvents(old(speed), old(leftMotor), old(rightMotor))
    {
      if speed <= 0 {
        var _ := SetSpeed(DEFAULT_SPEED);
      }
      leftMotor := -1;
      rightMotor := -1;
      trace := trace + [MotorOn(Right, REVERSE_DIRECTION, speed)];
      trace := trace + [MotorOn(Left, REVERSE_DIRECTION, speed)];
      return true;
    }

    /**
     * reverse_steps(n): like forward_steps, but reverse() always agrees, so the pause and the
     * final halt that the source makes on its success always happen.
     */
    method ReverseSteps(steps: real) returns (ok: bool)
      requires Valid()
      modifies this`speed, this`leftMotor, this`rightMotor, this`trace
      ensures Valid()
      ensures ok <==> ValidSteps(steps)
      ensures leftMotor == 0 && rightMotor == 0
      ensures speed == if ValidSteps(steps) then Effective(old(speed)) else old(speed)
      ensures trace == old(trace) + ReverseStepsEvents(steps, old(speed))
    {
      Halt();
      ghost var t0 := trace;
      if steps < 0.3 || steps > 10.0 {
        return false;
      }
      if speed <= 0 {
        var _ := SetSpeed(DEFAULT_SPEED);
      }
      ghost var t1 := trace;
      assert t1 == t0 + Throttle(old(speed), 0, 0);
      var timeToWait := (100.0 / speed as real) * steps;
      timeToWait := timeToWait / 2.0;
      assert speed == Effective(old(speed));
      assert timeToWait == StepTime(Effective(old(speed)), steps);
      ok := Reverse();
      ghost var t2 := trace;
      assert t2 == t1 + ReverseEvents(Effective(old(speed)), 0, 0);
      trace := trace + [Sleep(timeToWait)];
      ghost var t3 := trace;
      Halt();
      assert trace == t3 + HaltEvents;
      ghost var tail := [Sleep(StepTime(Effective(old(speed)), steps))] + HaltEvents;
      assert trace == t2 + tail;
      Regroup(old(trace), HaltEvents, Throttle(old(speed), 0, 0));
      Regroup(old(trace), HaltEvents + Throttle(old(speed), 0, 0), ReverseEvents(Effective(old(speed)), 0, 0));
      Regroup(old(trace), HaltEvents + Throttle(old(speed), 0, 0) + ReverseEvents(Effective(old(speed)), 0, 0), tail);
    }

    /**
     * spin(): halt, make sure a speed is set and engage one motor forward, the right one for "r"
     * and the left one otherwise.  The flags stay 0 although a motor is running.
     */
    method Spin(leftRight: string)
      requires Valid()
      modifies this`speed, this`leftMotor, this`rightMotor, this`trace
      ensures Valid()
      ensures leftMotor == 0 && rightMotor == 0
      ensures speed == Effective(old(speed))
      ensures trace == old(trace) + SpinEvents(leftRight, old(speed))
    {
      Halt();
      if speed <= 0 {
        var _ := SetSpeed(DEFAULT_SPEED);
      }
      if leftRight == "r" {
        trace := trace + [MotorOn(Right, FORWARD_DIRECTION, speed)];
      } else {
        trace := trace + [MotorOn(Left, FORWARD_DIRECTION, speed)];
      }
    }

    /**
     * turn(degrees): halt; for -359 <= degrees <= 359 spin left (negative) or right, sleep
     * |degrees| / DEGREES_PER_SECOND seconds and halt.  The heading and position are not updated.
     */
    method Turn(degrees: int) returns (ok: bool)
      requires Valid()
      modifies this`speed, this`leftMotor, this`rightMotor, this`trace
      ensures Valid()
      ensures ok <==> ValidDegrees(degrees)
      ensures leftMotor == 0 && rightMotor == 0
      ensures speed == if ok then Effective(old(speed)) else old(speed)
      ensures trace == old(trace) + TurnEvents(degrees, old(speed))
    {
      Halt();
      if degrees > 359 || degrees < -359 {
        return false;
      }
      var degreesToTurn := Abs(degrees);
      var sleepTime := degreesToTurn as real / DEGREES_PER_SECOND;
      ghost var leftRight := if degrees < 0 then "l" else "r";
      if degrees < 0 {
        Spin("l");
      } else {
        Spin("r");
      }
      ghost var spun := trace;
      trace := trace + [Sleep(sleepTime)];
      Halt();
      assert trace == spun + [Sleep(TurnTime(degrees))] + HaltEvents;
      Regroup(old(trace), HaltEvents, SpinEvents(leftRight, old(speed)));
      Regroup(old(trace), HaltEvents + SpinEvents(leftRight, old(speed)), [Sleep(TurnTime(degrees))]);
      Regroup(old(trace), HaltEvents + SpinEvents(leftRight, old(speed)) + [Sleep(TurnTime(degrees))], HaltEvents);
      return true;
    }
  }
}
