/**
 * The text command interpreter of main.py: one line from the client is split into words, the
 * verb is lower-cased and looked up in an if/elif chain, and the matching handler acts on the
 * shared state (the blink counter, the Pico's LED and the robot) and produces the reply.
 */
module CommandServer {
  import opened Wrappers
  import opened Text
  import Buggy
  import RobotModel

  /** The verbs of the dispatch chain, in the order the chain tests them. */
  datatype Command =
    | Nothing
    | Distance | Echo | Exit | Forward | Halt | Hello | Help | Honk | Blink | Light | Lights
    | Reverse | Sleep | Speed | Spin | Status | Temp | Turn
    | Unrecognized

  const Verbs: set<string> := {
    "distance", "echo", "exit", "forward", "halt", "hello", "help", "honk", "blink", "light",
    "lights", "reverse", "sleep", "speed", "spin", "status", "temp", "turn"
  }

  /** What one command line leads to: a reply and whether to keep serving, or an uncaught exception. */
  datatype Outcome = Answer(reply: string, keepRunning: bool) | Raised(token: string)

  const NOTHING_RECEIVED: string := "Nothing received\n"
  const NOT_RECOGNIZED: string := "Command not recognized.\n"
  const GOOD_BYE: string := "Good-bye\n"

  /** The word each verb is spelled with. */
  function VerbName(c: Command): string
    requires !c.Nothing? && !c.Unrecognized?
  {
    match c
    case Distance => "distance"
    case Echo => "echo"
    case Exit => "exit"
    case Forward => "forward"
    case Halt => "halt"
    case Hello => "hello"
    case Help => "help"
    case Honk => "honk"
    case Blink => "blink"
    case Light => "light"
    case Lights => "lights"
    case Reverse => "reverse"
    case Sleep => "sleep"
    case Speed => "speed"
    case Spin => "spin"
    case Status => "status"
    case Temp => "temp"
    case Turn => "turn"
  }

  /** The if/elif chain of parse_incoming_command on the lower-cased verb. */
  function VerbCommand(cmd: string): (c: Command)
    ensures !c.Nothing?
    ensures c.Unrecognized? <==> cmd !in Verbs
    ensures !c.Unrecognized? ==> VerbName(c) == cmd
  {
    if cmd == "distance" then Distance
    else if cmd == "echo" then Echo
    else if cmd == "exit" then Exit
    else if cmd == "forward" then Forward
    else if cmd == "halt" then Halt
    else if cmd == "hello" then Hello
    else if cmd == "help" then Help
    else if cmd == "honk" then Honk
    else if cmd == "blink" then Blink
    else if cmd == "light" then Light
    else if cmd == "lights" then Lights
    else if cmd == "reverse" then Reverse
    else if cmd == "sleep" then Sleep
    else if cmd == "speed" then Speed
    else if cmd == "spin" then Spin
    else if cmd == "status" then Status
    else if cmd == "temp" then Temp
    else if cmd == "turn" then Turn
    else Unrecognized
  }

  /** Each verb's word is dispatched to that verb. */
  lemma VerbRoundTrip(c: Command)
    requires !c.Nothing? && !c.Unrecognized?
    ensures VerbCommand(VerbName(c)) == c
  {
  }

  /** The words of a command line as parse_incoming_command classifies them. */
  function Classify(words: seq<string>): (c: Command)
    ensures c.Nothing? <==> words == []
    ensures c.Exit? <==> words != [] && Lower(words[0]) == "exit"
    ensures c.Unrecognized? <==> words != [] && Lower(words[0]) !in Verbs
  {
    if words == [] then Nothing else VerbCommand(Lower(words[0]))
  }

  /** The verb is matched whatever its case: lowering it first changes nothing. */
  lemma {:induction false} ClassifyIgnoresCase(words: seq<string>)
    requires words != []
    ensures Classify([Lower(words[0])] + words[1..]) == Classify(words)
  {
    LowerIdempotent(words[0]);
  }

  /** The command a received line asks for; only a blank line asks for nothing. */
  function CommandOf(line: string): (c: Command)
    ensures c.Nothing? <==> Blank(line)
  {
    Classify(Split(line))
  }

  /** The commands answered with a fixed reply, without touching the Pico's or the robot's state. */
  predicate Plain(c: Command) {
    c.Nothing? || c.Echo? || c.Exit? || c.Hello? || c.Help? || c.Sleep? || c.Temp? || c.Unrecognized?
  }

  /**
   * The replies to those commands; echo repeats the whole line received, sleep ends with its
   * waking reply, and only exit closes the connection.
   */
  function PlainReply(c: Command, line: string, temperatureReply: string): (o: Outcome)
    requires Plain(c)
    ensures o.Answer? && (o.keepRunning <==> !c.Exit?)
    ensures c.Nothing? ==> o.reply == NOTHING_RECEIVED
    ensures c.Unrecognized? ==> o.reply == NOT_RECOGNIZED
    ensures c.Exit? ==> o.reply == GOOD_BYE
    ensures c.Echo? ==> o.reply == line + "\n"
    ensures c.Hello? ==> o.reply == "Hello\n"
    ensures c.Help? ==> o.reply == HelpText()
    ensures c.Sleep? ==> o.reply == "Waking.\n"
    ensures c.Temp? ==> o.reply == temperatureReply
  {
    match c
    case Nothing => Answer(NOTHING_RECEIVED, true)
    case Echo => Answer(line + "\n", true)
    case Exit => Answer(GOOD_BYE, false)
    case Hello => Answer("Hello\n", true)
    case Help => Answer(HelpText(), true)
    case Sleep => Answer("Waking.\n", true)
    case Temp => Answer(temperatureReply, true)
    case Unrecognized => Answer(NOT_RECOGNIZED, true)
  }

  /** n line breaks. */
  function Breaks(n: nat): string {
    if n == 0 then "" else "\n" + Breaks(n - 1)
  }

  /** One line of the help reply, written as its words joined by single spaces. */
  function HelpLine(words: seq<string>, breaks: nat): string {
    Join(words) + Breaks(breaks)
  }

  /** The reply to "help": what the Pico and the robot know how to do. */
  function HelpText(): string {
    HelpLine(["Tasks", "the", "Pico", "knows", "how", "to", "do:"], 2)
    + HelpLine(["blink", "[times]", "-", "toggle", "LED", "on/off", "<times>", "or", "enable/disable", "if", "not", "number", "specified"], 1)
    + HelpLine(["echo", "[text]", "-", "repeats", "text", "back", "to", "client"], 1)
    + HelpLine(["hello", "-", "say", "Hello", "to", "the", "client"], 1)
    + HelpLine(["help", "-", "show", "this", "list", "of", "commands"], 1)
    + HelpLine(["light", "<on/off>", "-", "turn", "the", "LED", "on", "or", "off"], 1)
    + HelpLine(["sleep", "<seconds>", "-", "wait"], 1)
    + HelpLine(["temp", "-", "try", "to", "sense", "temperature", "(somewhat", "inaccurate)"], 1)
    + HelpLine(["exit", "-", "disconnect", "client"], 2)
    + HelpLine(["Tasks", "the", "robot", "knows", "how", "to", "do:"], 2)
    + HelpLine(["distance", "-", "distance", "to", "nearest", "object", "in", "cm"], 1)
    + HelpLine(["forward", "[steps]", "-", "move", "the", "buggy", "forward", "until", "it", "reaches", "a", "wall."], 1)
    + HelpLine(["halt", "-", "come", "to", "a", "complete", "stop"], 1)
    + HelpLine(["honk", "-", "beep", "the", "horn"], 1)
    + HelpLine(["lights", "<colour>", "-", "change", "the", "colour", "of", "the", "LED", "lights", "on", "the", "buggy"], 1)
    + HelpLine(["reverse", "-", "move", "the", "buggy", "backwards"], 1)
    + HelpLine(["speed", "[new_speed]", "-", "get", "the", "current", "speed", "or", "set", "engines", "to", "a", "new", "speed"], 1)
    + HelpLine(["spin", "<left/right>", "-", "spin", "the", "buggy", "in", "place"], 1)
    + HelpLine(["status", "-", "get", "status", "report", "from", "the", "buggy"], 1)
    + HelpLine(["turn", "<degrees>", "-", "turn", "the", "buggy", "left", "or", "right", "a", "number", "of", "degrees"], 1)
    + HelpLine([], 1)
  }

  /** One engine's line of the status report. */
  function EngineState(flag: int): (state: string)
    ensures state == "off" <==> flag == 0
    ensures state == "reverse" <==> flag < 0
    ensures state == "forward" <==> flag > 0
  {
    if flag == 0 then "off"
    else if flag < 0 then
      assert "reverse"[0] != "off"[0] && "reverse"[0] != "forward"[0];
      "reverse"
    else
      assert "forward"[0] != "off"[0];
      "forward"
  }

  /** get_status(): speed, both engines and the cached distance. */
  function StatusReport(speed: int, left: int, right: int, distance: int): string {
    "Status report from buggy...\n"
    + "Speed: " + IntToString(speed) + "\n"
    + "Left engine: " + EngineState(left) + "\n"
    + "Right engine: " + EngineState(right) + "\n"
    + "Distance to nearest object: " + IntToString(distance) + "cm\n"
  }

  /** The colour each name of change_lights stands for; the names are matched exactly. */
  function ColourNamed(name: string): (c: Option<Buggy.Colour>)
    ensures c == Some(Buggy.Red) <==> name == "red"
    ensures c == Some(Buggy.Yellow) <==> name == "yellow"
    ensures c == Some(Buggy.Green) <==> name == "green"
    ensures c == Some(Buggy.Blue) <==> name == "blue"
    ensures c == Some(Buggy.Purple) <==> name == "purple"
  {
    if name == "red" then Some(Buggy.Red)
    else if name == "yellow" then Some(Buggy.Yellow)
    else if name == "green" then Some(Buggy.Green)
    else if name == "blue" then Some(Buggy.Blue)
    else if name == "purple" then Some(Buggy.Purple)
    else None
  }

  /** What light_on_off() replies and the level it drives the Pico's LED to, if any. */
  datatype LedCommand = LedCommand(reply: string, level: Option<bool>)

  function LightOnOff(args: seq<string>): (r: LedCommand)
    ensures r.level == Some(true) <==> |args| >= 2 && args[1] == "on"
    ensures r.level == Some(false) <==> |args| >= 2 && args[1] == "off"
    ensures r.level == Some(true) ==> r.reply == "Turned on LED.\n"
    ensures r.level == Some(false) ==> r.reply == "Turned off LED.\n"
    ensures |args| < 2 ==> r.reply == "Turn light on or off?\n"
    ensures |args| >= 2 && r.level.None? ==> r.reply == "Command " + args[1] + " not recognized.\n"
  {
    if |args| >= 2 then
      if args[1] == "on" then LedCommand("Turned on LED.\n", Some(true))
      else if args[1] == "off" then LedCommand("Turned off LED.\n", Some(false))
      else LedCommand("Command " + args[1] + " not recognized.\n", None)
    else LedCommand("Turn light on or off?\n", None)
  }

  /** One call of do_blinking(): a positive counter counts down by one, any other value stays. */
  function BlinkStep(counter: int): int {
    if counter > 0 then counter - 1 else counter
  }

  /** The counter after some number of do_blinking() calls. */
  function BlinkAfter(counter: int, calls: nat): int {
    if calls == 0 then counter else BlinkAfter(BlinkStep(counter), calls - 1)
  }

  /**
   * A counter of n blinks reaches 0 after exactly n calls and then stays there; a negative
   * counter (blink forever) never changes.
   */
  lemma {:induction false} BlinkCountsDown(counter: int, calls: nat)
    ensures counter >= 0 ==> BlinkAfter(counter, calls) == if calls <= counter then counter - calls else 0
    ensures counter < 0 ==> BlinkAfter(counter, calls) == counter
  {
    if calls > 0 {
      BlinkCountsDown(BlinkStep(counter), calls - 1);
    }
  }

  /** spin_buggy()'s choice: the direction letter the robot is given and the reply. */
  function SpinChoice(args: seq<string>): (choice: (string, string))
    ensures choice.0 == "l" <==> |args| >= 2 && args[1] == "left"
    ensures choice.0 == "r" <==> !(|args| >= 2 && args[1] == "left")
    ensures choice.1 == if choice.0 == "l" then "Spinning buggy to the left.\n" else "Spinning buggy to the right.\n"
  {
    if |args| >= 2 && args[1] == "left" then ("l", "Spinning buggy to the left.\n")
    else ("r", "Spinning buggy to the right.\n")
  }

  /** What change_lights() is asked to do. */
  datatype LightsChoice = Usage | Paint(colour: Buggy.Colour) | Off | Auto | UnknownColour(word: string)

  /**
   * The argument read as change_lights() reads it: the five colour names first, then "off",
   * then "auto" or "on"; the comparison is exact, so "Red" is an unknown colour.
   */
  function LightsChoiceOf(args: seq<string>): (choice: LightsChoice)
    ensures choice.Usage? <==> |args| < 2
    ensures choice.Paint? <==> |args| >= 2 && ColourNamed(args[1]).Some?
    ensures choice.Paint? ==> choice.colour == ColourNamed(args[1]).value
    ensures choice.Off? <==> |args| >= 2 && args[1] == "off"
    ensures choice.Auto? <==> |args| >= 2 && (args[1] == "auto" || args[1] == "on")
    ensures choice.UnknownColour? ==> choice.word == args[1]
  {
    if |args| < 2 then Usage
    else
      match ColourNamed(args[1])
      case Some(colour) => Paint(colour)
      case None =>
        if args[1] == "off" then Off
        else if args[1] == "auto" || args[1] == "on" then Auto
        else UnknownColour(args[1])
  }

  /** change_lights()'s reply. */
  function LightsReply(args: seq<string>): string {
    match LightsChoiceOf(args)
    case Usage =>
      "Please provide the light colour, such as red, yellow, green, blue, or purple.\n"
      + "You can use on or auto to enable automatic lighting or off to disable lights.\n"
    case Paint(_) => "Setting the lights to " + args[1] + "\n"
    case Off => "Turning off buggy lights.\n"
    case Auto => "Turning on buggy lights and settings to automatic.\n"
    case UnknownColour(word) => "I did not understand the colour " + word + "\n"
  }

  /**
   * The reply forward and turn give, without moving the buggy, to an argument that is not all
   * digits; "-45" and "0.4" are refused like any other word.
   */
  function Rejection(c: Command, words: seq<string>): (r: Option<string>)
    ensures r.Some? <==> (c.Forward? || c.Turn?) && |words| >= 2 && !IsNumeric(words[1])
    ensures r.Some? && c.Forward? ==> r.value == "I did not understand " + words[1] + " steps.\n"
    ensures r.Some? && c.Turn? ==> r.value == "I did not understand " + words[1] + ". Please use a number.\n"
  {
    if |words| < 2 || IsNumeric(words[1]) then None
    else if c.Forward? then Some("I did not understand " + words[1] + " steps.\n")
    else if c.Turn? then Some("I did not understand " + words[1] + ". Please use a number.\n")
    else None
  }

  /** The commands that move the buggy, all handed to one of the motion handlers. */
  predicate Moves(c: Command) {
    c.Forward? || c.Halt? || c.Reverse? || c.Spin? || c.Turn?
  }

  class Server {
    /** The global pico_blinking: blinks still to make, or -1 to blink without end. */
    var picoBlinking: int
    /** The level of the Pico's on-board LED. */
    var ledOn: bool
    const robot: RobotModel.Robot

    ghost predicate Valid()
      reads this, robot
    {
      robot.Valid()
    }

    /** The module's start-up state: the counter at 0 and a freshly built robot. */
    constructor (reading: int, ledLevel: bool)
      ensures Valid() && fresh(robot)
      ensures picoBlinking == 0 && ledOn == ledLevel
      ensures robot.x == 0.0 && robot.y == 0.0 && robot.direction == 0.0 && robot.speed == 0
      ensures robot.leftMotor == 0 && robot.rightMotor == 0
      ensures robot.action == RobotModel.Manual && robot.lightsAuto && robot.forwardDistance == reading
      ensures robot.trace == RobotModel.HaltEvents + RobotModel.ResetEvents(reading) + [Buggy.SetUnits("cm")]
    {
      picoBlinking := 0;
      ledOn := ledLevel;
      robot := new RobotModel.Robot(reading);
    }

    /** The Pico's counter and LED are as they were. */
    twostate predicate PicoKept()
      reads this
    {
      picoBlinking == old(picoBlinking) && ledOn == old(ledOn)
    }

    /** Every field of the robot a command may change is as it was, and no driver call was made. */
    twostate predicate RobotKept()
      reads robot
    {
      robot.speed == old(robot.speed) && robot.leftMotor == old(robot.leftMotor)
      && robot.rightMotor == old(robot.rightMotor) && robot.lightsAuto == old(robot.lightsAuto)
      && robot.forwardDistance == old(robot.forwardDistance) && robot.trace == old(robot.trace)
    }

    /** The robot's speed and motor flags are as they were. */
    twostate predicate MotionKept()
      reads robot
    {
      robot.speed == old(robot.speed) && robot.leftMotor == old(robot.leftMotor) && robot.rightMotor == old(robot.rightMotor)
    }

    /** The robot's lighting mode and cached distance are as they were. */
    twostate predicate LightingKept()
      reads robot
    {
      robot.lightsAuto == old(robot.lightsAuto) && robot.forwardDistance == old(robot.forwardDistance)
    }

    /** do_blinking(): toggle the LED and count down when positive, toggle forever when negative. */
    method DoBlinking()
      modifies this`picoBlinking, this`ledOn
      ensures picoBlinking == BlinkStep(old(picoBlinking))
      ensures ledOn == if old(picoBlinking) != 0 then !old(ledOn) else old(ledOn)
    {
      if picoBlinking > 0 {
        ledOn := !ledOn;
        picoBlinking := picoBlinking - 1;
      } else if picoBlinking < 0 {
        ledOn := !ledOn;
      }
    }

    /** Reset_Everything(): stop blinking, light the LED, clear the buggy's lights and halt. */
    method ResetEverything()
      requires Valid()
      modifies this`picoBlinking, this`ledOn, robot`leftMotor, robot`rightMotor, robot`trace
      ensures Valid()
      ensures picoBlinking == 0 && ledOn
      ensures robot.leftMotor == 0 && robot.rightMotor == 0
      ensures robot.trace == old(robot.trace) + RobotModel.ClearEvents + RobotModel.HaltEvents
    {
      picoBlinking := 0;
      ledOn := true;
      robot.LightsOff();
      robot.Halt();
    }

    /**
     * What blink() does: with an argument, int() of it becomes the counter (an argument int()
     * rejects is reported and changes nothing); without one, toggle between off (0) and endless (-1).
     */
    twostate predicate Blinked(args: seq<string>, reply: string)
      reads this
    {
      (|args| >= 2 && ParseInt(args[1]).Some? ==>
         picoBlinking == ParseInt(args[1]).value && reply == "Blinking " + IntToString(picoBlinking) + " times.\n")
      && (|args| >= 2 && ParseInt(args[1]).None? ==>
            picoBlinking == old(picoBlinking) && reply == "I did not understand " + args[1] + "\n")
      && (|args| < 2 && old(picoBlinking) == 0 ==> picoBlinking == -1 && reply == "Blinking is now enabled.\n")
      && (|args| < 2 && old(picoBlinking) != 0 ==> picoBlinking == 0 && reply == "Blinking is now disabled.\n")
    }

    method DoBlink(args: seq<string>) returns (reply: string)
      modifies this`picoBlinking
      ensures Blinked(args, reply)
    {
      if |args| >= 2 {
        match ParseInt(args[1])
        case Some(times) =>
          reply := "Blinking " + IntToString(times) + " times.\n";
          picoBlinking := times;
        case None =>
          reply := "I did not understand " + args[1] + "\n";
      } else {
        if picoBlinking == 0 {
          picoBlinking := -1;
          reply := "Blinking is now enabled.\n";
        } else {
          picoBlinking := 0;
          reply := "Blinking is now disabled.\n";
        }
      }
    }

    /** What light_on_off() does: its reply, and the LED driven to the level it names, if any. */
    twostate predicate LightSwitched(args: seq<string>, reply: string)
      reads this
    {
      reply == LightOnOff(args).reply
      && ledOn == if LightOnOff(args).level.Some? then LightOnOff(args).level.value else old(ledOn)
    }

    /**
     * What change_lights() does: a colour name switches automatic lighting off and colours the
     * four LEDs; "off" switches it off and clears them; "auto" or "on" switches it back on;
     * anything else, or no argument, only replies.
     */
    twostate predicate LightsChanged(args: seq<string>, reply: string)
      reads robot
    {
      reply == LightsReply(args)
      && match LightsChoiceOf(args)
         case Paint(colour) =>
           !robot.lightsAuto
           && robot.trace == old(robot.trace) + RobotModel.LightEvents(RobotModel.AllLights, colour) + [Buggy.Show]
         case Off => !robot.lightsAuto && robot.trace == old(robot.trace) + RobotModel.ClearEvents
         case Auto => robot.lightsAuto && robot.trace == old(robot.trace)
         case _ => robot.lightsAuto == old(robot.lightsAuto) && robot.trace == old(robot.trace)
    }

    method ChangeLights(args: seq<string>) returns (reply: string)
      requires Valid()
      modifies robot`lightsAuto, robot`trace
      ensures Valid()
      ensures LightsChanged(args, reply)
    {
      reply := LightsReply(args);
      match LightsChoiceOf(args)
      case Paint(colour) =>
        robot.lightsAuto := false;
        robot.SetLights(RobotModel.AllLights, colour);
      case Off =>
        robot.lightsAuto := false;
        robot.LightsOff();
      case Auto =>
        robot.lightsAuto := true;
      case _ =>
    }

    /** What get_distance() does: read the forward sensor and report the reading. */
    twostate predicate Sensed(reading: int, reply: string)
      reads robot
    {
      robot.forwardDistance == reading
      && robot.trace == old(robot.trace) + [Buggy.GetDistance(RobotModel.FORWARD_DIRECTION, reading)]
      && reply == "Distance to nearest object is " + IntToString(reading) + ".\n"
    }

    method GetDistance(reading: int) returns (reply: string)
      requires Valid()
      modifies robot`forwardDistance, robot`trace
      ensures Valid()
      ensures Sensed(reading, reply)
    {
      var distance := robot.GetForwardDistance(reading);
      reply := "Distance to nearest object is " + IntToString(distance) + ".\n";
    }

    /** What the honk command does: one horn call. */
    twostate predicate Honked(reply: string)
      reads robot
    {
      robot.trace == old(robot.trace) + [Buggy.BeepHorn] && reply == "Beep beep\n"
    }

    /** What spin_buggy() does: spin to the right unless the argument is exactly "left". */
    twostate predicate Spun(args: seq<string>, reply: string)
      reads robot
    {
      robot.leftMotor == 0 && robot.rightMotor == 0 && robot.speed == RobotModel.Effective(old(robot.speed))
      && robot.trace == old(robot.trace) + RobotModel.SpinEvents(SpinChoice(args).0, old(robot.speed))
      && reply == SpinChoice(args).1
    }

    method SpinBuggy(args: seq<string>) returns (reply: string)
      requires Valid()
      modifies robot`speed, robot`leftMotor, robot`rightMotor, robot`trace
      ensures Valid()
      ensures Spun(args, reply)
    {
      var (direction, text) := SpinChoice(args);
      robot.Spin(direction);
      reply := text;
    }

    /**
     * What turn_buggy() does: only an all-digit argument reaches the robot; a missing or other
     * argument (a leading minus sign included) is answered without moving.
     */
    twostate predicate Turned(args: seq<string>, reply: string)
      reads robot
    {
      (|args| < 2 ==>
         RobotKept() && reply == "Please specify how many degrees to turn. Negative degrees for left.\n")
      && (|args| >= 2 && !IsNumeric(args[1]) ==>
            RobotKept() && reply == "I did not understand " + args[1] + ". Please use a number.\n")
      && (|args| >= 2 && IsNumeric(args[1]) ==>
            var degrees := DigitsValue(args[1]);
            robot.leftMotor == 0 && robot.rightMotor == 0
            && robot.speed == (if RobotModel.ValidDegrees(degrees) then RobotModel.Effective(old(robot.speed)) else old(robot.speed))
            && robot.trace == old(robot.trace) + RobotModel.TurnEvents(degrees, old(robot.speed))
            && reply == if RobotModel.ValidDegrees(degrees) then "Turning buggy " + IntToString(degrees) + ".\n"
                        else "The buggy ran into a problem trying to turn.\n")
    }

    method TurnBuggy(args: seq<string>) returns (reply: string)
      requires Valid()
      modifies robot`speed, robot`leftMotor, robot`rightMotor, robot`trace
      ensures Valid()
      ensures Turned(args, reply)
    {
      if |args| < 2 {
        return "Please specify how many degrees to turn. Negative degrees for left.\n";
      }
      if !IsNumeric(args[1]) {
        return "I did not understand " + args[1] + ". Please use a number.\n";
      }
      var degrees := DigitsValue(args[1]);
      var ok := robot.Turn(degrees);
      if ok {
        reply := "Turning buggy " + IntToString(degrees) + ".\n";
      } else {
        reply := "The buggy ran into a problem trying to turn.\n";
      }
    }

    /** What halt_buggy() does. */
    twostate predicate Halted(reply: string)
      reads robot
    {
      robot.leftMotor == 0 && robot.rightMotor == 0 && robot.speed == old(robot.speed)
      && robot.trace == old(robot.trace) + RobotModel.HaltEvents
      && reply == "Coming to a stop.\n"
    }

    method HaltBuggy() returns (reply: string)
      requires Valid()
      modifies robot`leftMotor, robot`rightMotor, robot`trace
      ensures Valid()
      ensures Halted(reply)
    {
      robot.Halt();
      reply := "Coming to a stop.\n";
    }

    /**
     * What move_forward() does: without an argument drive until told otherwise; with an
     * all-digit argument move that many steps; any other argument is answered without moving.
     */
    twostate predicate MovedForward(args: seq<string>, reply: string)
      reads robot
    {
      (|args| < 2 ==>
         robot.trace == old(robot.trace)
           + RobotModel.ForwardEvents(old(robot.speed), old(robot.leftMotor), old(robot.rightMotor), robot.forwardDistance)
         && (RobotModel.PathClear(robot.forwardDistance) ==>
               robot.speed == RobotModel.Effective(old(robot.speed)) && robot.leftMotor == 1 && robot.rightMotor == 1
               && reply == "Moving forward.\n")
         && (!RobotModel.PathClear(robot.forwardDistance) ==>
               MotionKept() && reply == "Cannot move forward, something is in the way.\n"))
      && (|args| >= 2 && IsNumeric(args[1]) ==>
            var steps := DigitsValue(args[1]) as real;
            robot.leftMotor == 0 && robot.rightMotor == 0
            && robot.speed == (if RobotModel.ValidSteps(steps) then RobotModel.Effective(old(robot.speed)) else old(robot.speed))
            && robot.trace == old(robot.trace) + RobotModel.ForwardStepsEvents(steps, old(robot.speed), robot.forwardDistance)
            && reply == if RobotModel.ValidSteps(steps) && RobotModel.PathClear(robot.forwardDistance)
                        then "Moved forward " + args[1] + " steps.\n"
                        else "Something is in the way, cannot move forward.\n")
      && (|args| >= 2 && !IsNumeric(args[1]) ==>
            RobotKept() && reply == "I did not understand " + args[1] + " steps.\n")
    }

    method MoveForward(args: seq<string>) returns (reply: string)
      requires Valid()
      modifies robot`speed, robot`leftMotor, robot`rightMotor, robot`trace
      ensures Valid()
      ensures MovedForward(args, reply)
    {
      if |args| < 2 {
        var ok := robot.Forward();
        if ok {
          reply := "Moving forward.\n";
        } else {
          reply := "Cannot move forward, something is in the way.\n";
        }
      } else if IsNumeric(args[1]) {
        var steps := DigitsValue(args[1]);
        var ok := robot.ForwardSteps(steps as real);
        if ok {
          reply := "Moved forward " + args[1] + " steps.\n";
        } else {
          reply := "Something is in the way, cannot move forward.\n";
        }
      } else {
        reply := "I did not understand " + args[1] + " steps.\n";
      }
    }

    /** What move_reverse() does: reverse never refuses, so the reply is always the same. */
    twostate predicate Reversed(reply: string)
      reads robot
    {
      robot.leftMotor == -1 && robot.rightMotor == -1 && robot.speed == RobotModel.Effective(old(robot.speed))
      && robot.trace == old(robot.trace) + RobotModel.ReverseEvents(old(robot.speed), old(robot.leftMotor), old(robot.rightMotor))
      && reply == "Moving in reverse.\n"
    }

    method MoveReverse() returns (reply: string)
      requires Valid()
      modifies robot`speed, robot`leftMotor, robot`rightMotor, robot`trace
      ensures Valid()
      ensures Reversed(reply)
    {
      var ok := robot.Reverse();
      reply := if ok then "Moving in reverse.\n" else "Cannot move in reverse.\n";
    }

    /**
     * What set_speed() does: report the speed without an argument; otherwise int() of the
     * argument, which raises on anything but an integer, and the range check.
     */
    twostate predicate SpeedSet(args: seq<string>, o: Outcome)
      reads robot
    {
      (|args| < 2 ==> RobotKept() && o == Answer("Current speed: " + IntToString(robot.speed) + "\n", true))
      && (|args| >= 2 && ParseInt(args[1]).None? ==> RobotKept() && o == Raised(args[1]))
      && (|args| >= 2 && ParseInt(args[1]).Some? ==>
            var n := ParseInt(args[1]).value;
            (!(0 <= n <= 100) ==> RobotKept() && o == Answer("Speed needs to be in the range of 0-100\n", true))
            && (0 <= n <= 100 ==>
                  robot.speed == n
                  && robot.trace == old(robot.trace) + RobotModel.SetSpeedEvents(robot.leftMotor, robot.rightMotor, n)
                  && o == Answer("Set new speed to " + IntToString(n) + "\n", true)))
    }

    method SetSpeedCommand(args: seq<string>) returns (o: Outcome)
      requires Valid()
      modifies robot`speed, robot`trace
      ensures Valid()
      ensures SpeedSet(args, o)
    {
      if |args| < 2 {
        var current := robot.speed;
        return Answer("Current speed: " + IntToString(current) + "\n", true);
      }
      match ParseInt(args[1])
      case None =>
        o := Raised(args[1]);
      case Some(n) =>
        if n < 0 || n > 100 {
          o := Answer("Speed needs to be in the range of 0-100\n", true);
        } else {
          var _ := robot.SetSpeed(n);
          o := Answer("Set new speed to " + IntToString(n) + "\n", true);
        }
    }

    /** Each motion verb reaches its own handler and does what that handler does. */
    twostate predicate DriveDispatched(c: Command, words: seq<string>, reply: string)
      reads robot
    {
      (c.Forward? ==> MovedForward(words, reply)) && (c.Halt? ==> Halted(reply))
      && (c.Reverse? ==> Reversed(reply)) && (c.Spin? ==> Spun(words, reply))
      && (c.Turn? ==> Turned(words, reply))
    }

    /** Blink and light act on the Pico alone, each through its own handler. */
    twostate predicate PicoDispatched(c: Command, words: seq<string>, o: Outcome)
      reads this
    {
      o.Answer? && o.keepRunning
      && (c.Blink? ==> Blinked(words, o.reply) && ledOn == old(ledOn))
      && (c.Light? ==> LightSwitched(words, o.reply) && picoBlinking == old(picoBlinking))
    }

    /**
     * Each robot verb reaches its own handler, does what that handler does and leaves the rest of
     * the robot alone; only speed can raise.
     */
    twostate predicate RobotDispatched(c: Command, words: seq<string>, reading: int, o: Outcome)
      reads robot
    {
      (c.Speed? ==>
         SpeedSet(words, o) && robot.leftMotor == old(robot.leftMotor) && robot.rightMotor == old(robot.rightMotor)
         && LightingKept())
      && (!c.Speed? ==> o.Answer? && o.keepRunning)
      && (c.Distance? ==> Sensed(reading, o.reply) && MotionKept() && robot.lightsAuto == old(robot.lightsAuto))
      && (c.Honk? ==> Honked(o.reply) && MotionKept() && LightingKept())
      && (c.Lights? ==> LightsChanged(words, o.reply) && MotionKept() && robot.forwardDistance == old(robot.forwardDistance))
      && (Moves(c) ==> DriveDispatched(c, words, o.reply) && LightingKept())
    }

    /** What one stateful command does, by verb; status only reports. */
    twostate predicate Dispatched(c: Command, words: seq<string>, reading: int, o: Outcome)
      reads this, robot
    {
      if c.Status? then
        o == Answer(StatusReport(robot.speed, robot.leftMotor, robot.rightMotor, robot.forwardDistance), true)
        && PicoKept() && RobotKept()
      else if c.Blink? || c.Light? then PicoDispatched(c, words, o) && RobotKept()
      else RobotDispatched(c, words, reading, o) && PicoKept()
    }

    /**
     * parse_incoming_command(): split the line, lower-case the verb and hand the words to its
     * handler.  The outcome is the reply sent back and whether the connection stays open, or
     * the token set_speed's int() raised on.  The temperature reading is passed in as its reply.
     */
    method ParseIncomingCommand(command: string, reading: int, temperatureReply: string) returns (o: Outcome)
      requires Valid()
      modifies this`picoBlinking, this`ledOn, robot`speed, robot`leftMotor, robot`rightMotor, robot`lightsAuto,
        robot`forwardDistance, robot`trace
      ensures Valid()
      ensures Plain(CommandOf(command)) ==>
        o == PlainReply(CommandOf(command), command, temperatureReply) && unchanged(this) && unchanged(robot)
      ensures !Plain(CommandOf(command)) ==> Dispatched(CommandOf(command), Split(command), reading, o)
      ensures Rejection(CommandOf(command), Split(command)).Some? ==>
        o == Answer(Rejection(CommandOf(command), Split(command)).value, true) && PicoKept() && RobotKept()
      ensures o.Answer? ==> (o.keepRunning <==> !CommandOf(command).Exit?)
      ensures o.Raised? ==> CommandOf(command).Speed?
    {
      var words := Split(command);
      var c := CommandOf(command);
      if Plain(c) {
        assert Rejection(c, words).None?;
        o := PlainReply(c, command, temperatureReply);
      } else {
        o := Act(c, words, reading);
      }
    }

    /** The commands that read or change the Pico's or the robot's state. */
    method Act(c: Command, words: seq<string>, reading: int) returns (o: Outcome)
      requires Valid()
      requires !Plain(c)
      modifies this`picoBlinking, this`ledOn, robot`speed, robot`leftMotor, robot`rightMotor, robot`lightsAuto,
        robot`forwardDistance, robot`trace
      ensures Valid()
      ensures Dispatched(c, words, reading, o)
      ensures Rejection(c, words).Some? ==> o == Answer(Rejection(c, words).value, true) && PicoKept() && RobotKept()
      ensures o.Answer? ==> o.keepRunning
      ensures o.Raised? ==> c.Speed?
    {
      if c.Status? {
        o := Answer(StatusReport(robot.speed, robot.leftMotor, robot.rightMotor, robot.forwardDistance), true);
      } else if c.Blink? || c.Light? {
        o := PicoCommand(c, words);
      } else {
        o := RobotCommand(c, words, reading);
      }
    }

    /** The commands addressed to the Pico itself: its blink counter and its LED. */
    method PicoCommand(c: Command, words: seq<string>) returns (o: Outcome)
      requires c.Blink? || c.Light?
      modifies this`picoBlinking, this`ledOn
      ensures PicoDispatched(c, words, o)
    {
      if c.Blink? {
        var reply := DoBlink(words);
        o := Answer(reply, true);
      } else {
        var led := LightOnOff(words);
        if led.level.Some? {
          ledOn := led.level.value;
        }
        o := Answer(led.reply, true);
      }
    }

    /** The commands addressed to the robot; only set_speed's int() can raise. */
    method RobotCommand(c: Command, words: seq<string>, reading: int) returns (o: Outcome)
      requires Valid()
      requires !Plain(c) && !c.Status? && !c.Blink? && !c.Light?
      modifies robot`speed, robot`leftMotor, robot`rightMotor, robot`lightsAuto, robot`forwardDistance, robot`trace
      ensures Valid()
      ensures RobotDispatched(c, words, reading, o)
      ensures Rejection(c, words).Some? ==> o == Answer(Rejection(c, words).value, true) && RobotKept()
      ensures o.Raised? ==> c.Speed?
    {
      if Moves(c) {
        var reply := Drive(c, words);
        o := Answer(reply, true);
      } else if c.Distance? || c.Honk? || c.Lights? {
        var reply := Attend(c, words, reading);
        o := Answer(reply, true);
      } else {
        o := SetSpeedCommand(words);
      }
    }

    /** The robot commands that read the sensor, sound the horn or set the lights. */
    method Attend(c: Command, words: seq<string>, reading: int) returns (reply: string)
      requires Valid()
      requires c.Distance? || c.Honk? || c.Lights?
      modifies robot`lightsAuto, robot`forwardDistance, robot`trace
      ensures Valid()
      ensures RobotDispatched(c, words, reading, Answer(reply, true))
    {
      if c.Distance? {
        reply := GetDistance(reading);
      } else if c.Honk? {
        robot.Honk();
        reply := "Beep beep\n";
      } else {
        reply := ChangeLights(words);
      }
    }

    /** The commands that move the buggy. */
    method Drive(c: Command, words: seq<string>) returns (reply: string)
      requires Valid()
      requires Moves(c)
      modifies robot`speed, robot`leftMotor, robot`rightMotor, robot`trace
      ensures Valid()
      ensures DriveDispatched(c, words, reply)
      ensures Rejection(c, words).Some? ==> reply == Rejection(c, words).value && RobotKept()
    {
      if c.Forward? {
        reply := MoveForward(words);
      } else if c.Halt? {
        reply := HaltBuggy();
      } else if c.Reverse? {
        reply := MoveReverse();
      } else if c.Spin? {
        reply := SpinBuggy(words);
      } else {
        reply := TurnBuggy(words);
      }
    }
  }
}
