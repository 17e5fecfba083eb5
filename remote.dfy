/**
 * The game-controller remote: the text each button sends and the command chosen from the two
 * sticks, together with what the command interpreter makes of those lines.
 */
module Remote {
  import opened Wrappers
  import opened Text
  import Buggy
  import CommandServer

  /** button_to_message(): the command line a button sends; unassigned buttons send a blank line. */
  function ButtonToMessage(button: int): (text: string)
    ensures button == 0 ==> text == "lights yellow\n"
    ensures button == 1 ==> text == "lights blue\n"
    ensures button == 2 ==> text == "lights green\n"
    ensures button == 3 ==> text == "lights red\n"
    ensures button == 4 ==> text == "wander\n"
    ensures button == 5 ==> text == "home\n"
    ensures button == 6 || button == 7 ==> text == "halt\n"
    ensures button == 8 || button == 9 ==> text == "exit\n"
    ensures !(0 <= button <= 9) ==> text == " \n"
    ensures |text| > 0 && text[|text| - 1] == '\n'
  {
    if button == 0 then "lights yellow\n"
    else if button == 1 then "lights blue\n"
    else if button == 2 then "lights green\n"
    else if button == 3 then "lights red\n"
    else if button == 4 then "wander\n"
    else if button == 5 then "home\n"
    else if button == 6 || button == 7 then "halt\n"
    else if button == 8 || button == 9 then "exit\n"
    else " \n"
  }

  /** The colour a button sets the buggy's lights to, for the four colour buttons. */
  function ButtonColour(button: int): Buggy.Colour
    requires 0 <= button <= 3
  {
    if button == 0 then Buggy.Yellow
    else if button == 1 then Buggy.Blue
    else if button == 2 then Buggy.Green
    else Buggy.Red
  }

  /** The verbs the remote sends, as the interpreter classifies them (any arguments after them). */
  lemma LightsVerb(words: seq<string>)
    requires words != [] && words[0] == "lights"
    ensures CommandServer.Classify(words).Lights?
  {
    assert Lower("lights") == "lights";
  }

  lemma HaltVerb(words: seq<string>)
    requires words != [] && words[0] == "halt"
    ensures CommandServer.Classify(words).Halt?
  {
    assert Lower("halt") == "halt";
  }

  lemma ExitVerb(words: seq<string>)
    requires words != [] && words[0] == "exit"
    ensures CommandServer.Classify(words).Exit?
  {
    assert Lower("exit") == "exit";
  }

  lemma TurnVerb(words: seq<string>)
    requires words != [] && words[0] == "turn"
    ensures CommandServer.Classify(words).Turn?
  {
    assert Lower("turn") == "turn";
  }

  lemma ForwardVerb(words: seq<string>)
    requires words != [] && words[0] == "forward"
    ensures CommandServer.Classify(words).Forward?
  {
    assert Lower("forward") == "forward";
  }

  lemma ReverseVerb(words: seq<string>)
    requires words != [] && words[0] == "reverse"
    ensures CommandServer.Classify(words).Reverse?
  {
    assert Lower("reverse") == "reverse";
  }

  /** "wander" and "home" are not in the interpreter's chain. */
  lemma RemoteOnlyVerbs(words: seq<string>)
    requires words != [] && (words[0] == "wander" || words[0] == "home")
    ensures CommandServer.Classify(words).Unrecognized?
  {
    assert Lower("wander") == "wander";
    assert Lower("home") == "home";
  }

  /** A "lights" line naming one word splits into the verb and that word. */
  lemma LightsLine(colour: string)
    requires IsWord(colour)
    ensures var words := Split("lights " + colour + "\n");
      words == ["lights", colour] && CommandServer.Classify(words).Lights?
  {
    assert "lights " + colour + "\n" == "lights" + " " + colour + "\n";
    SplitTwoWordLine("lights", colour);
    LightsVerb(["lights", colour]);
  }

  /** The colour buttons send "lights" commands naming a colour the interpreter knows. */
  lemma ColourButtons(button: int)
    requires 0 <= button <= 3
    ensures var words := Split(ButtonToMessage(button));
      |words| == 2 && CommandServer.Classify(words).Lights?
      && CommandServer.ColourNamed(words[1]) == Some(ButtonColour(button))
  {
    if button == 0 {
      assert ButtonToMessage(0) == "lights " + "yellow" + "\n";
      LightsLine("yellow");
    } else if button == 1 {
      assert ButtonToMessage(1) == "lights " + "blue" + "\n";
      LightsLine("blue");
    } else if button == 2 {
      assert ButtonToMessage(2) == "lights " + "green" + "\n";
      LightsLine("green");
    } else {
      assert ButtonToMessage(3) == "lights " + "red" + "\n";
      LightsLine("red");
    }
  }

  /**
   * The other buttons: wander and home send verbs the interpreter does not recognise, the
   * triggers halt, the +/- buttons disconnect, and every unassigned button sends a blank line.
   */
  lemma OtherButtons(button: int)
    requires !(0 <= button <= 3)
    ensures button == 4 || button == 5 ==> CommandServer.CommandOf(ButtonToMessage(button)).Unrecognized?
    ensures button == 6 || button == 7 ==> CommandServer.CommandOf(ButtonToMessage(button)).Halt?
    ensures button == 8 || button == 9 ==> CommandServer.CommandOf(ButtonToMessage(button)).Exit?
    ensures !(0 <= button <= 9) ==> CommandServer.CommandOf(ButtonToMessage(button)).Nothing?
  {
    var text := ButtonToMessage(button);
    if 4 <= button <= 9 {
      var verb := if button == 4 then "wander" else if button == 5 then "home" else if button <= 7 then "halt" else "exit";
      assert text == verb + "\n";
      SplitWordLine(verb);
      if button <= 5 {
        RemoteOnlyVerbs([verb]);
      } else if button <= 7 {
        HaltVerb([verb]);
      } else {
        ExitVerb([verb]);
      }
    } else {
      assert Blank(text);
    }
  }

  /** A two-word line as the remote writes it. */
  function Line(verb: string, arg: string): string {
    verb + " " + arg + "\n"
  }

  /** The outcome of one stick check: a deflection past 0.5 either way replaces the earlier choice. */
  function Override(earlier: Option<string>, axis: real, negative: string, positive: string): Option<string> {
    if axis < -0.5 then Some(negative)
    else if axis > 0.5 then Some(positive)
    else earlier
  }

  /**
   * The stick rule of the remote's main loop: the four checks run in the order left x, left y,
   * right x, right y, each overriding the ones before; None means nothing is sent.
   */
  function StickCommand(leftX: real, leftY: real, rightX: real, rightY: real): Option<string> {
    var afterLeftX := Override(None, leftX, Line("turn", "-45"), Line("turn", "45"));
    var afterLeftY := Override(afterLeftX, leftY, Line("forward", "0.4"), Line("reverse", "0.4"));
    var afterRightX := Override(afterLeftY, rightX, Line("turn", "-90"), Line("turn", "90"));
    Override(afterRightX, rightY, Line("forward", "0.8"), Line("reverse", "0.8"))
  }

  predicate Deflected(axis: real) {
    axis < -0.5 || axis > 0.5
  }

  /** The same rule read as priorities: the first deflected axis from right y down to left x wins. */
  function StickPriority(leftX: real, leftY: real, rightX: real, rightY: real): Option<string> {
    if Deflected(rightY) then Some(if rightY < -0.5 then Line("forward", "0.8") else Line("reverse", "0.8"))
    else if Deflected(rightX) then Some(if rightX < -0.5 then Line("turn", "-90") else Line("turn", "90"))
    else if Deflected(leftY) then Some(if leftY < -0.5 then Line("forward", "0.4") else Line("reverse", "0.4"))
    else if Deflected(leftX) then Some(if leftX < -0.5 then Line("turn", "-45") else Line("turn", "45"))
    else None
  }

  /** Later checks win: the sequential overrides and the priority order agree on every input. */
  lemma StickRuleIsPriority(leftX: real, leftY: real, rightX: real, rightY: real)
    ensures StickCommand(leftX, leftY, rightX, rightY) == StickPriority(leftX, leftY, rightX, rightY)
    ensures StickCommand(leftX, leftY, rightX, rightY).None? <==>
      !Deflected(leftX) && !Deflected(leftY) && !Deflected(rightX) && !Deflected(rightY)
  {
  }

  /** Every line the sticks send is a turn by one of four angles or a drive by one of two fractions. */
  lemma StickSendsTwoWordLines(leftX: real, leftY: real, rightX: real, rightY: real)
    ensures var sent := StickCommand(leftX, leftY, rightX, rightY);
      sent.Some? ==> sent.value in {
        Line("turn", "-45"), Line("turn", "45"), Line("turn", "-90"), Line("turn", "90"),
        Line("forward", "0.4"), Line("reverse", "0.4"), Line("forward", "0.8"), Line("reverse", "0.8")}
  {
  }

  /**
   * The stick turns: "turn" with a signed angle.  isnumeric() accepts only the unsigned right
   * turns, so the interpreter answers the left turns without moving the buggy.
   */
  lemma TurnStickLines(arg: string)
    requires arg == "-45" || arg == "45" || arg == "-90" || arg == "90"
    ensures var words := Split(Line("turn", arg));
      words == ["turn", arg] && CommandServer.Classify(words).Turn?
      && (IsNumeric(words[1]) <==> arg == "45" || arg == "90")
  {
    SplitTwoWordLine("turn", arg);
    TurnVerb(["turn", arg]);
    assert arg == "-45" || arg == "-90" ==> !IsDigit(arg[0]);
  }

  /**
   * The stick drives: "forward" with a fraction of a step, which isnumeric() rejects, so the
   * interpreter answers without moving; "reverse" with the same, which it ignores.
   */
  lemma DriveStickLines(verb: string, arg: string)
    requires verb == "forward" || verb == "reverse"
    requires arg == "0.4" || arg == "0.8"
    ensures var words := Split(Line(verb, arg));
      words == [verb, arg] && !IsNumeric(words[1])
      && (verb == "forward" ==> CommandServer.Classify(words).Forward?)
      && (verb == "reverse" ==> CommandServer.Classify(words).Reverse?)
  {
    SplitTwoWordLine(verb, arg);
    if verb == "forward" {
      ForwardVerb([verb, arg]);
    } else {
      ReverseVerb([verb, arg]);
    }
    assert !IsDigit(arg[1]);
  }
}
