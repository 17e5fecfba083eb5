# RobotServer in Dafny

RobotServer runs on a Raspberry Pi Pico mounted on a Kitronik autonomous-robotics buggy. A
client connects over the network and sends one text line at a time. The server splits the line
into words and dispatches on the lower-cased verb. The handler drives the `Robot` controller and
the reply goes back to the client. A game-controller remote turns its button presses and stick
deflections into such lines.

The project is organised in these modules:

- **`RobotModel`** (robot.dfy) is the `Robot` controller class of robot.py. It is a Dafny `class`
  with the controller's fields: pose, speed, the two motor flags, action, lighting mode and the
  cached distance. The Kitronik driver is a ghost `trace` of the calls made to it, oldest first,
  and `time.sleep` pauses appear in the same trace. Every method states its new fields and the
  events it appends. Event functions (`ForwardEvents`, `TurnEvents`, `UpdateEvents`, ...) give
  those events. Lemmas say what the events leave each motor and each LED doing.
- **`Buggy`** (buggy.dfy) holds the driver's event vocabulary and `LastFor`. `LastFor` is what a
  device was last told; a set of replay lemmas goes with it.
- **`CommandServer`** (server.dfy) is the command interpreter of main.py. A `Server` class holds
  the blink counter `pico_blinking`, the level of the Pico's on-board LED and the robot. The
  handlers are methods. Their reply texts and argument checks are functions with their own
  contracts. What each handler does to the state is a two-state predicate (`Blinked`, `Spun`,
  `MovedForward`, ...) that the handler ensures. `ParseIncomingCommand` ties them together: its
  `Dispatched` clause says, verb by verb, which handler's predicate holds and which fields stay as
  they were. It returns either a reply with the keep-running flag, or `Raised(token)` when
  set_speed's unguarded `int()` would raise.
- **`Text`** (text.dfy) gives the MicroPython string operations the interpreter relies on:
  `str.split()`, `str.lower()`, `str.isnumeric()`, `int()` and `str()` of an integer.
- **`Remote`** (remote.dfy) covers the remote's `button_to_message` and its stick rule, and what
  the interpreter makes of the lines they send.

Sensor readings, the `random.randint` draws of wander() and the temperature reply are parameters.

## Model

| member | source | states |
|---|---|---|
| RobotModel.Effective | robot.py:217-218 | the power a primitive drives at is positive: the speed when set, DEFAULT_SPEED (50) when the speed is 0 or less |
| RobotModel.UpdateColour | robot.py:103-116 | red exactly in the band 1 < d <= 30, blue exactly for 30 < d < 60, green exactly for d <= 1 or d >= 60 |
| RobotModel.TurnTimeCovers | robot.py:308-310 | turn()'s pause times the turning rate 432 deg/s is exactly the angle's size, and it is under a second for every accepted angle |
| RobotModel.StepTimeScales | robot.py:240-243 | the step pause (100/speed)*n/2 times the speed is 50*n, and it is positive for a positive number of steps |
| RobotModel.SetSpeedFlagTest | robot.py:162-179 | set_speed's re-engage calls equal the by-own-flag ones when the flags agree; with left +1 and right 0 they differ, because line 174 tests the left flag for the right motor |
| RobotModel.WanderMove | robot.py:73-99 | choice 0 turns left by the drawn angle and 2 turns right; 1 and 3 step 0.5 forward exactly when distance > 60, otherwise turn the way the side draw says; every turn is 60 to 90 degrees |
| RobotModel.LightEventsOnlyLeds | robot.py:122-127 | set_lights addresses only LEDs 0..3, only indices it was given, and only in the given colour |
| RobotModel.LightEventsLeaveMotors | robot.py:122-127 | set_lights never addresses a motor |
| RobotModel.AllLightsInOrder | robot.py:122-127 | set_lights([0,1,2,3], c) sets LEDs 0, 1, 2, 3 to c in that order |
| RobotModel.AllLightsSet | robot.py:122-127 | after set_lights([0,1,2,3], c) each of the four LEDs was last set to c |
| RobotModel.ResetLightsGreen | robot.py:50-61 | after reset() each of the four LEDs was last set to green |
| RobotModel.AllLightsCleared | robot.py:130-133 | after lights_off() each of the four LEDs was last cleared |
| RobotModel.ForwardEngages | robot.py:212-227 | with a clear path forward() leaves both motors running forward at the effective speed; otherwise it makes no driver call |
| RobotModel.ReverseEngages | robot.py:252-260 | reverse() leaves both motors running backwards at the effective speed |
| RobotModel.SpinEngages | robot.py:284-294 | spin() leaves the chosen motor running forward at the effective speed and the other motor stopped |
| RobotModel.MotionPrimitives | robot.py:73-99 | a wander move makes motor calls and pauses only |
| RobotModel.HaltStops | robot.py:64-68 | after halt() both motors were last told to stop |
| RobotModel.TurnEndsStopped | robot.py:301-317 | turn() ends with both motors told to stop, for an accepted or a refused angle |
| RobotModel.ForwardStepsEndsStopped | robot.py:233-248 | forward_steps() ends with both motors told to stop, on every path |
| RobotModel.ReverseStepsEndsStopped | robot.py:265-280 | reverse_steps() ends with both motors told to stop |
| RobotModel.MoveEndsStopped | robot.py:73-99 | every wander move ends with both motors told to stop |
| RobotModel.UpdateMotionOnly | robot.py:106-118 | after its colours, update() makes motor calls and pauses only |
| RobotModel.UpdateLightsOnlyLeds | robot.py:103-116 | update()'s LED calls exist exactly under automatic lighting; they address only LEDs 0..3, all in the colour for the reading, and end with show |
| RobotModel.UpdateColoursLeds | robot.py:102-116 | with automatic lighting an update() leaves all four LEDs showing the colour for the reading |
| RobotModel.UpdateKeepsManualLeds | robot.py:102-116 | with automatic lighting off an update() leaves every LED as it was |
| RobotModel.UpdateStops | robot.py:102-118 | an update() that halts, or that wanders, leaves both motors told to stop |
| RobotModel.Robot.constructor | robot.py:42-47 | the new robot is halted and reset: pose and speed 0, flags 0, manual, automatic lighting, distance units set to cm |
| RobotModel.Robot.GetMode | robot.py:186-190 | "Wander" exactly in wander mode and "Manual" exactly in manual mode |
| RobotModel.Robot.GetForwardDistance | robot.py:204-207 | reads the forward sensor, caches the reading and returns it |
| RobotModel.Robot.Reset | robot.py:50-61 | x = y = direction = 0, speed 0, manual mode, automatic lighting, the reading cached, and the reset calls on the driver |
| RobotModel.Robot.Halt | robot.py:64-68 | both flags 0, both motors told to stop, nothing else changed |
| RobotModel.Robot.DoWander | robot.py:73-99 | makes exactly the calls of WanderMove's move and ends with both flags 0 |
| RobotModel.Robot.Update | robot.py:102-118 | the reading cached; a halt exactly in the band with both flags forward, or by wandering; the calls are UpdateEvents |
| RobotModel.Robot.React | robot.py:103-115 | the reading, the colours when lighting is automatic, and the halt in the band when both flags are forward |
| RobotModel.Robot.SetLights | robot.py:122-127 | appends the set calls for the in-range indices, then show |
| RobotModel.Robot.LightsOff | robot.py:130-133 | clears LEDs 0..3, then show |
| RobotModel.Robot.SetDirection | robot.py:140-144 | succeeds exactly for 0 <= d < 360 and stores d; otherwise the direction is unchanged |
| RobotModel.Robot.SetCoordinates | robot.py:152-155 | always succeeds and stores both coordinates |
| RobotModel.Robot.SetSpeed | robot.py:162-179 | succeeds exactly for 0 <= s <= 100 and stores s; the flags never change; the re-engage calls only on success |
| RobotModel.Robot.Honk | robot.py:182-183 | one horn call |
| RobotModel.Robot.EnterManualMode | robot.py:194-196 | manual mode, halted, both motors told to stop |
| RobotModel.Robot.EnterWanderMode | robot.py:199-201 | wander mode, halted, both motors told to stop |
| RobotModel.Robot.Forward | robot.py:212-227 | succeeds exactly when the cached distance is > 60 or < 0; then speed is effective and both flags +1; on failure nothing changes |
| RobotModel.Robot.ForwardSteps | robot.py:233-248 | succeeds exactly for 0.3 <= n <= 10.0 with a clear path; both flags 0 on every path; speed made positive for every valid n |
| RobotModel.Robot.Reverse | robot.py:252-260 | always succeeds; speed effective and both flags -1 |
| RobotModel.Robot.ReverseSteps | robot.py:265-280 | succeeds exactly for 0.3 <= n <= 10.0; both flags 0 on every path |
| RobotModel.Robot.Spin | robot.py:284-294 | leaves both flags 0 while a motor runs (SpinEngages); speed effective |
| RobotModel.Robot.Turn | robot.py:301-317 | succeeds exactly for -359 <= d <= 359; both flags 0; pose untouched |
| Buggy.LastFor | robot.py:44 | the last call addressed to a device is addressed to it and occurs in the trace |
| Buggy.LastForAppend | robot.py:44 | a later call to a device overrides every earlier one |
| Buggy.UntouchedHasNoLast | robot.py:44 | a device has no last call exactly when nothing in the trace addresses it |
| Buggy.UntouchedKeeps | robot.py:44 | calls that do not address a device leave its last call unchanged |
| Text.WordLength | main.py:338 | the length of the leading run of non-whitespace characters |
| Text.Split | main.py:338 | every piece is a non-empty run of non-whitespace, and the result is empty exactly for a blank line |
| Text.SplitJoin | main.py:338 | splitting words joined by single spaces gives back the words |
| Text.SplitBlankPrefix | main.py:338 | leading whitespace does not change the split |
| Text.SplitLayout | main.py:338 | any whitespace before the words, non-empty whitespace between them and any whitespace after (such as a closing "\r\n") gives back exactly the words, in order |
| Text.SplitTwoWordLine | main.py:338 | "verb arg\n" splits into [verb, arg] |
| Text.Lower | main.py:343 | lower() keeps the length and lowers each character |
| Text.LowerIdempotent | main.py:343 | lowering twice is lowering once |
| Text.NatToString | main.py:109 | str() of a natural number is all digits with no leading zero |
| Text.IntToString | main.py:109 | str() of an integer is all digits, after a minus sign when negative; ParseIntToString reads it back |
| Text.ParseInt | main.py:108 | int() accepts all-digit tokens and signed runs of digits, with their values (negated after '-'), and nothing else |
| Text.ParseIntToString | main.py:108-109 | int(str(n)) == n for every integer |
| CommandServer.VerbCommand | main.py:347-386 | a word outside the chain's eighteen verbs is unrecognized, and each verb of the chain is dispatched to itself |
| CommandServer.VerbRoundTrip | main.py:344-386 | every verb's word is dispatched back to that verb |
| CommandServer.Classify | main.py:338-353 | no words means nothing received; exit exactly when the lowered verb is "exit"; unrecognized exactly when it is not in the chain |
| CommandServer.ClassifyIgnoresCase | main.py:342-343 | lowering the verb first changes nothing |
| CommandServer.CommandOf | main.py:338-345 | only a blank line asks for nothing |
| CommandServer.PlainReply | main.py:345-386 | the fixed replies, echo repeating the line, and keepRunning false exactly for exit |
| CommandServer.EngineState | main.py:318-331 | "off" exactly for 0, "reverse" exactly for < 0, "forward" exactly for > 0 |
| CommandServer.ColourNamed | main.py:167-176 | each of the five colour names, matched exactly, stands for its colour |
| CommandServer.LightOnOff | main.py:143-155 | "on" sets the LED on with "Turned on LED.", "off" sets it off with "Turned off LED."; any other argument is reported as not recognized and no argument asks for one, both leaving the LED alone |
| CommandServer.BlinkCountsDown | main.py:70-79 | a counter n >= 0 reaches 0 after exactly n calls and stays; a negative counter never changes |
| CommandServer.SpinChoice | main.py:221-232 | spin left exactly for the argument "left", otherwise right, with the matching reply |
| CommandServer.LightsChoiceOf | main.py:159-192 | usage without an argument; the colour names; "off"; "auto" or "on"; anything else is an unknown colour |
| CommandServer.Rejection | main.py:241-281 | forward and turn refuse exactly an argument that is not all digits, with their replies |
| CommandServer.Server.constructor | main.py:16-21 | the counter at 0, the LED at its start-up level, and the robot as its constructor leaves it: pose and speed 0, flags 0, manual, automatic lighting, the reading cached, and its driver calls |
| CommandServer.Server.DoBlinking | main.py:70-79 | a positive counter counts down by one and toggles the LED; a negative one toggles only; 0 does nothing |
| CommandServer.Server.ResetEverything | main.py:83-90 | counter 0, LED on, the buggy's lights cleared and the robot halted |
| CommandServer.Server.DoBlink | main.py:103-123 | (Blinked) an int() argument becomes the counter; an unparsable one is reported and changes nothing; no argument toggles 0 to -1 and anything else to 0 |
| CommandServer.Server.ChangeLights | main.py:159-192 | (LightsChanged) the reply is LightsReply; a colour switches automatic lighting off and colours LEDs 0..3; "off" switches it off and clears them; "auto"/"on" switch it on; otherwise nothing changes |
| CommandServer.Server.GetDistance | main.py:214-218 | (Sensed) the reading cached and recorded, and reported in the reply |
| CommandServer.Server.SpinBuggy | main.py:221-232 | (Spun) spins the chosen way with the matching reply; both flags 0; speed made effective |
| CommandServer.Server.TurnBuggy | main.py:235-251 | (Turned) only an all-digit argument reaches the robot, with flags 0, speed made effective for an accepted angle, and the turn's calls; a missing or other argument leaves the robot unchanged; each case's reply |
| CommandServer.Server.HaltBuggy | main.py:255-259 | (Halted) flags 0, speed kept, the halt calls, and the reply "Coming to a stop." |
| CommandServer.Server.MoveForward | main.py:262-283 | (MovedForward) no argument drives forward: on a clear path speed effective and both flags +1, otherwise speed and flags kept; an all-digit argument moves that many steps with flags 0 and speed effective for a valid count; any other argument leaves the robot unchanged; each case's reply |
| CommandServer.Server.MoveReverse | main.py:288-295 | (Reversed) both flags -1, speed effective, the reverse calls, and always the reply "Moving in reverse." |
| CommandServer.Server.SetSpeedCommand | main.py:299-311 | (SpeedSet) no argument reports the speed; a non-integer raises; out of 0..100 is refused with speed unchanged; otherwise stored |
| CommandServer.Server.ParseIncomingCommand | main.py:336-389 | the fixed replies without a state change; every stateful verb does what its own handler does and leaves the rest alone (Dispatched); forward/turn refusals without moving; keep running exactly unless exit; only speed can raise |
| CommandServer.Server.Act | main.py:344-386 | status reports without a change, and each other stateful verb is handed to its handler (Dispatched) |
| CommandServer.Server.PicoCommand | main.py:365-368 | blink does what blink() does with the LED kept; light does what light_on_off() does with the counter kept (PicoDispatched) |
| CommandServer.Server.RobotCommand | main.py:347-384 | distance, honk, lights, speed and the motion verbs each do what their handler does and keep the robot fields that handler leaves alone; only speed raises (RobotDispatched) |
| CommandServer.Server.Attend | main.py:347-369 | distance reads the sensor, honk makes one horn call with "Beep beep", lights does what change_lights() does |
| CommandServer.Server.Drive | main.py:354-384 | forward, halt, reverse, spin and turn each do what their own handler does (DriveDispatched); the forward/turn refusals leave the robot unchanged |
| Remote.ButtonToMessage | remote.py:53-72 | buttons 0-3 send the light colours, 4 "wander", 5 "home", 6-7 "halt", 8-9 "exit", all others " \n"; every message ends in a newline |
| Remote.ColourButtons | remote.py:55-62 | each colour button's line splits into "lights" and a colour the interpreter knows, the button's colour |
| Remote.OtherButtons | remote.py:63-72 | wander and home are unrecognized by the interpreter, the triggers halt, +/- exit, and the others send a blank line |
| Remote.RemoteOnlyVerbs | remote.py:63-66 | "wander" and "home" are not in the interpreter's chain |
| Remote.StickRuleIsPriority | remote.py:94-146 | the sequential overrides equal the priority order right y, right x, left y, left x; nothing is sent exactly when no axis passes 0.5 |
| Remote.StickSendsTwoWordLines | remote.py:121-140 | every stick line is one of the eight turn or drive lines |
| Remote.TurnStickLines | remote.py:121-134 | a stick turn line splits into "turn" and its angle, and isnumeric accepts exactly the unsigned angles |
| Remote.DriveStickLines | remote.py:127-140 | a stick drive line splits into its verb and a fraction isnumeric rejects |

## Left out

- Networking: `enable_networking`, the socket service, `send`/`recv` and the prompt loop are I/O. The model starts from one received line, and the outcome is the reply text.
- The background thread `Update_Everything` and its interleaving with the server loop: only one `update()` step and one `do_blinking()` call are modelled.
- `sense_temperature` reads the ADC and uses floats. The temp command takes its reply as a parameter.
- `go_to_sleep` parses a float, sends an intermediate reply and sleeps in real time. The sleep command is modelled only by its final "Waking." reply.
- The Pico's LED `Pin` is the `ledOn` field. Its level at start-up is a constructor parameter.
- Sensor readings are integer centimetres, passed in as parameters. `random.randint` results are passed in with their ranges as preconditions.
- Text is ASCII only: whitespace, `lower()`, `isnumeric()` and `int()` ignore non-ASCII letters, digits and spaces, and `int()` does not accept underscores or surrounding blanks inside a token.
- `get_direction`, `get_coordinates` and `get_speed` read a field. Callers read `direction`, `x`, `y` and `speed` directly.
- No dead reckoning is added: turns and steps never touch `direction`, `x` or `y`, as in the source.
- pygame, joystick set-up, the remote's event loop, `connect_to_robot` and signal handling are left out. Only `button_to_message` and the stick rule are modelled.
- CommandServer.HelpText: the help text is reproduced word for word, but nothing is proved about it.
- CommandServer.StatusReport: it has no contract of its own. Its engine lines are stated by EngineState, and its numbers by IntToString.
- RobotModel.Robot.Valid: it bounds the flags to -1..1 and keeps them equal. It does not tie them to the trace; that is stated by the engagement lemmas.
- RobotModel.Robot.ReverseSteps: reverse_steps tests `if status` on reverse(), which always succeeds. The model makes the pause and the final halt unconditionally.

## Observations

What the interpreter makes of the remote's lines:

- The stick's "turn -45", "turn -90", "forward 0.4" and "forward 0.8" are refused by isnumeric and move nothing (TurnStickLines, DriveStickLines, Rejection). "reverse 0.4" and "reverse 0.8" reverse without a step count. "wander" and "home" are answered "Command not recognized."
