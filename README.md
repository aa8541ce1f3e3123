# MyRobot tick arbitration (Deep Space 2019 robot)

This project models the control tick of the 2019 competition robot in `robot.py`:
`MyRobot.teleopPeriodic` and its near-copy `autonomousPeriodic`. Every 20 ms tick the
robot decides the power of the cargo lift and the four-bar arm, re-homes the two
encoder counts, runs one pneumatic action and commands the differential drive.

The tick runs its stages in a fixed order. Motor outputs keep the last value set in
the tick, so a later stage overrides an earlier one:

1. **Preset seek.** When `buttonStatusOne` is latched, the lift seeks HatchOne. It
   drives at 0.3 below count 125 and holds at 0.05 at or above it. Otherwise, when
   `buttonStatusThree` is latched, it seeks HatchTwo: 0.5 below 305, 0.05 at or above.
2. **Re-homing.** The lift count is zeroed when the min hall sensor reads False. The
   arm count is zeroed when the limit switch reads False. The preset reads the count
   before this reset.
3. **Test hook** (autonomous only). The game-specific message `"pressure"` starts the
   compressor. `"fourbar"` sets the arm power, which the four-bar stage then overwrites.
4. **Pneumatics.** Eight buttons are checked in a fixed order. Only the first pressed
   one stops or starts the compressor, or sets the gear, claw or ejector solenoid.
5. **Manual lift.** This stage runs only when both toggles are off. It picks hold
   (0.05), else a nonzero up trigger × 0.65, else a nonzero down trigger × −0.25, else 0.
6. **Four-bar.** The hold button gives 0.10. Otherwise the power is −stick × 0.25.
7. **Drive.** Forward is −stick × divisor. The divisor is 0.85 when the gear solenoid
   reads 2 (low gear) and 1.0 otherwise. The solenoid value is read after the pneumatic
   stage. Taking that read to return the value just set, a shift takes effect in the
   same tick. Rotation is stick × 0.75.

Modules:

- `Arbitration` (`arbitration.dfy`): the toggles, the preset table (all six presets,
  including the four no tick calls), and the manual lift, re-homing and arm rules.
- `Pneumatics` (`pneumatics.dfy`): the solenoid codes, the if/elif chain, and a
  reference first-match rule over the ordered button list that the chain is proved
  equal to.
- `Drivetrain` (`drivetrain.dfy`): the divisor, turn divisor, forward and rotation
  commands.
- `Robot` (`robot.dfy`): the tick as pure functions `TeleopStep` and `AutonomousStep`
  over a `State` snapshot, and the class `MyRobot`. Its methods perform the tick field
  by field, in source order, and are proved to leave exactly the state those
  functions describe.
- `Session` (`session.dfy`): runs of consecutive ticks. Between two ticks, the operator
  may press the buttons of `buttonStatusOne` and `buttonStatusThree`, and the encoders
  count pulses. Presses and pulses are supplied as inputs.

Notes on the code's behaviour:

- A preset does not clear its toggle when it reaches its target. `hatchOne` and
  `hatchTwo` only switch to holding power, so an exhausted preset holds until the
  operator unlatches it (`Session.ExhaustedPresetHolds`). Only the presets no tick
  calls (`cargoOne/Two/Three`, `hatchThree`) assign False to a toggle attribute. The
  model treats that as clearing the flag. In the program it replaces the toggle
  object with a plain boolean.
- Nothing resolves two latched toggles by force-resetting one. `buttonStatusOne`
  simply takes precedence.
- The arm count is re-homed when the limit switch reads False. The lift count is
  re-homed when the min hall sensor reads False. These are the raw readings, whatever
  they mean physically.

## Model

| member | source | states |
|---|---|---|
| Arbitration.Toggles.Flip | robot.py:66-72 | a button press inverts that toggle's flag and leaves every other flag as it was |
| Arbitration.Toggles.Clear | robot.py:436-455 | clearing a toggle turns that flag off and leaves every other flag as it was |
| Arbitration.SeekLift | robot.py:436-474 | a preset's power is positive and at most 0.5, and equals the 0.05 holding power exactly when the count is at or above its target |
| Arbitration.ReleaseOnArrival | robot.py:436-474 | HatchOne and HatchTwo never change the toggles; a cargo preset or HatchThree at its target turns off its own toggle (One, Two, Three, Six) and only that one; below target nothing changes |
| Arbitration.ActivePreset | robot.py:532-535 | no preset runs exactly when both toggles are off; HatchOne runs exactly when buttonStatusOne is on; HatchTwo exactly when only buttonStatusThree is on |
| Arbitration.ManualLift | robot.py:608-615 | hold gives 0.05; else a nonzero up trigger gives up × 0.65; else a nonzero down trigger gives −down × 0.25; the manual power is 0 exactly when hold is off and both triggers are 0; with axes in [-1, 1] it lies in [-0.65, 0.65]; with non-negative triggers it is negative exactly when only the down trigger is active |
| Arbitration.LiftCommand | robot.py:532-615 | buttonStatusOne on gives 0.3 below 125 and 0.05 from 125, whatever buttonStatusThree says; else buttonStatusThree on gives 0.5 below 305 and 0.05 from 305; else the manual rule |
| Arbitration.PresetToggles | robot.py:457-467 | the preset stage of a tick leaves every toggle latched |
| Arbitration.Rehome | robot.py:537-541 | a count is zero after re-homing when its sensor reads False, and unchanged when it reads True |
| Arbitration.ArmPower | robot.py:618-623 | the hold button gives 0.10, otherwise −axis × 0.25; the branch that sets 0 is unreachable; with the axis in [-1, 1] the power lies in [-0.25, 0.25] |
| Arbitration.PresetOverridesManual | robot.py:607 | with either toggle on, the hold button and triggers have no effect on the lift command |
| Arbitration.LiftCommandInRange | robot.py:532-615 | with axes in [-1, 1] every lift command lies in [-0.65, 0.65] |
| Arbitration.HoldIsStable | robot.py:457-467 | a preset at or above its target keeps commanding holding power while the count does not fall back |
| Pneumatics.Solenoid.Code | robot.py:636-641 | the solenoid codes are 0 for off, 1 for forward, 2 for reverse, and no other value |
| Pneumatics.Chain | robot.py:588-603 | the chain picks at most one action, and it is one of the eight listed |
| Pneumatics.FirstMatchIsFirst | robot.py:588-603 | the first-match rule yields nothing exactly when no guard holds, and otherwise the action of the lowest-indexed pressed button |
| Pneumatics.ChainIsFirstMatch | robot.py:588-603 | the if/elif chain equals the first-match rule over the order xbox 9, 10, joystick 1, 2, xbox 3, 2, 4, 1 |
| Pneumatics.ChainTakesFirstPressed | robot.py:588-603 | when button i is the first pressed in that order, the chain takes exactly its action |
| Pneumatics.ChainIdleIffNonePressed | robot.py:588-603 | the chain does nothing exactly when none of the eight buttons is pressed |
| Pneumatics.Apply | robot.py:588-603 | stop and start set the compressor off and on, a shift sets the gear solenoid, a claw action the claw solenoid and an ejector action the ejector solenoid, each to the action's value and nothing else; no action changes nothing; at most one device changes |
| Pneumatics.CompressorAfterChain | robot.py:588-591 | xbox 9 stops the compressor; otherwise xbox 10 starts it; otherwise it is left as it was |
| Pneumatics.ClawAfterChain | robot.py:588-599 | with no compressor or shift button pressed, xbox 3 sets the claw solenoid to forward, else xbox 2 to reverse; otherwise the claw is left as it was |
| Pneumatics.EjectorAfterChain | robot.py:588-603 | with none of the six earlier buttons pressed, xbox 4 sets the ejector solenoid to forward, else xbox 1 to reverse; otherwise the ejector is left as it was |
| Pneumatics.GearAfterChain | robot.py:588-595 | the gear changes only through joystick 1 or 2, and only when neither compressor button is pressed; joystick 1 takes precedence over 2 |
| Drivetrain.Divisor | robot.py:636-643 | the divisor lies in [0.85, 1.0] and is below 1.0 exactly in low gear (code 2) |
| Drivetrain.TurnDivisor | robot.py:636-643 | high or low gear sets the turn divisor to 0.8 or 0.75; gear off leaves the previous setting, set or not |
| Drivetrain.DriveForward | robot.py:655 | the forward command has the opposite sign of the stick and is never larger in magnitude |
| Drivetrain.DriveRotation | robot.py:655 | the rotation command has the stick's sign and is never larger in magnitude |
| Drivetrain.LowGearNoFaster | robot.py:636-655 | for the same stick, the low-gear forward magnitude is at most the high-gear one; gear off drives like high gear |
| Drivetrain.FullPushLowGear | robot.py:636-655 | a full forward push (−1.0) in low gear gives a forward command of 0.85 |
| Robot.Periodic | robot.py:532-655 | one tick from a given pneumatic state: the toggles are kept, each count is zeroed exactly when its sensor reads False, at most one pneumatic setting changes, the divisor is 0.85 in low gear and 1.0 otherwise, forward is −stick × divisor and rotation is stick × 0.75 |
| Robot.TeleopStep | robot.py:532-623 | a teleop tick keeps the toggles and changes at most one pneumatic setting; buttonStatusOne gives lift 0.3 below 125 and 0.05 from 125, else buttonStatusThree gives 0.5 below 305 and 0.05 from 305, else the manual rule; the arm gets 0.10 on hold, else −stick × 0.25 |
| Robot.AutonomousStep | robot.py:260-391 | an autonomous tick keeps the toggles, commands the same lift power as teleop, gives the arm 0.10 on hold and −stick × 0.25 otherwise, and equals the teleop tick for any message other than "pressure" |
| Robot.AfterMessage | robot.py:272-275 | the "pressure" message starts the compressor and nothing else changes the solenoids |
| Robot.MyRobot.constructor | robot.py:15-111 | robotInit leaves zero counts, all toggles off, the compressor started, the solenoids off and idle motors |
| Robot.MyRobot.AutonomousInit | robot.py:113-125 | autonomousInit zeroes both the lift and the arm count |
| Robot.MyRobot.TeleopInit | robot.py:393-406 | teleopInit zeroes the lift count and starts the compressor |
| Robot.MyRobot.Press | robot.py:66-72 | a press of a toggle's button between ticks inverts that toggle and nothing else |
| Robot.MyRobot.RunPreset | robot.py:436-474 | a preset helper sets the lift to the seek power for the current count and releases its toggle as ReleaseOnArrival says |
| Robot.MyRobot.SeekPresets | robot.py:532-535 | the preset stage sets the lift from the active preset, leaves it alone when none is latched, and keeps the toggles |
| Robot.MyRobot.RehomeEncoders | robot.py:537-541 | each count is zeroed when its sensor reads False; each reset touches only its own count |
| Robot.MyRobot.Fourbar | robot.py:133-137 | the four-bar test helper sets the arm to 0.25 when the limit switch reads True and to 0 otherwise |
| Robot.MyRobot.TestHook | robot.py:272-277 | "pressure" starts the compressor, "fourbar" runs the four-bar helper, and any other message leaves the state alone |
| Robot.MyRobot.LiftEncoderReset | robot.py:476-487 | the arm goes to −0.2 until its switch reads False, then it stops and the arm count is zeroed; the lift stops, and its count is zeroed when the hall sensor reads False |
| Robot.MyRobot.FourbarReset | robot.py:489-494 | the arm goes to 0.4 until its switch reads False, then it stops and the arm count is zeroed |
| Robot.MyRobot.ApplyPneumatics | robot.py:588-603 | the pneumatic state afterwards is the chain's single action applied to the state before |
| Robot.MyRobot.ManualLiftStage | robot.py:607-615 | with both toggles off the lift takes the manual power; otherwise the preset's value stands |
| Robot.MyRobot.FourBarStage | robot.py:618-623 | the arm power is the hold/axis rule, and it overwrites anything set earlier in the tick |
| Robot.MyRobot.DriveStage | robot.py:632-655 | the divisor, turn divisor and arcade-drive arguments follow the gear solenoid value and the two sticks |
| Robot.MyRobot.TeleopPeriodic | robot.py:408-655 | a teleop tick leaves exactly the state TeleopStep computes from the state before |
| Robot.MyRobot.AutonomousPeriodic | robot.py:127-391 | an autonomous tick leaves exactly the state AutonomousStep computes from the state before |
| Robot.TickKeepsToggles | robot.py:457-467 | neither a teleop nor an autonomous tick ever clears a toggle |
| Robot.TickRehomes | robot.py:537-541 | after a tick, the lift count is 0 when the hall sensor reads False and the arm count is 0 when the switch reads False; a count whose sensor reads True is unchanged; a repeated tick keeps a count at 0 |
| Robot.SeekUsesCountBeforeRehome | robot.py:532-541 | HatchOne at count ≥ 125 with the hall sensor reading False holds at 0.05 in this tick; the count is then 0, so the next tick seeks at 0.3 again |
| Robot.PresetIgnoresManualInputs | robot.py:607-615 | with a toggle on, the whole tick ignores the manual lift hold button and triggers |
| Robot.AutonomousMatchesTeleop | robot.py:127-391 | an autonomous tick is a teleop tick run after the message hook; the lift and arm outputs are the same as in teleop, since the four-bar stage overwrites the hook's arm power |
| Robot.ShiftAppliesSameTick | robot.py:592-655 | joystick 2 with no earlier chain button selects low gear, and the same tick drives with divisor 0.85 and turn divisor 0.75 |
| Robot.CommandsInRange | robot.py:605-655 | with every axis in [-1, 1], lift, arm, forward and rotation commands all lie in [-1, 1] |
| Session.TogglesFollowPresses | robot.py:457-467 | after any run the toggles are exactly those the operator's presses latch; without presses they stay as they started, since no tick clears one |
| Session.ExhaustedPresetHolds | robot.py:457-461 | once HatchOne is at its target, it keeps holding at 0.05 and stays latched on every later tick, as long as buttonStatusOne is not pressed again, the lift does not descend and is not re-homed |
| Session.PressFromInitialSeeks | robot.py:457-461 | from power-on, pressing buttonStatusOne's button makes the next tick seek at 0.3 below 125; a later tick at or above 125 holds at 0.05 with the toggle still latched |
| Session.RehomedAfterRun | robot.py:537-538 | after any run whose last tick reads the hall sensor False, the lift count is 0 |
| Session.ManualHoldAfterRun | robot.py:607-609 | when the run's presses leave neither toggle latched, a final tick with the hold button pressed commands 0.05, whatever came before |

## Left out

- Hardware construction and wiring (robot.py:15-111): motor controllers, encoders,
  joysticks and sensors are not modelled as objects. Their readings are the fields of
  `Robot.Inputs`, and the values last sent to them are fields of `MyRobot`. Encoder
  movement between ticks is a pulse count in `Session.Frame`.
- Dashboard publishing (robot.py:129, 434, 543-584), the ultrasonic voltage bands, and
  the `Diagnostics` helper: these are telemetry only and do not affect any output.
- The camera launch, logging, the timer, and the drive-train encoder resets in the
  two init methods: these are I/O with no decision logic.
- `encoder_test` (robot.py:140-148): it is never called, and it is float distance
  arithmetic over `fabs`.
- The internals of the `robotpy_ext` Toggle class: that library is not part of this
  model. Each toggle is a persisted boolean that the tick reads, with `.off` the
  negation of `.on`. A press between ticks inverts it (`MyRobot.Press`,
  `Session.Frame`); button debouncing and edge detection are not modelled.
- Arbitration.ReleaseOnArrival: models the release as clearing the flag. In the code,
  `self.buttonStatusX = False` (robot.py:441, 448, 455, 474) replaces the Toggle object
  with a plain boolean, so a later `.on` or `.off` on it raises AttributeError. For
  cargoThree (robot.py:455) that happens in the same tick at robot.py:607. For cargoOne
  (robot.py:441) it happens at robot.py:607 in the same tick when buttonStatusThree is
  off, and otherwise at robot.py:532 in the next tick. No tick calls these presets, so
  the crash is unreachable; a clean clear of the toggle is the evident intent.
- Robot.MyRobot.RunPreset: clears the toggle flag for the same reason; the Toggle
  object replacement and the AttributeError it leads to are not modelled.
- Robot.ShiftAppliesSameTick: assumes `DoubleSolenoidOne.get()` (robot.py:636, 639)
  returns the value last passed to `set()` (robot.py:593, 595). That is wpilib
  behaviour outside this model; the model reads the gear field it just wrote. The same
  holds for `Drivetrain.Divisor` and `Drivetrain.TurnDivisor` as used by the tick.
- The commented-out preset orderings (robot.py:225-258, 497-530) and the cargo intake
  block (robot.py:626-629): they are not executed.
- `leftSign` and `rightSign` (robot.py:645-653): they are computed but never read.
- Repeated sensor reads within one branch chain: the code reads a sensor again in each
  `elif` (`getDistance()` at robot.py:458/460, `getRawAxis(3)` at robot.py:610/611,
  `limitSwitch.get()` at robot.py:477/479 and 490/492). The model takes each reading
  once per tick, so it does not capture two reads that straddle a change, in which
  case no branch sets the output.
- `getDistance()` versus `get()` on the lift encoder: both are the same count here,
  since the program never sets a distance per pulse.
- What `arcadeDrive` does with its arguments (input squaring, motor safety): the model
  records the two arguments the tick passes.
- Python float rounding: the powers are exact decimals and the products are exact
  reals in the model.
- The scheduler and `wpilib.run` (robot.py:658-659): ticks are run one at a time, in
  order.
