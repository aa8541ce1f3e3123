/**
 * MyRobot's periodic handlers (robot.py). A tick runs, in this order: the preset seek,
 * re-homing of the two encoder counts, (in autonomous only) the game-message test hook,
 * the pneumatic chain, the manual lift block, the four-bar block and the drive.
 * Motor outputs keep the last value set in the tick, so a later stage overrides an
 * earlier one. The pure functions TeleopStep and AutonomousStep state the whole tick;
 * the class below performs it step by step and is proved to agree with them.
 */
module Robot {

  import opened Wrappers
  import opened Arbitration
  import opened Pneumatics
  import opened Drivetrain

  /** What the tick reads from sensors and controllers. */
  datatype Inputs = Inputs(
    minHall: bool,        // minHall.get(): False re-homes the lift count
    limitSwitch: bool,    // limitSwitch.get(): False re-homes the arm count
    liftHold: bool,       // xbox button 5
    liftUp: real,         // xbox axis 3
    liftDown: real,       // xbox axis 2
    armHold: bool,        // xbox button 6
    armAxis: real,        // xbox axis 1
    driveAxis: real,      // joystick axis 1
    rotateAxis: real,     // joystick axis 2
    buttons: Buttons,     // the pneumatic chain's buttons
    message: string)      // driver-station game-specific message, read in autonomous only

  /** Everything a tick reads from or leaves behind in the robot object. */
  datatype State = State(
    liftCount: int,       // liftEncoder count
    armCount: int,        // liftArmEncoder count
    toggles: Toggles,
    pneumatics: PneumaticState,
    lift: real,           // last value given to lift.set
    liftArm: real,        // last value given to liftArm.set
    driveAxis: real,
    rotateAxis: real,
    divisor: real,
    turnDivisor: Option<real>,
    forward: real,        // last arguments of drive.arcadeDrive
    rotation: real)

  /**
   * The state robotInit leaves: fresh encoders, toggles off, compressor started, solenoids off,
   * motors idle. robotInit sets neither divisor nor turnDivisor. Every tick assigns divisor,
   * driveAxis and rotateAxis before anything reads them, so their starting values are never
   * observed and are given as plain numbers. turnDivisor is left unassigned by a tick in which
   * the gear is off, so its unset state is observable and is kept as None.
   */
  const Initial := State(0, 0, AllOff, PneumaticState(true, Off, Off, Off),
                         0.0, 0.0, 0.0, 0.0, 1.0, None, 0.0, 0.0)

  /** The compressor after the autonomous test hook: the "pressure" message starts it. */
  function AfterMessage(p: PneumaticState, message: string): (r: PneumaticState)
    ensures r.gear == p.gear && r.claw == p.claw && r.ejector == p.ejector
    ensures r.compressorOn == (p.compressorOn || message == "pressure")
  {
    if message == "pressure" then p.(compressorOn := true)
    else p
  }

  /** The stages every tick shares, starting the pneumatic chain from `p0`. */
  function Periodic(s: State, p0: PneumaticState, inp: Inputs): (r: State)
    ensures r.toggles == s.toggles
    ensures r.liftCount == (if inp.minHall then s.liftCount else 0)
    ensures r.armCount == (if inp.limitSwitch then s.armCount else 0)
    ensures Changes(p0, r.pneumatics) <= 1
    ensures r.divisor == (if r.pneumatics.gear == Reverse then 0.85 else 1.0)
    ensures r.forward == -inp.driveAxis * r.divisor
    ensures r.rotation == inp.rotateAxis * 0.75
  {
    var p := Apply(p0, Chain(inp.buttons));
    State(
      liftCount := Rehome(inp.minHall, s.liftCount),
      armCount := Rehome(inp.limitSwitch, s.armCount),
      toggles := PresetToggles(s.toggles, s.liftCount),
      pneumatics := p,
      lift := LiftCommand(s.toggles, s.liftCount, inp.liftHold, inp.liftUp, inp.liftDown),
      liftArm := ArmPower(inp.armHold, inp.armAxis),
      driveAxis := inp.driveAxis,
      rotateAxis := inp.rotateAxis,
      divisor := Divisor(p.gear),
      turnDivisor := TurnDivisor(p.gear, s.turnDivisor),
      forward := DriveForward(inp.driveAxis, p.gear),
      rotation := DriveRotation(inp.rotateAxis))
  }

  /** One teleop tick. */
  function TeleopStep(s: State, inp: Inputs): (r: State)
    ensures r.toggles == s.toggles
    ensures Changes(s.pneumatics, r.pneumatics) <= 1
    ensures s.toggles.one ==> r.lift == (if s.liftCount < 125 then 0.3 else 0.05)
    ensures !s.toggles.one && s.toggles.three ==> r.lift == (if s.liftCount < 305 then 0.5 else 0.05)
    ensures !s.toggles.one && !s.toggles.three ==> r.lift == ManualLift(inp.liftHold, inp.liftUp, inp.liftDown)
    ensures r.liftArm == (if inp.armHold then 0.10 else -inp.armAxis * 0.25)
  {
    Periodic(s, s.pneumatics, inp)
  }

  /** One autonomous tick: the teleop stages with the game-message hook before the pneumatic chain. */
  function AutonomousStep(s: State, inp: Inputs): (r: State)
    ensures r.toggles == s.toggles
    ensures r.liftArm == (if inp.armHold then 0.10 else -inp.armAxis * 0.25)
    ensures r.lift == TeleopStep(s, inp).lift
    ensures inp.message != "pressure" ==> r == TeleopStep(s, inp)
  {
    Periodic(s, AfterMessage(s.pneumatics, inp.message), inp)
  }

  class MyRobot {
    var liftCount: int
    var armCount: int
    var toggles: Toggles
    var pneumatics: PneumaticState
    var lift: real
    var liftArm: real
    var driveAxis: real
    var rotateAxis: real
    var divisor: real
    var turnDivisor: Option<real>
    var forward: real
    var rotation: real

    function Snapshot(): State
      reads this
    {
      State(liftCount, armCount, toggles, pneumatics, lift, liftArm, driveAxis, rotateAxis,
            divisor, turnDivisor, forward, rotation)
    }

    /** robotInit: the hardware handles are opened and the compressor is started. */
    constructor ()
      ensures Snapshot() == Initial
    {
      liftCount, armCount := 0, 0;
      toggles := AllOff;
      pneumatics := PneumaticState(true, Off, Off, Off);
      lift, liftArm := 0.0, 0.0;
      driveAxis, rotateAxis := 0.0, 0.0;
      divisor, turnDivisor := 1.0, None;
      forward, rotation := 0.0, 0.0;
    }

    /** autonomousInit: both encoder counts are reset. */
    method AutonomousInit()
      modifies this`liftCount, this`armCount
      ensures liftCount == 0 && armCount == 0
    {
      liftCount := 0;
      armCount := 0;
    }

    /** teleopInit: the lift count is reset and the compressor started. */
    method TeleopInit()
      modifies this`liftCount, this`pneumatics
      ensures liftCount == 0
      ensures pneumatics == old(pneumatics).(compressorOn := true)
    {
      liftCount := 0;
      pneumatics := pneumatics.(compressorOn := true);
    }

    /**
     * The operator's press of a toggle's button (xbox 8 for buttonStatusOne, xbox 7 for
     * buttonStatusThree), latched by the toggle between ticks: the flag is inverted.
     */
    method Press(id: ToggleId)
      modifies this`toggles
      ensures toggles == old(toggles).Flip(id)
    {
      toggles := toggles.Flip(id);
    }

    /** One of the nested preset helpers: seek below the target, hold at or above it. */
    method RunPreset(p: Preset)
      modifies this`lift, this`toggles
      ensures lift == SeekLift(p, liftCount)
      ensures toggles == ReleaseOnArrival(p, liftCount, old(toggles))
    {
      if liftCount < Target(p) {
        lift := SeekPower(p);
      } else if liftCount >= Target(p) {
        lift := HoldPower;
        match ReleasedOnArrival(p)
        case Some(id) => toggles := toggles.Clear(id);
        case None =>
      }
    }

    /** The preset stage: buttonStatusOne runs HatchOne, otherwise buttonStatusThree runs HatchTwo. */
    method SeekPresets()
      modifies this`lift, this`toggles
      ensures toggles == old(toggles)
      ensures ActivePreset(toggles).Some? ==> lift == SeekLift(ActivePreset(toggles).value, liftCount)
      ensures ActivePreset(toggles).None? ==> lift == old(lift)
    {
      if toggles.one {
        RunPreset(HatchOne);
      } else if toggles.three {
        RunPreset(HatchTwo);
      }
    }

    /** Re-homing: each count is zeroed when its home sensor reads False. */
    method RehomeEncoders(minHall: bool, limitSwitch: bool)
      modifies this`liftCount, this`armCount
      ensures liftCount == Rehome(minHall, old(liftCount))
      ensures armCount == Rehome(limitSwitch, old(armCount))
    {
      if !minHall {
        liftCount := 0;
      }
      if !limitSwitch {
        armCount := 0;
      }
    }

    /** The four-bar test helper the "fourbar" message runs. */
    method Fourbar(limitSwitch: bool)
      modifies this`liftArm
      ensures liftArm == if limitSwitch then 0.25 else 0.0
    {
      if limitSwitch {
        liftArm := 0.25;
      } else {
        liftArm := 0.0;
      }
    }

    /** The autonomous test hook keyed by the game-specific message; unrecognised messages do nothing. */
    method TestHook(message: string, limitSwitch: bool)
      modifies this`pneumatics, this`liftArm
      ensures pneumatics == AfterMessage(old(pneumatics), message)
      ensures liftArm == if message == "fourbar" then (if limitSwitch then 0.25 else 0.0) else old(liftArm)
    {
      if message == "pressure" {
        pneumatics := pneumatics.(compressorOn := true);
      } else if message == "diagnostics" {
        // telemetry only
      } else if message == "fourbar" {
        Fourbar(limitSwitch);
      }
    }

    /** Drives the arm down until its limit switch reads False, and idles the lift, re-homing both. */
    method LiftEncoderReset(limitSwitch: bool, minHall: bool)
      modifies this`liftArm, this`armCount, this`lift, this`liftCount
      ensures liftArm == if limitSwitch then -0.2 else 0.0
      ensures armCount == Rehome(limitSwitch, old(armCount))
      ensures lift == 0.0
      ensures liftCount == Rehome(minHall, old(liftCount))
    {
      if limitSwitch {
        liftArm := -0.2;
      } else if !limitSwitch {
        liftArm := 0.0;
        armCount := 0;
      }
      if minHall {
        lift := 0.0;
      } else if !minHall {
        lift := 0.0;
        liftCount := 0;
      }
    }

    /** Drives the arm up until its limit switch reads False, re-homing the arm. */
    method FourbarReset(limitSwitch: bool)
      modifies this`liftArm, this`armCount
      ensures liftArm == if limitSwitch then 0.4 else 0.0
      ensures armCount == Rehome(limitSwitch, old(armCount))
    {
      if limitSwitch {
        liftArm := 0.4;
      } else if !limitSwitch {
        liftArm := 0.0;
        armCount := 0;
      }
    }

    /** The pneumatic chain: the first pressed button acts, the rest are ignored. */
    method ApplyPneumatics(b: Buttons)
      modifies this`pneumatics
      ensures pneumatics == Apply(old(pneumatics), Chain(b))
    {
      if b.stopCompressor {
        pneumatics := pneumatics.(compressorOn := false);
      } else if b.startCompressor {
        pneumatics := pneumatics.(compressorOn := true);
      } else if b.shiftForward {
        pneumatics := pneumatics.(gear := Forward);
      } else if b.shiftReverse {
        pneumatics := pneumatics.(gear := Reverse);
      } else if b.openClaw {
        pneumatics := pneumatics.(claw := Forward);
      } else if b.closeClaw {
        pneumatics := pneumatics.(claw := Reverse);
      } else if b.eject {
        pneumatics := pneumatics.(ejector := Forward);
      } else if b.retract {
        pneumatics := pneumatics.(ejector := Reverse);
      }
    }

    /** The manual lift block, skipped while either preset toggle is on. */
    method ManualLiftStage(hold: bool, up: real, down: real)
      modifies this`lift
      ensures !toggles.three && !toggles.one ==> lift == ManualLift(hold, up, down)
      ensures toggles.three || toggles.one ==> lift == old(lift)
    {
      if !toggles.three && !toggles.one {
        if hold {
          lift := ManualHoldPower;
        } else if up != 0.0 {
          lift := up * UpGain;
        } else if down != 0.0 {
          lift := -down * DownGain;
        } else {
          lift := 0.0;
        }
      }
    }

    /** The four-bar block; its final branch (setting 0) can never be taken. */
    method FourBarStage(hold: bool, axis: real)
      modifies this`liftArm
      ensures liftArm == ArmPower(hold, axis)
    {
      if hold {
        liftArm := ArmHoldPower;
      } else if !hold {
        liftArm := -axis * ArmGain;
      } else {
        assert false;
      }
    }

    /** The drive block: the divisor follows the gear solenoid as the pneumatic chain left it. */
    method DriveStage(driveStick: real, rotateStick: real)
      modifies this`driveAxis, this`rotateAxis, this`divisor, this`turnDivisor,
               this`forward, this`rotation
      ensures driveAxis == driveStick && rotateAxis == rotateStick
      ensures divisor == Divisor(pneumatics.gear)
      ensures turnDivisor == TurnDivisor(pneumatics.gear, old(turnDivisor))
      ensures forward == DriveForward(driveStick, pneumatics.gear)
      ensures rotation == DriveRotation(rotateStick)
    {
      driveAxis := driveStick;
      rotateAxis := rotateStick;
      if pneumatics.gear.Code() == 1 {
        divisor := HighGearDivisor;
        turnDivisor := Some(HighGearTurnDivisor);
      } else if pneumatics.gear.Code() == 2 {
        divisor := LowGearDivisor;
        turnDivisor := Some(LowGearTurnDivisor);
      } else {
        divisor := UnknownGearDivisor;
      }
      forward, rotation := -driveAxis * divisor, rotateAxis * RotationGain;
    }

    /** teleopPeriodic. */
    method TeleopPeriodic(inp: Inputs)
      modifies this
      ensures Snapshot() == TeleopStep(old(Snapshot()), inp)
    {
      SeekPresets();
      RehomeEncoders(inp.minHall, inp.limitSwitch);
      ApplyPneumatics(inp.buttons);
      ManualLiftStage(inp.liftHold, inp.liftUp, inp.liftDown);
      FourBarStage(inp.armHold, inp.armAxis);
      DriveStage(inp.driveAxis, inp.rotateAxis);
    }

    /** autonomousPeriodic: as teleop, with the game-message test hook after re-homing. */
    method AutonomousPeriodic(inp: Inputs)
      modifies this
      ensures Snapshot() == AutonomousStep(old(Snapshot()), inp)
    {
      SeekPresets();
      RehomeEncoders(inp.minHall, inp.limitSwitch);
      TestHook(inp.message, inp.limitSwitch);
      ApplyPneumatics(inp.buttons);
      ManualLiftStage(inp.liftHold, inp.liftUp, inp.liftDown);
      FourBarStage(inp.armHold, inp.armAxis);
      DriveStage(inp.driveAxis, inp.rotateAxis);
    }
  }

  /** A tick never clears a toggle: the hatch presets switch to holding power and stay latched. */
  lemma TickKeepsToggles(s: State, inp: Inputs)
    ensures TeleopStep(s, inp).toggles == s.toggles
    ensures AutonomousStep(s, inp).toggles == s.toggles
  {
  }

  /** Re-homing zeroes exactly the count whose sensor reads False, and repeating the tick keeps it zero. */
  lemma TickRehomes(s: State, inp: Inputs)
    ensures TeleopStep(s, inp).liftCount == (if inp.minHall then s.liftCount else 0)
    ensures TeleopStep(s, inp).armCount == (if inp.limitSwitch then s.armCount else 0)
    ensures !inp.minHall ==> TeleopStep(TeleopStep(s, inp), inp).liftCount == 0
    ensures !inp.limitSwitch ==> TeleopStep(TeleopStep(s, inp), inp).armCount == 0
  {
  }

  /** The preset reads the lift count before the tick re-homes it. */
  lemma SeekUsesCountBeforeRehome(s: State, inp: Inputs)
    requires s.toggles.one && s.liftCount >= 125 && !inp.minHall
    ensures TeleopStep(s, inp).lift == HoldPower
    ensures TeleopStep(s, inp).liftCount == 0
    ensures TeleopStep(TeleopStep(s, inp), inp).lift == 0.3
  {
  }

  /** With a preset latched, the manual lift inputs have no effect on the tick. */
  lemma PresetIgnoresManualInputs(s: State, inp: Inputs, hold: bool, up: real, down: real)
    requires s.toggles.one || s.toggles.three
    ensures TeleopStep(s, inp) == TeleopStep(s, inp.(liftHold := hold, liftUp := up, liftDown := down))
  {
    PresetOverridesManual(s.toggles, s.liftCount, inp.liftHold, inp.liftUp, inp.liftDown, hold, up, down);
  }

  /** Autonomous differs from teleop only in that the "pressure" message starts the compressor before the chain. */
  lemma AutonomousMatchesTeleop(s: State, inp: Inputs)
    ensures AutonomousStep(s, inp) == TeleopStep(s.(pneumatics := AfterMessage(s.pneumatics, inp.message)), inp)
    ensures inp.message != "pressure" ==> AutonomousStep(s, inp) == TeleopStep(s, inp)
    ensures AutonomousStep(s, inp).liftArm == TeleopStep(s, inp).liftArm
    ensures AutonomousStep(s, inp).lift == TeleopStep(s, inp).lift
  {
  }

  /** A low-gear shift takes effect on the drive in the same tick. */
  lemma ShiftAppliesSameTick(s: State, inp: Inputs)
    requires inp.buttons.shiftReverse
    requires !inp.buttons.stopCompressor && !inp.buttons.startCompressor && !inp.buttons.shiftForward
    ensures TeleopStep(s, inp).pneumatics.gear == Reverse
    ensures TeleopStep(s, inp).forward == -inp.driveAxis * LowGearDivisor
    ensures TeleopStep(s, inp).turnDivisor == Some(LowGearTurnDivisor)
  {
    ChainTakesFirstPressed(inp.buttons, 3);
  }

  /** With every axis in [-1, 1] all four motor commands of a tick lie in [-1, 1]. */
  lemma CommandsInRange(s: State, inp: Inputs)
    requires -1.0 <= inp.liftUp <= 1.0 && -1.0 <= inp.liftDown <= 1.0 && -1.0 <= inp.armAxis <= 1.0
    requires -1.0 <= inp.driveAxis <= 1.0 && -1.0 <= inp.rotateAxis <= 1.0
    ensures var t := TeleopStep(s, inp);
      -1.0 <= t.lift <= 1.0 && -1.0 <= t.liftArm <= 1.0 &&
      -1.0 <= t.forward <= 1.0 && -1.0 <= t.rotation <= 1.0
  {
    LiftCommandInRange(s.toggles, s.liftCount, inp.liftHold, inp.liftUp, inp.liftDown);
  }
}
