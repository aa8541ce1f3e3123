/**
 * The lift and four-bar decision rules of one control tick of MyRobot (robot.py):
 * the latched preset toggles, the preset table with its seek-then-hold profile,
 * the fixed-precedence manual lift rule, re-homing of the encoder counts and the
 * four-bar arm power. Powers are exact decimals, so they are modelled as `real`.
 */
module Arbitration {

  import opened Wrappers

  /** Power a preset holds once the lift has reached its target count. */
  const HoldPower: real := 0.05

  /** Manual lift: hold button power, up-trigger gain, down-trigger gain. */
  const ManualHoldPower: real := 0.05
  const UpGain: real := 0.65
  const DownGain: real := 0.25

  /** Four-bar arm: hold button power and stick gain. */
  const ArmHoldPower: real := 0.10
  const ArmGain: real := 0.25

  /** The seven operator toggles, buttonStatusOne .. buttonStatusSeven. */
  datatype ToggleId = One | Two | Three | Four | Five | Six | Seven

  /** The latched on/off flag of every toggle. */
  datatype Toggles = Toggles(one: bool, two: bool, three: bool, four: bool,
                             five: bool, six: bool, seven: bool)
  {
    function On(id: ToggleId): bool
    {
      match id
      case One => one
      case Two => two
      case Three => three
      case Four => four
      case Five => five
      case Six => six
      case Seven => seven
    }

    /** The flag `id` set to False, every other flag as it was. */
    function Clear(id: ToggleId): (t: Toggles)
      ensures !t.On(id)
      ensures forall other :: other != id ==> t.On(other) == On(other)
    {
      match id
      case One => this.(one := false)
      case Two => this.(two := false)
      case Three => this.(three := false)
      case Four => this.(four := false)
      case Five => this.(five := false)
      case Six => this.(six := false)
      case Seven => this.(seven := false)
    }

    /** A press of the toggle's button: the flag `id` inverted, every other flag as it was. */
    function Flip(id: ToggleId): (t: Toggles)
      ensures t.On(id) == !On(id)
      ensures forall other :: other != id ==> t.On(other) == On(other)
    {
      match id
      case One => this.(one := !one)
      case Two => this.(two := !two)
      case Three => this.(three := !three)
      case Four => this.(four := !four)
      case Five => this.(five := !five)
      case Six => this.(six := !six)
      case Seven => this.(seven := !seven)
    }
  }

  const AllOff := Toggles(false, false, false, false, false, false, false)

  /** The six lift presets the tick can call; only HatchOne and HatchTwo are wired to toggles. */
  datatype Preset = CargoOne | CargoTwo | CargoThree | HatchOne | HatchTwo | HatchThree

  /** The encoder count at which a preset stops seeking and starts holding. */
  function Target(p: Preset): int
  {
    match p
    case CargoOne => 133
    case CargoTwo => 270
    case CargoThree => 415
    case HatchOne => 125
    case HatchTwo => 305
    case HatchThree => 378
  }

  /** The coarse power a preset drives the lift with below its target. */
  function SeekPower(p: Preset): real
  {
    match p
    case HatchOne => 0.3
    case _ => 0.5
  }

  /** The toggle a preset switches off when it arrives, if any. */
  function ReleasedOnArrival(p: Preset): Option<ToggleId>
  {
    match p
    case CargoOne => Some(One)
    case CargoTwo => Some(Two)
    case CargoThree => Some(Three)
    case HatchThree => Some(Six)
    case HatchOne => None
    case HatchTwo => None
  }

  /** Lift power a preset commands at encoder count `count`: coarse power below target, hold at or above. */
  function SeekLift(p: Preset, count: int): (r: real)
    ensures 0.0 < r <= 0.5
    ensures r == HoldPower <==> count >= Target(p)
  {
    if count < Target(p) then SeekPower(p) else HoldPower
  }

  /** The toggles after preset `p` ran at encoder count `count`. */
  function ReleaseOnArrival(p: Preset, count: int, t: Toggles): (r: Toggles)
    ensures p == HatchOne || p == HatchTwo ==> r == t
    ensures count < Target(p) ==> r == t
    ensures p != HatchOne && p != HatchTwo && count >= Target(p) ==>
              ReleasedOnArrival(p).Some? && !r.On(ReleasedOnArrival(p).value) &&
              forall other :: other != ReleasedOnArrival(p).value ==> r.On(other) == t.On(other)
  {
    match ReleasedOnArrival(p)
    case Some(id) => if count >= Target(p) then t.Clear(id) else t
    case None => t
  }

  /** The preset a tick runs: buttonStatusOne selects HatchOne ahead of buttonStatusThree selecting HatchTwo. */
  function ActivePreset(t: Toggles): (r: Option<Preset>)
    ensures r.None? <==> !t.one && !t.three
    ensures r == Some(HatchOne) <==> t.one
    ensures r == Some(HatchTwo) <==> !t.one && t.three
  {
    if t.one then Some(HatchOne)
    else if t.three then Some(HatchTwo)
    else None
  }

  /**
   * Manual lift power: the hold button, else a nonzero up trigger, else a nonzero down
   * trigger, else idle. A Python float axis is truthy exactly when it is nonzero.
   */
  function ManualLift(hold: bool, up: real, down: real): (r: real)
    ensures hold ==> r == 0.05
    ensures !hold && up != 0.0 ==> r == up * 0.65
    ensures !hold && up == 0.0 && down != 0.0 ==> r == -down * 0.25
    ensures r == 0.0 <==> !hold && up == 0.0 && down == 0.0
    ensures -1.0 <= up <= 1.0 && -1.0 <= down <= 1.0 ==> -UpGain <= r <= UpGain
    ensures 0.0 <= up && 0.0 <= down ==> (r < 0.0 <==> !hold && up == 0.0 && down != 0.0)
  {
    if hold then ManualHoldPower
    else if up != 0.0 then up * UpGain
    else if down != 0.0 then -down * DownGain
    else 0.0
  }

  /** Lift power of a tick: the active preset if any, the manual rule otherwise. */
  function LiftCommand(t: Toggles, count: int, hold: bool, up: real, down: real): (r: real)
    ensures t.one ==> r == (if count < 125 then 0.3 else 0.05)
    ensures !t.one && t.three ==> r == (if count < 305 then 0.5 else 0.05)
    ensures !t.one && !t.three ==> r == ManualLift(hold, up, down)
  {
    match ActivePreset(t)
    case Some(p) => SeekLift(p, count)
    case None => ManualLift(hold, up, down)
  }

  /** The toggles after the tick's preset stage. */
  function PresetToggles(t: Toggles, count: int): (r: Toggles)
    ensures r == t
  {
    match ActivePreset(t)
    case Some(p) => ReleaseOnArrival(p, count, t)
    case None => t
  }

  /** An encoder count after re-homing: zeroed when its home sensor reads False. */
  function Rehome(sensor: bool, count: int): (c: int)
    ensures c == 0 || c == count
    ensures !sensor ==> c == 0
    ensures sensor ==> c == count
  {
    if !sensor then 0 else count
  }

  /** Four-bar power: the hold button, else the negated stick scaled by ArmGain. */
  function ArmPower(hold: bool, axis: real): (r: real)
    ensures hold ==> r == ArmHoldPower
    ensures !hold ==> r == -axis * ArmGain
    ensures -1.0 <= axis <= 1.0 ==> -ArmGain <= r <= ArmGain
  {
    if hold then ArmHoldPower
    else if !hold then -axis * ArmGain
    else assert false; 0.0
  }

  /** Whatever the sticks and hold button say, a latched preset decides the lift power. */
  lemma PresetOverridesManual(t: Toggles, count: int, hold: bool, up: real, down: real,
                              hold': bool, up': real, down': real)
    requires t.one || t.three
    ensures LiftCommand(t, count, hold, up, down) == LiftCommand(t, count, hold', up', down')
  {
  }

  /** With axes in range every lift command lies within the manual up gain. */
  lemma LiftCommandInRange(t: Toggles, count: int, hold: bool, up: real, down: real)
    requires -1.0 <= up <= 1.0 && -1.0 <= down <= 1.0
    ensures -UpGain <= LiftCommand(t, count, hold, up, down) <= UpGain
  {
  }

  /** A preset at its target keeps holding as long as the count does not fall below it. */
  lemma HoldIsStable(p: Preset, count: int, count': int)
    requires Target(p) <= count <= count'
    ensures SeekLift(p, count') == SeekLift(p, count) == HoldPower
  {
  }
}
