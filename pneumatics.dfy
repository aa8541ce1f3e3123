/**
 * The pneumatics stage of a tick: eight buttons checked in a fixed order, of which
 * only the first pressed one acts on the compressor or one of the three double
 * solenoids (gear shifter, hatch claw, hatch ejector).
 */
module Pneumatics {

  import opened Wrappers

  /** A double solenoid's value; wpilib encodes kOff, kForward, kReverse as 0, 1, 2. */
  datatype Solenoid = Off | Forward | Reverse
  {
    function Code(): (c: int)
      ensures 0 <= c <= 2
      ensures c == 0 <==> this == Off
      ensures c == 1 <==> this == Forward
    {
      match this
      case Off => 0
      case Forward => 1
      case Reverse => 2
    }
  }

  /** The buttons of the chain, named by what they do. */
  datatype Buttons = Buttons(
    stopCompressor: bool,   // xbox button 9
    startCompressor: bool,  // xbox button 10
    shiftForward: bool,     // joystick button 1
    shiftReverse: bool,     // joystick button 2
    openClaw: bool,         // xbox button 3
    closeClaw: bool,        // xbox button 2
    eject: bool,            // xbox button 4
    retract: bool)          // xbox button 1

  datatype Action =
    | StopCompressor
    | StartCompressor
    | Shift(gear: Solenoid)
    | Claw(claw: Solenoid)
    | Ejector(ejector: Solenoid)

  /** The compressor's closed-loop state and the last value set on each solenoid. */
  datatype PneumaticState = PneumaticState(compressorOn: bool, gear: Solenoid,
                                           claw: Solenoid, ejector: Solenoid)

  /** The action of the first pressed button, if any, in the chain's order. */
  function Chain(b: Buttons): (r: Option<Action>)
    ensures r.Some? ==> r.value in Order
  {
    if b.stopCompressor then Some(StopCompressor)
    else if b.startCompressor then Some(StartCompressor)
    else if b.shiftForward then Some(Shift(Forward))
    else if b.shiftReverse then Some(Shift(Reverse))
    else if b.openClaw then Some(Claw(Forward))
    else if b.closeClaw then Some(Claw(Reverse))
    else if b.eject then Some(Ejector(Forward))
    else if b.retract then Some(Ejector(Reverse))
    else None
  }

  /** The chain's actions in priority order, and whether each one's button is pressed. */
  const Order: seq<Action> := [StopCompressor, StartCompressor, Shift(Forward), Shift(Reverse),
                               Claw(Forward), Claw(Reverse), Ejector(Forward), Ejector(Reverse)]

  function Pressed(b: Buttons): (ps: seq<bool>)
    ensures |ps| == |Order|
  {
    [b.stopCompressor, b.startCompressor, b.shiftForward, b.shiftReverse,
     b.openClaw, b.closeClaw, b.eject, b.retract]
  }

  /** Reference first-match rule over any list of guarded actions. */
  function FirstMatch(ps: seq<bool>, acts: seq<Action>): Option<Action>
    requires |ps| == |acts|
    decreases |ps|
  {
    if ps == [] then None
    else if ps[0] then Some(acts[0])
    else FirstMatch(ps[1..], acts[1..])
  }

  /** FirstMatch yields the action of the lowest pressed index, and nothing when none is pressed. */
  lemma {:induction false} FirstMatchIsFirst(ps: seq<bool>, acts: seq<Action>)
    requires |ps| == |acts|
    ensures FirstMatch(ps, acts).None? <==> forall i :: 0 <= i < |ps| ==> !ps[i]
    ensures forall i :: 0 <= i < |ps| && ps[i] && (forall j :: 0 <= j < i ==> !ps[j]) ==>
              FirstMatch(ps, acts) == Some(acts[i])
  {
    if ps != [] && !ps[0] {
      FirstMatchIsFirst(ps[1..], acts[1..]);
      forall i | 0 <= i < |ps| && ps[i] && (forall j :: 0 <= j < i ==> !ps[j])
        ensures FirstMatch(ps, acts) == Some(acts[i])
      {
        assert i > 0;
        assert ps[1..][i - 1] == ps[i];
        assert forall j :: 0 <= j < i - 1 ==> !ps[1..][j] by {
          forall j | 0 <= j < i - 1 ensures !ps[1..][j] { assert ps[1..][j] == ps[j + 1]; }
        }
      }
      assert (forall i :: 0 <= i < |ps[1..]| ==> !ps[1..][i]) <==> (forall i :: 0 <= i < |ps| ==> !ps[i]) by {
        if forall i :: 0 <= i < |ps[1..]| ==> !ps[1..][i] {
          forall i | 0 <= i < |ps| ensures !ps[i] { if i > 0 { assert ps[i] == ps[1..][i - 1]; } }
        }
      }
    }
  }

  /** The if/elif chain is the first-match rule over the fixed order. */
  lemma ChainIsFirstMatch(b: Buttons)
    ensures Chain(b) == FirstMatch(Pressed(b), Order)
  {
    var ps, acts := Pressed(b), Order;
    assert ps == ps[0..] && acts == acts[0..];
    FirstMatchStep(ps, acts, 0);
    if !b.stopCompressor {
      FirstMatchStep(ps, acts, 1);
      if !b.startCompressor {
        FirstMatchStep(ps, acts, 2);
        if !b.shiftForward {
          FirstMatchStep(ps, acts, 3);
          if !b.shiftReverse {
            FirstMatchStep(ps, acts, 4);
            if !b.openClaw {
              FirstMatchStep(ps, acts, 5);
              if !b.closeClaw {
                FirstMatchStep(ps, acts, 6);
                if !b.eject {
                  FirstMatchStep(ps, acts, 7);
                  assert ps[8..] == [];
                }
              }
            }
          }
        }
      }
    }
  }

  /** One unfolding of FirstMatch at position k. */
  lemma FirstMatchStep(ps: seq<bool>, acts: seq<Action>, k: nat)
    requires |ps| == |acts| && k < |ps|
    ensures FirstMatch(ps[k..], acts[k..]) ==
              if ps[k] then Some(acts[k]) else FirstMatch(ps[k + 1..], acts[k + 1..])
  {
    assert ps[k..][1..] == ps[k + 1..];
    assert acts[k..][1..] == acts[k + 1..];
  }

  /** The action taken is the one of the first pressed button in the order, and none exactly when no button is pressed. */
  lemma ChainTakesFirstPressed(b: Buttons, i: int)
    requires 0 <= i < |Order|
    requires Pressed(b)[i]
    requires forall j :: 0 <= j < i ==> !Pressed(b)[j]
    ensures Chain(b) == Some(Order[i])
  {
    ChainIsFirstMatch(b);
    FirstMatchIsFirst(Pressed(b), Order);
  }

  lemma ChainIdleIffNonePressed(b: Buttons)
    ensures Chain(b).None? <==> forall i :: 0 <= i < |Order| ==> !Pressed(b)[i]
  {
    ChainIsFirstMatch(b);
    FirstMatchIsFirst(Pressed(b), Order);
  }

  /** The pneumatic state after an action: exactly the device the action names is set. */
  function Apply(s: PneumaticState, a: Option<Action>): (r: PneumaticState)
    ensures a.None? ==> r == s
    ensures a == Some(StopCompressor) ==> r == s.(compressorOn := false)
    ensures a == Some(StartCompressor) ==> r == s.(compressorOn := true)
    ensures a.Some? && a.value.Shift? ==> r == s.(gear := a.value.gear)
    ensures a.Some? && a.value.Claw? ==> r == s.(claw := a.value.claw)
    ensures a.Some? && a.value.Ejector? ==> r == s.(ejector := a.value.ejector)
    ensures Changes(s, r) <= 1
  {
    match a
    case None => s
    case Some(StopCompressor) => s.(compressorOn := false)
    case Some(StartCompressor) => s.(compressorOn := true)
    case Some(Shift(v)) => s.(gear := v)
    case Some(Claw(v)) => s.(claw := v)
    case Some(Ejector(v)) => s.(ejector := v)
  }

  /** How many of the four pneumatic devices differ between two states. */
  function Changes(s: PneumaticState, r: PneumaticState): nat
  {
    (if s.compressorOn != r.compressorOn then 1 else 0) + (if s.gear != r.gear then 1 else 0) +
    (if s.claw != r.claw then 1 else 0) + (if s.ejector != r.ejector then 1 else 0)
  }

  /** A shift button takes effect on the gear exactly when no compressor button and no earlier shift button is pressed. */
  lemma GearAfterChain(s: PneumaticState, b: Buttons)
    ensures Apply(s, Chain(b)).gear ==
              if b.stopCompressor || b.startCompressor then s.gear
              else if b.shiftForward then Forward
              else if b.shiftReverse then Reverse
              else s.gear
  {
  }

  /** The compressor is stopped by xbox 9 and started by xbox 10, which comes second. */
  lemma CompressorAfterChain(s: PneumaticState, b: Buttons)
    ensures Apply(s, Chain(b)).compressorOn ==
              if b.stopCompressor then false
              else if b.startCompressor then true
              else s.compressorOn
  {
  }

  /** The claw opens on xbox 3 and closes on xbox 2, below every compressor and shift button. */
  lemma ClawAfterChain(s: PneumaticState, b: Buttons)
    ensures Apply(s, Chain(b)).claw ==
              if b.stopCompressor || b.startCompressor || b.shiftForward || b.shiftReverse then s.claw
              else if b.openClaw then Forward
              else if b.closeClaw then Reverse
              else s.claw
  {
  }

  /** The ejector extends on xbox 4 and retracts on xbox 1, the last two buttons of the chain. */
  lemma EjectorAfterChain(s: PneumaticState, b: Buttons)
    ensures Apply(s, Chain(b)).ejector ==
              if b.stopCompressor || b.startCompressor || b.shiftForward || b.shiftReverse ||
                 b.openClaw || b.closeClaw then s.ejector
              else if b.eject then Forward
              else if b.retract then Reverse
              else s.ejector
  {
  }
}
