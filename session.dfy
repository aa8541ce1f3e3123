/**
 * A run of consecutive teleop ticks. Between two ticks the operator may press the
 * buttons of buttonStatusOne (xbox 8) and buttonStatusThree (xbox 7), which invert
 * those toggles, and the encoders count the pulses the mechanisms produced. A frame
 * carries those presses, the pulse counts and the tick's inputs.
 */
module Session {

  import opened Arbitration
  import opened Robot

  datatype Frame = Frame(pressOne: bool, pressThree: bool, liftPulses: int, armPulses: int,
                         inputs: Inputs)

  /** The toggles after the frame's presses. */
  function Latch(t: Toggles, f: Frame): Toggles
  {
    var t' := if f.pressOne then t.Flip(One) else t;
    if f.pressThree then t'.Flip(Three) else t'
  }

  /** The state the next tick starts from: the presses latched and the pulses counted. */
  function Sense(s: State, f: Frame): State
  {
    s.(toggles := Latch(s.toggles, f),
       liftCount := s.liftCount + f.liftPulses, armCount := s.armCount + f.armPulses)
  }

  /** The toggles after the presses of all frames, with no tick in between changing them. */
  function Latched(t: Toggles, fs: seq<Frame>): Toggles
    decreases |fs|
  {
    if fs == [] then t else Latched(Latch(t, fs[0]), fs[1..])
  }

  /** The state after running the frames in order. */
  function Run(s: State, fs: seq<Frame>): State
    decreases |fs|
  {
    if fs == [] then s
    else Run(TeleopStep(Sense(s, fs[0]), fs[0].inputs), fs[1..])
  }

  /** Running one more frame is one more tick. */
  lemma {:induction false} RunSnoc(s: State, fs: seq<Frame>, f: Frame)
    ensures Run(s, fs + [f]) == TeleopStep(Sense(Run(s, fs), f), f.inputs)
    decreases |fs|
  {
    if fs == [] {
      assert [f][1..] == [];
    } else {
      assert (fs + [f])[1..] == fs[1..] + [f];
      RunSnoc(TeleopStep(Sense(s, fs[0]), fs[0].inputs), fs[1..], f);
    }
  }

  /**
   * The toggles after any run are exactly those the operator's presses latch: no tick
   * changes them, and without presses they stay as they started.
   */
  lemma {:induction false} TogglesFollowPresses(s: State, fs: seq<Frame>)
    ensures Run(s, fs).toggles == Latched(s.toggles, fs)
    ensures (forall k :: 0 <= k < |fs| ==> !fs[k].pressOne && !fs[k].pressThree) ==>
              Run(s, fs).toggles == s.toggles
    decreases |fs|
  {
    if fs != [] {
      var next := TeleopStep(Sense(s, fs[0]), fs[0].inputs);
      TickKeepsToggles(Sense(s, fs[0]), fs[0].inputs);
      TogglesFollowPresses(next, fs[1..]);
      if forall k :: 0 <= k < |fs| ==> !fs[k].pressOne && !fs[k].pressThree {
        assert !fs[0].pressOne && !fs[0].pressThree;
        assert forall k :: 0 <= k < |fs[1..]| ==> fs[1..][k] == fs[k + 1];
      }
    }
  }

  /**
   * Once HatchOne has reached its target, it keeps commanding holding power for as long as
   * the operator does not unlatch buttonStatusOne, the lift does not descend and the min
   * hall sensor does not re-home it: the preset never releases its toggle by itself.
   * Presses of buttonStatusThree change nothing, since buttonStatusOne takes precedence.
   */
  lemma {:induction false} ExhaustedPresetHolds(s: State, fs: seq<Frame>)
    requires s.toggles.one && s.liftCount >= Target(HatchOne)
    requires forall k :: 0 <= k < |fs| ==>
               !fs[k].pressOne && fs[k].liftPulses >= 0 && fs[k].inputs.minHall
    ensures Run(s, fs).toggles.one
    ensures Run(s, fs).liftCount >= Target(HatchOne)
    ensures fs != [] ==> Run(s, fs).lift == HoldPower
    decreases |fs|
  {
    if fs != [] {
      var next := TeleopStep(Sense(s, fs[0]), fs[0].inputs);
      assert next.lift == HoldPower;
      assert forall k :: 0 <= k < |fs[1..]| ==> fs[1..][k] == fs[k + 1];
      ExhaustedPresetHolds(next, fs[1..]);
    }
  }

  /** After any run whose last tick reads the min hall sensor False, the lift count is zero. */
  lemma RehomedAfterRun(s: State, fs: seq<Frame>)
    requires fs != [] && !fs[|fs| - 1].inputs.minHall
    ensures Run(s, fs).liftCount == 0
  {
    var last := fs[|fs| - 1];
    assert fs == fs[..|fs| - 1] + [last];
    RunSnoc(s, fs[..|fs| - 1], last);
  }

  /** Latching one more frame's presses is one more latch. */
  lemma {:induction false} LatchedSnoc(t: Toggles, fs: seq<Frame>, f: Frame)
    ensures Latched(t, fs + [f]) == Latch(Latched(t, fs), f)
    decreases |fs|
  {
    if fs == [] {
      assert [f][1..] == [];
    } else {
      assert (fs + [f])[1..] == fs[1..] + [f];
      LatchedSnoc(Latch(t, fs[0]), fs[1..], f);
    }
  }

  /**
   * When the presses of a run leave neither buttonStatusOne nor buttonStatusThree latched,
   * a hold-button last tick commands the manual holding power whatever came before.
   */
  lemma ManualHoldAfterRun(s: State, fs: seq<Frame>)
    requires !Latched(s.toggles, fs).one && !Latched(s.toggles, fs).three
    requires fs != [] && fs[|fs| - 1].inputs.liftHold
    ensures Run(s, fs).lift == ManualHoldPower
  {
    var last := fs[|fs| - 1];
    assert fs == fs[..|fs| - 1] + [last];
    RunSnoc(s, fs[..|fs| - 1], last);
    TogglesFollowPresses(s, fs[..|fs| - 1]);
    LatchedSnoc(s.toggles, fs[..|fs| - 1], last);
  }

  /**
   * From power-on, a press of buttonStatusOne's button latches HatchOne: while the count is
   * below 125 the lift seeks at 0.3, and once it is at or above 125 it holds at 0.05.
   */
  lemma PressFromInitialSeeks(f: Frame, g: Frame)
    requires f.pressOne && f.inputs.minHall && f.liftPulses < 125
    requires !g.pressOne && g.inputs.minHall && f.liftPulses + g.liftPulses >= 125
    ensures Run(Initial, [f]).toggles.one && Run(Initial, [f]).lift == 0.3
    ensures Run(Initial, [f, g]).toggles.one && Run(Initial, [f, g]).lift == HoldPower
  {
    var first := TeleopStep(Sense(Initial, f), f.inputs);
    assert Run(Initial, [f]) == Run(first, []) == first;
    assert first.toggles.one && first.liftCount == f.liftPulses;
    assert [f, g][1..] == [g] && [g][1..] == [];
    assert Run(Initial, [f, g]) == Run(first, [g]) == TeleopStep(Sense(first, g), g.inputs);
  }
}
