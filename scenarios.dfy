/**
 * Concrete runs of the KM altimeter part: crossings in each direction, the
 * edge of the window, auto-reset and the one-flag mailbox, worked through
 * the model.
 */
module Scenarios {
  import opened AltitudeSampling
  import opened TriggerRules
  import opened Traces

  /** A part at 990 m, armed, targeting 1000 m in metres. */
  function Below(d: Direction, autoReset: bool): State
  {
    Initial(0, 1000.0, 0.0, true, d, autoReset, false).(alt := 990.0)
  }

  /** A tick at altitude a over sea-level terrain with a window of 10 m (vertical speed 200/21 m/s, tick 1 s). */
  function Climb(a: real): Reading
  {
    Reading(a, 0.0, 1.0, 200.0 / 21.0)
  }

  /** The same but sinking. */
  function Sink(a: real): Reading
  {
    Reading(a, 0.0, 1.0, -200.0 / 21.0)
  }

  /** Rising through the target with direction Ascent fires once, disarms and lights the indicator. */
  lemma AscentCrossingFires()
    ensures TickFires(Below(Ascent, false), Climb(1005.0))
    ensures var t := FixedTick(Below(Ascent, false), Climb(1005.0));
      !t.isArmed && t.illuminated && t.fireNextUpdate && t.currentWindow == 10.0 &&
      FrameTick(t).1 == [0]
  {

  }

  /** The same crossing with direction Descent does not fire. */
  lemma DescentIgnoresAscentCrossing()
    ensures !TickFires(Below(Descent, false), Climb(1005.0))
    ensures FixedTick(Below(Descent, false), Climb(1005.0)).isArmed
  {
  }

  /**
   * With auto-reset, climbing on to 1050 m after the fire leaves the window
   * (distance 40 m against a 10 m window) and rearms; the next frame update
   * turns the indicator off.
   */
  lemma AutoResetRearmsAfterLeaving()
    ensures var t1 := FixedTick(Below(Ascent, true), Climb(1005.0));
      var t2 := FixedTick(t1, Climb(1050.0));
      !t1.isArmed && t2.isArmed && t2.illuminated && !FrameTick(t2).0.illuminated
  {

  }

  /**
   * A tick that ends exactly on the target does not fire, in either
   * direction: the firing test is strict, so "at" the target is not enough.
   */
  lemma ArrivingAtTargetDoesNotFire()
    ensures !TickFires(Below(Ascent, false), Climb(1000.0))
    ensures !TickFires(Below(Descent, false).(alt := 1010.0), Sink(1000.0))
  {
  }

  /** Hovering exactly at the target: the window is zero and the part does not fire. */
  lemma HoverAtTargetDoesNotFire()
    ensures var s := Initial(0, 1000.0, 0.0, true, All, false, false).(alt := 1000.0);
      var r := Reading(1000.0, 0.0, 1.0, 0.0);
      !TickFires(s, r) && FixedTick(s, r).isArmed && FixedTick(s, r).currentWindow == 0.0
  {
  }

  /**
   * Direction All fires on both branches: rising through the target, and
   * after rearming, sinking back through it.
   */
  lemma AllFiresBothWays()
    ensures TickFires(Below(All, true), Climb(1005.0))
    ensures var t1 := FixedTick(Below(All, true), Climb(1005.0));
      var t2 := FixedTick(t1, Climb(1050.0));
      t2.isArmed && TickFires(t2, Sink(995.0)) && !FixedTick(t2, Sink(995.0)).ascending
  {

  }

  /** Two fires before one frame update collapse into a single dispatch. */
  lemma TwoFiresOneDispatch()
    ensures var es := [PhysicsTick(Climb(1005.0)), PhysicsTick(Climb(1050.0)),
                       PhysicsTick(Sink(995.0)), FrameUpdate];
      Fires(Below(All, true), es) == 2 && Run(Below(All, true), es).1 == [0]
  {

  }

  /**
   * The previous altitude starts at zero, not at the first sample: the first
   * tick counts as ascending exactly when the vessel is above zero.
   */
  lemma FirstTickAscendsAboveZero(group: Group, meterHeight: real, kilometerHeight: real, isArmed: bool,
                                  direction: Direction, autoReset: bool, useKilometer: bool, r: Reading)
    ensures var t := UpdateAltitude(Initial(group, meterHeight, kilometerHeight, isArmed,
                                            direction, autoReset, useKilometer), r);
      t.ascending <==> LowerAltitude(r.altSea, r.terrainAltitude) > 0.0
  {
  }
}
