/**
 * Runs of the KM altimeter part: any interleaving of physics ticks, frame
 * updates, the part's actions and events, and edits of its fields through
 * the host's UI. The lemmas here are about whole runs.
 */
module Traces {
  import opened TriggerRules

  datatype Event =
    | PhysicsTick(r: Reading)        // OnFixedUpdate
    | FrameUpdate                    // OnUpdate
    | Activate                       // the "Activate Detection" action
    | Deactivate                     // the "Deactivate Detection" action
    | SwitchToKilometers             // the "Use Kilometers" event
    | SwitchToMeters                 // the "Use Meters" event
    | EditHeight(h: real)            // an edit of the height field shown, metres or kilometres
    | EditDirection(d: Direction)    // an edit of "Trigger on"
    | EditAutoReset(b: bool)         // an edit of "Auto Reset"
    | EditGroup(g: Group)            // an edit of "Group"

  /** One event: the new state and the groups dispatched by it. */
  function Step(s: State, e: Event): (res: (State, seq<Group>))
    ensures !e.FrameUpdate? ==> res.1 == []
    ensures |res.1| <= 1
  {
    match e
    case PhysicsTick(r) => (FixedTick(s, r), [])
    case FrameUpdate => FrameTick(s)
    case Activate => (ActivateDetection(s), [])
    case Deactivate => (DeactivateDetection(s), [])
    case SwitchToKilometers => (UseKilometers(s), [])
    case SwitchToMeters => (UseMeters(s), [])
    case EditHeight(h) =>
      (if s.useKilometer then s.(kilometerHeight := h) else s.(meterHeight := h), [])
    case EditDirection(d) => (s.(direction := d), [])
    case EditAutoReset(b) => (s.(autoReset := b), [])
    case EditGroup(g) => (s.(group := g), [])
  }

  /** A run of events: the final state and every group dispatched, in order. */
  function Run(s: State, es: seq<Event>): (res: (State, seq<Group>))
    decreases |es|
  {
    if es == [] then (s, [])
    else
      var (t, out) := Step(s, es[0]);
      var (u, rest) := Run(t, es[1..]);
      (u, out + rest)
  }

  function B(b: bool): (n: nat)
  {
    if b then 1 else 0
  }

  /** Whether the event, taken in state s, is a physics tick that fires. */
  predicate StepFires(s: State, e: Event)
  {
    e.PhysicsTick? && TickFires(s, e.r)
  }

  /** How many physics ticks of the run fire. */
  function Fires(s: State, es: seq<Event>): (n: nat)
    decreases |es|
  {
    if es == [] then 0
    else B(StepFires(s, es[0])) + Fires(Step(s, es[0]).0, es[1..])
  }

  /** How many events of the run arm a disarmed part (actions and automatic rearming alike). */
  function Armings(s: State, es: seq<Event>): (n: nat)
    decreases |es|
  {
    if es == [] then 0
    else B(!s.isArmed && Step(s, es[0]).0.isArmed) + Armings(Step(s, es[0]).0, es[1..])
  }

  lemma {:induction false} RunAppend(s: State, a: seq<Event>, b: seq<Event>)
    ensures Run(s, a + b) ==
      (Run(Run(s, a).0, b).0, Run(s, a).1 + Run(Run(s, a).0, b).1)
    decreases |a|
  {
    if a == [] {
      assert a + b == b;
      assert Run(s, a) == (s, []);
      assert [] + Run(s, b).1 == Run(s, b).1;
    } else {
      assert (a + b)[0] == a[0];
      assert (a + b)[1..] == a[1..] + b;
      var (t, out) := Step(s, a[0]);
      RunAppend(t, a[1..], b);
      var (m, x) := Run(t, a[1..]);
      var (u, y) := Run(m, b);
      assert Run(s, a) == (m, out + x);
      assert Run(s, a + b) == (u, out + (x + y));
      assert out + (x + y) == (out + x) + y;
    }
  }

  // One event at a time: the facts the lemmas about whole runs are built from.

  lemma StepArming(s: State, e: Event)
    ensures B(StepFires(s, e)) + B(Step(s, e).0.isArmed) <= B(!s.isArmed && Step(s, e).0.isArmed) + B(s.isArmed)
  {
  }

  lemma StepMailbox(s: State, e: Event)
    ensures |Step(s, e).1| + B(Step(s, e).0.fireNextUpdate) <= B(StepFires(s, e)) + B(s.fireNextUpdate)
  {
  }

  lemma StepKeepsPending(s: State, e: Event)
    requires s.fireNextUpdate && e != FrameUpdate
    ensures Step(s, e).0.fireNextUpdate
  {
  }

  lemma StepKeepsUnits(s: State, e: Event)
    requires UnitsConsistent(s)
    ensures UnitsConsistent(Step(s, e).0)
  {
  }

  lemma StepKeepsWindow(s: State, e: Event)
    requires s.currentWindow >= 0.0
    ensures Step(s, e).0.currentWindow >= 0.0
  {
  }

  /**
   * Once fired, the part fires again only after being armed again: the fires
   * of a run never outnumber its armings plus the initial arming.
   */
  lemma {:induction false} OneFirePerArming(s: State, es: seq<Event>)
    ensures Fires(s, es) + B(Run(s, es).0.isArmed) <= Armings(s, es) + B(s.isArmed)
    decreases |es|
  {
    if es != [] {
      StepArming(s, es[0]);
      OneFirePerArming(Step(s, es[0]).0, es[1..]);
    }
  }

  /**
   * The mailbox is one flag: every dispatch consumes a fire, and fires made
   * before one frame update collapse into one dispatch, so a run dispatches
   * no more often than it fires (counting a fire already pending at the start).
   */
  lemma {:induction false} DispatchesNeverExceedFires(s: State, es: seq<Event>)
    ensures |Run(s, es).1| + B(Run(s, es).0.fireNextUpdate) <= Fires(s, es) + B(s.fireNextUpdate)
    decreases |es|
  {
    if es != [] {
      StepMailbox(s, es[0]);
      DispatchesNeverExceedFires(Step(s, es[0]).0, es[1..]);
    }
  }

  /** Physics ticks alone never dispatch. */
  lemma {:induction false} PhysicsTicksNeverDispatch(s: State, es: seq<Event>)
    requires forall i :: 0 <= i < |es| ==> es[i].PhysicsTick?
    ensures Run(s, es).1 == []
    decreases |es|
  {
    if es != [] {
      PhysicsTicksNeverDispatch(Step(s, es[0]).0, es[1..]);
    }
  }

  /** Without edits of "Group", every dispatch carries the configured group. */
  lemma {:induction false} DispatchesCarryGroup(s: State, es: seq<Event>)
    requires forall i :: 0 <= i < |es| ==> !es[i].EditGroup?
    ensures forall i :: 0 <= i < |Run(s, es).1| ==> Run(s, es).1[i] == s.group
    ensures Run(s, es).0.group == s.group
    decreases |es|
  {
    if es != [] {
      var (t, out) := Step(s, es[0]);
      assert t.group == s.group;
      DispatchesCarryGroup(t, es[1..]);
    }
  }

  /** A pending fire survives every event up to the next frame update, which dispatches it, exactly once. */
  lemma {:induction false} PendingFireIsDispatched(s: State, mid: seq<Event>)
    requires s.fireNextUpdate
    requires FrameUpdate !in mid
    ensures |Run(s, mid + [FrameUpdate]).1| == 1
    decreases |mid|
  {
    if mid == [] {
      assert mid + [FrameUpdate] == [FrameUpdate];
    } else {
      assert (mid + [FrameUpdate])[0] == mid[0];
      assert (mid + [FrameUpdate])[1..] == mid[1..] + [FrameUpdate];
      assert mid[0] in mid;
      StepKeepsPending(s, mid[0]);
      PendingFireIsDispatched(Step(s, mid[0]).0, mid[1..]);
    }
  }

  /** Splits a run at its first frame update. */
  lemma {:induction false} FirstFrameUpdate(es: seq<Event>) returns (mid: seq<Event>, rest: seq<Event>)
    requires FrameUpdate in es
    ensures es == mid + [FrameUpdate] + rest
    ensures FrameUpdate !in mid
    decreases |es|
  {
    if es[0] == FrameUpdate {
      mid, rest := [], es[1..];
      assert es == [es[0]] + es[1..];
    } else {
      assert FrameUpdate in es[1..] by {
        var i :| 0 <= i < |es| && es[i] == FrameUpdate;
        assert es[1..][i - 1] == FrameUpdate;
      }
      var m, r := FirstFrameUpdate(es[1..]);
      mid, rest := [es[0]] + m, r;
      assert es == [es[0]] + es[1..];
    }
  }

  /**
   * No fire is lost: a physics tick that fires, followed at any later point
   * by a frame update, leads to a dispatch beyond those made before the tick.
   */
  lemma FireIsDispatched(s: State, pre: seq<Event>, r: Reading, post: seq<Event>)
    requires TickFires(Run(s, pre).0, r)
    requires FrameUpdate in post
    ensures |Run(s, pre + [PhysicsTick(r)] + post).1| >= |Run(s, pre).1| + 1
  {
    var m := Run(s, pre).0;
    RunAppend(s, pre + [PhysicsTick(r)], post);
    RunAppend(s, pre, [PhysicsTick(r)]);
    var f := FixedTick(m, r);
    assert Run(m, [PhysicsTick(r)]) == (f, []);
    var mid, rest := FirstFrameUpdate(post);
    PendingFireIsDispatched(f, mid);
    RunAppend(f, mid + [FrameUpdate], rest);
  }

  /**
   * From start-up (the field initialisers, then updateButtons), the height
   * of the unit not in use is zero and the window non-negative after any run.
   */
  lemma RunsFromStartStayConsistent(group: Group, meterHeight: real, kilometerHeight: real, isArmed: bool,
                                    direction: Direction, autoReset: bool, useKilometer: bool, es: seq<Event>)
    ensures var s := UpdateButtons(Initial(group, meterHeight, kilometerHeight, isArmed,
                                           direction, autoReset, useKilometer));
      UnitsConsistent(Run(s, es).0) && Run(s, es).0.currentWindow >= 0.0
  {
    var s := UpdateButtons(Initial(group, meterHeight, kilometerHeight, isArmed,
                                   direction, autoReset, useKilometer));
    UnitsStayConsistent(s, es);
    WindowStaysNonNegative(s, es);
  }

  /** The height field of the unit not in use stays zero through any run. */
  lemma {:induction false} UnitsStayConsistent(s: State, es: seq<Event>)
    requires UnitsConsistent(s)
    ensures UnitsConsistent(Run(s, es).0)
    decreases |es|
  {
    if es != [] {
      StepKeepsUnits(s, es[0]);
      UnitsStayConsistent(Step(s, es[0]).0, es[1..]);
    }
  }

  /** The window is never negative after any run that starts with a non-negative one. */
  lemma {:induction false} WindowStaysNonNegative(s: State, es: seq<Event>)
    requires s.currentWindow >= 0.0
    ensures Run(s, es).0.currentWindow >= 0.0
    decreases |es|
  {
    if es != [] {
      StepKeepsWindow(s, es[0]);
      WindowStaysNonNegative(Step(s, es[0]).0, es[1..]);
    }
  }
}
