/**
 * The trigger state machine of the KM altimeter part, on values.
 *
 * A `State` holds every field of the part that its callbacks read or write.
 * The functions below say what each callback does to that state; the class
 * in module Altimeter is proved to follow them, and the lemmas here and in
 * module Traces state what the part promises.
 */
module TriggerRules {
  import opened AltitudeSampling

  /** The "Trigger on" option; any other string behaves as All. */
  datatype Direction = All | Ascent | Descent

  /** The action group the part fires: 0 is staging, 1-10 the custom groups, 11-15 the others. */
  type Group = g: int | 0 <= g <= 15

  /** What one physics tick reads from the host vessel and the time warp. */
  datatype Reading = Reading(
    altSea: real,           // sea-level altitude of the vessel's centre of mass
    terrainAltitude: real,  // terrain altitude under the vessel
    fixedDeltaTime: real,   // duration of the physics tick
    verticalSpeed: real)

  datatype State = State(
    // persisted fields
    group: Group,
    meterHeight: real,
    kilometerHeight: real,
    isArmed: bool,
    direction: Direction,
    autoReset: bool,
    useKilometer: bool,
    // runtime fields
    alt: real,
    currentWindow: real,
    illuminated: bool,
    ascending: bool,
    fireNextUpdate: bool)

  /**
   * The state the field initialisers give, for the given persisted fields.
   * OnStart then runs updateButtons on it (see UpdateButtons).
   */
  function Initial(group: Group, meterHeight: real, kilometerHeight: real, isArmed: bool,
                   direction: Direction, autoReset: bool, useKilometer: bool): State
  {
    State(group, meterHeight, kilometerHeight, isArmed, direction, autoReset, useKilometer,
          0.0, 0.0, false, false, false)
  }

  /** The target altitude in metres. */
  function TargetHeight(s: State): (h: real)
  {
    if s.useKilometer then s.kilometerHeight * 1000.0 else s.meterHeight
  }

  /** s and t agree on every persisted field except isArmed. */
  predicate SameConfiguration(s: State, t: State)
  {
    t.group == s.group && t.meterHeight == s.meterHeight && t.kilometerHeight == s.kilometerHeight &&
    t.direction == s.direction && t.autoReset == s.autoReset && t.useKilometer == s.useKilometer
  }

  /** s and t agree on the sampled fields. */
  predicate SameSample(s: State, t: State)
  {
    t.alt == s.alt && t.currentWindow == s.currentWindow && t.ascending == s.ascending
  }

  /** Which travel directions the configured direction lets fire. */
  predicate DirectionAllows(d: Direction, ascending: bool)
  {
    match d
    case All => true
    case Ascent => ascending
    case Descent => !ascending
  }

  /** The altitude the window test is taken from: one window behind the vessel's travel. */
  function BiasedAltitude(alt: real, window: real, ascending: bool): (b: real)
  {
    if ascending then alt - window else alt + window
  }

  /**
   * The firing test of the physics tick, branch for branch. It holds exactly
   * when the direction allows the travel and the target lies strictly inside
   * the band swept over the last two windows: below the sample when
   * ascending, above it when descending. A vessel sitting exactly on the
   * target does not fire, and neither does a window of zero.
   */
  predicate InFireWindow(d: Direction, ascending: bool, alt: real, window: real, target: real)
    ensures InFireWindow(d, ascending, alt, window, target) <==>
      DirectionAllows(d, ascending) && Abs(BiasedAltitude(alt, window, ascending) - target) < window
    ensures InFireWindow(d, ascending, alt, window, target) <==>
      DirectionAllows(d, ascending) &&
      if ascending then alt - 2.0 * window < target < alt
      else alt < target < alt + 2.0 * window
    ensures window <= 0.0 ==> !InFireWindow(d, ascending, alt, window, target)
  {
    (d != Descent && ascending && Abs((alt - window) - target) < window)
    || (d != Ascent && !ascending && Abs((alt + window) - target) < window)
  }

  /**
   * The rearming test of the physics tick. It ignores the direction and uses
   * a strict `>`: the target must lie strictly outside the band the firing
   * test looks at, so a target exactly on its edge neither fires nor rearms.
   */
  predicate OutOfRearmWindow(ascending: bool, alt: real, window: real, target: real)
    ensures OutOfRearmWindow(ascending, alt, window, target) <==>
      Abs(BiasedAltitude(alt, window, ascending) - target) > window
    ensures OutOfRearmWindow(ascending, alt, window, target) <==>
      if ascending then target < alt - 2.0 * window || alt < target
      else target < alt || alt + 2.0 * window < target
  {
    (ascending && Abs((alt - window) - target) > window)
    || (!ascending && Abs((alt + window) - target) > window)
  }

  /** The sampling step that opens each physics tick (updateAltitude). */
  function UpdateAltitude(s: State, r: Reading): (t: State)
    ensures t.alt <= r.altSea && t.alt <= r.altSea - r.terrainAltitude
    ensures t.alt == r.altSea || t.alt == r.altSea - r.terrainAltitude
    ensures t.ascending <==> s.alt < t.alt
    ensures t.currentWindow == DetectionWindow(r.fixedDeltaTime, r.verticalSpeed)
    ensures t.currentWindow >= 0.0
    ensures r.fixedDeltaTime == 0.0 || r.verticalSpeed == 0.0 ==> t.currentWindow == 0.0
    ensures SameConfiguration(s, t)
    ensures t.isArmed == s.isArmed && t.illuminated == s.illuminated && t.fireNextUpdate == s.fireNextUpdate
  {
    var alt := LowerAltitude(r.altSea, r.terrainAltitude);
    s.(alt := alt, ascending := s.alt < alt,
       currentWindow := DetectionWindow(r.fixedDeltaTime, r.verticalSpeed))
  }

  /** Whether the fire block of the physics tick fires, given the freshly sampled state. */
  predicate FiresAfterSampling(u: State)
  {
    u.isArmed && InFireWindow(u.direction, u.ascending, u.alt, u.currentWindow, TargetHeight(u))
  }

  /** Whether the physics tick with reading r, taken in state s, fires. */
  predicate TickFires(s: State, r: Reading)
  {
    FiresAfterSampling(UpdateAltitude(s, r))
  }

  /** The fire block: firing lights the indicator, sets the mailbox and disarms. */
  function FireStep(u: State): (f: State)
  {
    if FiresAfterSampling(u) then u.(fireNextUpdate := true, illuminated := true, isArmed := false)
    else u
  }

  /** The auto-reset block, which reads isArmed as the fire block left it. */
  function RearmStep(f: State): (t: State)
  {
    if !f.isArmed && f.autoReset && OutOfRearmWindow(f.ascending, f.alt, f.currentWindow, TargetHeight(f))
    then f.(isArmed := true)
    else f
  }

  /** One physics tick (OnFixedUpdate). */
  function FixedTick(s: State, r: Reading): (t: State)
    // firing
    ensures TickFires(s, r) ==> s.isArmed
    ensures TickFires(s, r) ==> !t.isArmed && t.illuminated && t.fireNextUpdate
    ensures !TickFires(s, r) ==> t.illuminated == s.illuminated && t.fireNextUpdate == s.fireNextUpdate
    // the direction filter
    ensures TickFires(s, r) ==> DirectionAllows(s.direction, t.ascending)
    ensures TickFires(s, r) && s.direction == Descent ==> !t.ascending
    ensures TickFires(s, r) && s.direction == Ascent ==> t.ascending
    // a zero window never fires
    ensures t.currentWindow == 0.0 ==> !TickFires(s, r)
    ensures r.verticalSpeed == 0.0 || r.fixedDeltaTime == 0.0 ==> !TickFires(s, r)
    // arming changes
    ensures s.isArmed && !TickFires(s, r) ==> t.isArmed
    ensures t.isArmed && !s.isArmed ==>
      s.autoReset && OutOfRearmWindow(t.ascending, t.alt, t.currentWindow, TargetHeight(t))
    ensures (!s.isArmed && s.autoReset &&
             OutOfRearmWindow(t.ascending, t.alt, t.currentWindow, TargetHeight(t))) ==> t.isArmed
    // the sampled fields, and the configuration left alone
    ensures t.alt == LowerAltitude(r.altSea, r.terrainAltitude) && t.ascending == (s.alt < t.alt)
    ensures t.currentWindow == DetectionWindow(r.fixedDeltaTime, r.verticalSpeed)
    ensures SameConfiguration(s, t)
  {
    RearmStep(FireStep(UpdateAltitude(s, r)))
  }

  /**
   * A physics tick that decides firing and rearming on a snapshot of isArmed
   * taken at the start of the tick, rather than on the value the fire block
   * leaves behind.
   */
  function SnapshotTick(s: State, r: Reading): (t: State)
  {
    var u := UpdateAltitude(s, r);
    var target := TargetHeight(u);
    if u.isArmed then
      if InFireWindow(u.direction, u.ascending, u.alt, u.currentWindow, target)
      then u.(fireNextUpdate := true, illuminated := true, isArmed := false)
      else u
    else if u.autoReset && OutOfRearmWindow(u.ascending, u.alt, u.currentWindow, target)
    then u.(isArmed := true)
    else u
  }

  /**
   * The code re-reads isArmed after the fire block, but a tick that fires
   * never rearms in the same tick, so both readings give the same tick.
   */
  lemma FixedTickIsSnapshotTick(s: State, r: Reading)
    ensures FixedTick(s, r) == SnapshotTick(s, r)
  {

  }

  /**
   * On the edge of the window (biased distance equal to the window) a tick
   * neither fires nor rearms.
   */
  lemma EdgeNeitherFiresNorRearms(s: State, r: Reading)
    requires var u := UpdateAltitude(s, r);
      Abs(BiasedAltitude(u.alt, u.currentWindow, u.ascending) - TargetHeight(u)) == u.currentWindow
    ensures !TickFires(s, r)
    ensures FixedTick(s, r).isArmed == s.isArmed
    ensures FixedTick(s, r).fireNextUpdate == s.fireNextUpdate
  {
  }

  /**
   * The window is sized so that a crossing is not skipped: if the vessel
   * travelled no more than the window in this tick and either left the
   * target or passed it, an armed part whose direction allows that travel
   * fires. A tick that ends exactly on the target is not covered: it does not
   * fire (see Scenarios.ArrivingAtTargetDoesNotFire).
   */
  lemma CrossingIsDetected(s: State, r: Reading)
    requires s.isArmed
    requires var u := UpdateAltitude(s, r);
      Abs(u.alt - s.alt) <= u.currentWindow &&
      DirectionAllows(s.direction, u.ascending) &&
      (s.alt <= TargetHeight(s) < u.alt || u.alt < TargetHeight(s) <= s.alt)
    ensures TickFires(s, r)
    ensures FixedTick(s, r).fireNextUpdate && !FixedTick(s, r).isArmed
  {

  }

  /** One frame update (OnUpdate): the indicator refresh and the mailbox drain. */
  function FrameTick(s: State): (res: (State, seq<Group>))
    ensures !res.0.fireNextUpdate
    ensures res.0.illuminated <==> s.illuminated && !s.isArmed
    ensures |res.1| == if s.fireNextUpdate then 1 else 0
    ensures forall i :: 0 <= i < |res.1| ==> res.1[i] == s.group
    ensures SameConfiguration(s, res.0) && SameSample(s, res.0) && res.0.isArmed == s.isArmed
  {
    var lit := if s.isArmed && s.illuminated then s.(illuminated := false) else s;
    if lit.fireNextUpdate then (lit.(fireNextUpdate := false), [lit.group])
    else (lit, [])
  }

  /** The "Activate Detection" action. */
  function ActivateDetection(s: State): (t: State)
    ensures t.isArmed
    ensures SameConfiguration(s, t) && SameSample(s, t)
    ensures t.illuminated == s.illuminated && t.fireNextUpdate == s.fireNextUpdate
  {
    s.(isArmed := true)
  }

  /** The "Deactivate Detection" action. */
  function DeactivateDetection(s: State): (t: State)
    ensures !t.isArmed
    ensures SameConfiguration(s, t) && SameSample(s, t)
    ensures t.illuminated == s.illuminated && t.fireNextUpdate == s.fireNextUpdate
  {
    s.(isArmed := false)
  }

  /** The height field of the unit not in use is zero. */
  predicate UnitsConsistent(s: State)
  {
    if s.useKilometer then s.meterHeight == 0.0 else s.kilometerHeight == 0.0
  }

  /** The field zeroing of updateButtons: the height of the unit not in use is reset. */
  function UpdateButtons(s: State): (t: State)
    ensures UnitsConsistent(t)
    ensures TargetHeight(t) == TargetHeight(s)
    ensures t.useKilometer ==> t.kilometerHeight == s.kilometerHeight
    ensures !t.useKilometer ==> t.meterHeight == s.meterHeight
    ensures t.useKilometer == s.useKilometer && t.group == s.group &&
            t.direction == s.direction && t.autoReset == s.autoReset && t.isArmed == s.isArmed
    ensures SameSample(s, t) && t.illuminated == s.illuminated && t.fireNextUpdate == s.fireNextUpdate
  {
    if s.useKilometer then s.(meterHeight := 0.0) else s.(kilometerHeight := 0.0)
  }

  /** The "Use Kilometers" event. */
  function UseKilometers(s: State): (t: State)
    ensures t.useKilometer && t.meterHeight == 0.0 && t.kilometerHeight == s.kilometerHeight
    ensures TargetHeight(t) == s.kilometerHeight * 1000.0
    ensures t.group == s.group && t.direction == s.direction && t.autoReset == s.autoReset
    ensures t.isArmed == s.isArmed && SameSample(s, t)
    ensures t.illuminated == s.illuminated && t.fireNextUpdate == s.fireNextUpdate
  {
    UpdateButtons(s.(useKilometer := true))
  }

  /** The "Use Meters" event. */
  function UseMeters(s: State): (t: State)
    ensures !t.useKilometer && t.kilometerHeight == 0.0 && t.meterHeight == s.meterHeight
    ensures TargetHeight(t) == s.meterHeight
    ensures t.group == s.group && t.direction == s.direction && t.autoReset == s.autoReset
    ensures t.isArmed == s.isArmed && SameSample(s, t)
    ensures t.illuminated == s.illuminated && t.fireNextUpdate == s.fireNextUpdate
  {
    UpdateButtons(s.(useKilometer := false))
  }

  /**
   * Switching to kilometres and back loses the metre height: both heights,
   * and so the target, are zero afterwards.
   */
  lemma UnitRoundTripClearsTarget(s: State)
    ensures UseMeters(UseKilometers(s)).meterHeight == 0.0
    ensures UseMeters(UseKilometers(s)).kilometerHeight == 0.0
    ensures TargetHeight(UseMeters(UseKilometers(s))) == 0.0
  {
  }
}
