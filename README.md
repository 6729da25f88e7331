# KM altimeter: a verified model of its trigger state machine

This project models the altitude-triggered staging part `KM_Altimeter` of
km_SmartParts in Dafny and proves what its trigger logic promises.

On every physics tick (`OnFixedUpdate`) the part does three things:

- It samples the vessel's altitude. It uses the lower of the sea-level
  altitude and the height above terrain.
- It infers whether the vessel is ascending. A sample strictly above the
  previous one counts as ascending.
- It sizes a detection window from one tick's vertical travel plus 5%.

If the part is armed and the configured direction ("All", "Ascent",
"Descent") allows the current travel, it fires when the target height lies
strictly inside the window. The window is offset against the direction of
travel. Firing disarms the part, lights its indicator and sets a one-slot
mailbox flag. With "Auto Reset", a disarmed part rearms once the target lies
strictly outside that window.

On every frame update (`OnUpdate`), a rearmed part turns its indicator off.
If the mailbox flag is set, the part hands its action group to the host's
staging helper once and clears the flag. The "Activate/Deactivate Detection"
actions arm and disarm the part. The "Use Kilometers/Use Meters" events
switch the unit of the target height and zero the height of the unit no
longer shown.

Files:

- `sampling.dfy` (module `AltitudeSampling`): absolute value, the lower
  altitude, and the detection window.
- `trigger.dfy` (module `TriggerRules`): the part's fields as a value
  `State`. It has one function per callback and lemmas about single ticks.
- `altimeter.dfy` (module `Altimeter`): class `KmAltimeter`. Its fields and
  methods follow the C# class statement for statement, except that the fire
  block and the auto-reset block of `OnFixedUpdate` are two methods of their
  own. Each method is proved to change the fields exactly as the matching
  `TriggerRules` function says.
- `traces.dfy` (module `Traces`): runs of arbitrary interleavings of ticks,
  frame updates, actions, unit switches and UI edits of the fields. It holds
  inductive lemmas about whole runs.
- `scenarios.dfy` (module `Scenarios`): concrete boundary cases worked
  through the model.

Altitudes, speeds, heights and the window are Dafny `real`. The direction
is a three-valued datatype. The group is an integer in 0..15.

The model follows the code where one might expect otherwise:

- The previous altitude starts at 0, not at the first sample. So the first
  tick counts as ascending exactly when the vessel is above 0
  (`Scenarios.FirstTickAscendsAboveZero`).
- The indicator is turned off in the frame update, not in the physics tick.
- The comments on the two firing branches speak of triggering "at or above"
  and "at or below" the target, but both tests are strict: a tick that ends
  exactly on the target does not fire (`Scenarios.ArrivingAtTargetDoesNotFire`).
- The rearm block reads `isArmed` as the fire block left it, not a snapshot
  taken at the start of the tick. `TriggerRules.FixedTickIsSnapshotTick`
  proves that both readings give the same tick.

## Model

| member | source | states |
|---|---|---|
| `AltitudeSampling.Abs` | Source/km_altimeter.cs:220 | the result is non-negative and is x or -x |
| `AltitudeSampling.LowerAltitude` | Source/km_altimeter.cs:210-216 | the altitude is at most both the sea-level altitude and sea-level minus terrain altitude, and equals one of them; it is the height above terrain exactly when the terrain altitude is non-negative |
| `AltitudeSampling.DetectionWindow` | Source/km_altimeter.cs:220 | the window is non-negative; it equals abs(speed)*abs(tick)*1.05; it is zero exactly when the speed or the tick length is zero; it is at least one tick's travel, and strictly more when it is non-zero |
| `TriggerRules.InFireWindow` | Source/km_altimeter.cs:177-184 | the two branch tests hold exactly when the direction allows the travel and the biased distance is strictly below the window; equivalently, the target lies strictly between alt-2w and alt when ascending, or strictly between alt and alt+2w when descending; a window of zero or less never passes |
| `TriggerRules.OutOfRearmWindow` | Source/km_altimeter.cs:194-197 | the rearm test ignores the direction; it holds exactly when the biased distance is strictly above the window, that is, when the target lies strictly outside the band the firing test uses |
| `TriggerRules.UpdateAltitude` | Source/km_altimeter.cs:208-221 | the new altitude is the lower reading; ascending holds exactly when the previous altitude is strictly below the new one; the window is the detection window of the reading, so non-negative and zero for a zero speed or tick; no other field changes |
| `TriggerRules.FixedTick` | Source/km_altimeter.cs:170-201 | a tick fires only if the part was armed; firing disarms, lights the indicator and sets the mailbox; a tick that does not fire leaves the indicator and the mailbox alone; Descent never fires while ascending and Ascent never fires while descending; a zero window never fires; an armed part that does not fire stays armed; a disarmed part rearms exactly when auto-reset is on and the target is outside the window; the configuration is unchanged |
| `TriggerRules.FixedTickIsSnapshotTick` | Source/km_altimeter.cs:175-200 | re-reading `isArmed` after the fire block gives the same tick as deciding on its value at tick start, because a tick that fires never rearms |
| `TriggerRules.EdgeNeitherFiresNorRearms` | Source/km_altimeter.cs:177-198 | when the biased distance equals the window exactly, the tick neither fires nor changes arming or the mailbox |
| `TriggerRules.CrossingIsDetected` | Source/km_altimeter.cs:175-189 | an armed part whose direction allows the travel fires on the tick in which it passes the target, provided the tick's travel is within the window |
| `TriggerRules.FrameTick` | Source/km_altimeter.cs:158-168 | afterwards the mailbox is empty; the indicator stays lit only if it was lit and the part is disarmed; exactly one dispatch goes out if the mailbox was set, none otherwise, and it carries the part's group; nothing else changes |
| `TriggerRules.ActivateDetection` | Source/km_altimeter.cs:119-121 | the part is armed and no other field changes |
| `TriggerRules.DeactivateDetection` | Source/km_altimeter.cs:124-126 | the part is disarmed and no other field changes |
| `TriggerRules.UpdateButtons` | Source/km_altimeter.cs:237-269 | the height of the unit not in use becomes zero; the target and the height in use are unchanged; only the two height fields can change |
| `TriggerRules.UseKilometers` | Source/km_altimeter.cs:107-110 | kilometres are in use, the metre height is zero, the target is the kilometre height times 1000, and nothing else changes |
| `TriggerRules.UseMeters` | Source/km_altimeter.cs:113-116 | metres are in use, the kilometre height is zero, the target is the metre height, and nothing else changes |
| `TriggerRules.UnitRoundTripClearsTarget` | Source/km_altimeter.cs:107-116 | switching to kilometres and back to metres leaves both heights, and so the target, at zero |
| `Altimeter.KmAltimeter.constructor` | Source/km_altimeter.cs:76-137 | the persisted fields take the given values; altitude and window start at 0; indicator, direction flag and mailbox start false; nothing has been dispatched |
| `Altimeter.KmAltimeter.OnStart` | Source/km_altimeter.cs:151-152 | the object moves as `TriggerRules.UpdateButtons` says: the height of the unit not in use is zero afterwards and the target is unchanged |
| `Altimeter.KmAltimeter.UseKilometers` | Source/km_altimeter.cs:107-110 | the object moves as `TriggerRules.UseKilometers` says: kilometres in use, metre height zero, kilometre height kept |
| `Altimeter.KmAltimeter.UseMeters` | Source/km_altimeter.cs:113-116 | the object moves as `TriggerRules.UseMeters` says: metres in use, kilometre height zero, metre height kept |
| `Altimeter.KmAltimeter.DoActivateAG` | Source/km_altimeter.cs:119-121 | the part is armed; only `isArmed` may change |
| `Altimeter.KmAltimeter.DoDeActivateAG` | Source/km_altimeter.cs:124-126 | the part is disarmed; only `isArmed` may change |
| `Altimeter.KmAltimeter.OnUpdate` | Source/km_altimeter.cs:158-168 | the object moves as `TriggerRules.FrameTick` says; the group is appended to the dispatch log exactly when the mailbox was set; the mailbox is then empty |
| `Altimeter.KmAltimeter.OnFixedUpdate` | Source/km_altimeter.cs:170-201 | the object moves as `TriggerRules.FixedTick` says and nothing is dispatched; the mailbox changes only on a fire, which disarms and lights; a rearm needs auto-reset |
| `Altimeter.KmAltimeter.FireIfInWindow` | Source/km_altimeter.cs:174-190 | the object moves as `TriggerRules.FireStep` says: an armed part inside the window fires, anything else is left as it was |
| `Altimeter.KmAltimeter.RearmIfOutOfWindow` | Source/km_altimeter.cs:192-200 | the object moves as `TriggerRules.RearmStep` says: a disarmed part with auto-reset outside the window is armed, anything else is left as it was |
| `Altimeter.KmAltimeter.UpdateAltitude` | Source/km_altimeter.cs:208-221 | the object moves as `TriggerRules.UpdateAltitude` says: the lower reading, strict-increase direction, a non-negative window |
| `Altimeter.KmAltimeter.LightsOn` | Source/km_altimeter.cs:223-228 | the indicator flag is set |
| `Altimeter.KmAltimeter.LightsOff` | Source/km_altimeter.cs:230-235 | the indicator flag is cleared |
| `Altimeter.KmAltimeter.UpdateButtons` | Source/km_altimeter.cs:237-269 | the object moves as `TriggerRules.UpdateButtons` says; the height of the unit not in use is zero afterwards |
| `Traces.Step` | Source/km_altimeter.cs:158-201 | only a frame update can dispatch, and a single event dispatches at most once |
| `Traces.OneFirePerArming` | Source/km_altimeter.cs:175-199 | over any run, fires never outnumber the times a disarmed part was armed again (plus one if it starts armed), so once fired the part cannot fire again until it is rearmed |
| `Traces.DispatchesNeverExceedFires` | Source/km_altimeter.cs:164-186 | over any run, dispatches plus a still-pending fire never outnumber fires plus a fire pending at the start: the one-flag mailbox never invents a dispatch |
| `Traces.PhysicsTicksNeverDispatch` | Source/km_altimeter.cs:170-201 | a run made only of physics ticks dispatches nothing |
| `Traces.DispatchesCarryGroup` | Source/km_altimeter.cs:165 | without edits of the group, every dispatch of a run carries the configured group |
| `Traces.PendingFireIsDispatched` | Source/km_altimeter.cs:164-167 | a pending fire survives every event that is not a frame update, and the next frame update dispatches it exactly once |
| `Traces.FireIsDispatched` | Source/km_altimeter.cs:164-189 | a tick that fires, followed anywhere later by a frame update, leads to at least one dispatch beyond those made before the tick: no fire is lost |
| `Traces.UnitsStayConsistent` | Source/km_altimeter.cs:237-269 | once the height of the unit not in use is zero, it stays zero through any run |
| `Traces.RunsFromStartStayConsistent` | Source/km_altimeter.cs:133-152 | from the state start-up leaves (the field initialisers, then `updateButtons`), the height of the unit not in use is zero and the window non-negative after any run |
| `Traces.WindowStaysNonNegative` | Source/km_altimeter.cs:220 | the window stays non-negative through any run that starts with a non-negative window |
| `Scenarios.AscentCrossingFires` | Source/km_altimeter.cs:175-182 | rising from 990 m to 1005 m with a 10 m window and target 1000 m under Ascent fires, disarms, lights the indicator, and the next frame dispatches group 0 once |
| `Scenarios.DescentIgnoresAscentCrossing` | Source/km_altimeter.cs:177-189 | the same crossing under Descent does not fire and the part stays armed |
| `Scenarios.AutoResetRearmsAfterLeaving` | Source/km_altimeter.cs:160-199 | with auto-reset, climbing on to 1050 m rearms the part, and the next frame update turns its indicator off |
| `Scenarios.ArrivingAtTargetDoesNotFire` | Source/km_altimeter.cs:176-187 | a tick that ends exactly on the target (990 m to 1000 m under Ascent, 1010 m to 1000 m under Descent, window 10 m) does not fire |
| `Scenarios.HoverAtTargetDoesNotFire` | Source/km_altimeter.cs:177-220 | hovering exactly at the target gives a zero window and no fire |
| `Scenarios.AllFiresBothWays` | Source/km_altimeter.cs:177-187 | under All, the part fires rising through the target and, after rearming, sinking back through it |
| `Scenarios.TwoFiresOneDispatch` | Source/km_altimeter.cs:164-186 | two fires before one frame update produce one dispatch |
| `Scenarios.FirstTickAscendsAboveZero` | Source/km_altimeter.cs:133-218 | since the previous altitude starts at 0, the first tick counts as ascending exactly when the sampled altitude is above 0 |

## Left out

- Host queries: the vessel's altitude, terrain altitude and vertical speed, and the physics tick length, are not modelled. Their values are the fields of a `Reading` passed to the physics tick.
- Light and animation: `Utility.switchLight` and `playAnimationSetToPosition` have visible effects that are not modelled. Only the `illuminated` flag is.
- The staging helper `km_Helper.fireEvent` is modelled only as an appended entry of a dispatch log. What the host does with the group is not modelled.
- `OnStart`: only its `updateButtons()` call is modelled (`Altimeter.KmAltimeter.OnStart`). `force_activate`, the logging call, and the editor attach, detach and destroy hooks with their draw queue are not modelled. These are host lifecycle code.
- The GUI visibility toggles in `updateButtons` are not modelled. They are UI wiring, and only the height reset is kept.
- The field attributes for persistence and UI widgets are not modelled. Edits through the UI appear only as `Traces` events.
- The 0..1000 m and 0..500 km ranges of the height widgets are not modelled. `Traces.EditHeight` accepts any value.
- The `KSPActionParam` argument of the two actions is not modelled, because the code ignores it.
- IEEE-754 behaviour is not modelled: double and single-precision rounding, NaN and infinities. In particular, `kilometerHeight * 1000` is computed in single precision in the code and here in exact arithmetic.
- A failing `int.Parse(group)` is not modelled. The field's option list only offers 0..15, so the group is a subset type `Group` of 0..15.
- Direction strings other than "Ascent" and "Descent" act as "All" in the code. With the three-valued `Direction` type they cannot occur.
