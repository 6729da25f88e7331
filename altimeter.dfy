/**
 * The KM altimeter part as an object whose callbacks update its fields in
 * place, statement for statement. Each method is proved to move the
 * object's state exactly as the matching function of module TriggerRules
 * says, so the properties proved there hold of the object.
 */
module Altimeter {
  import opened AltitudeSampling
  import opened TriggerRules

  class KmAltimeter {
    // persisted fields
    var group: Group
    var meterHeight: real
    var kilometerHeight: real
    var isArmed: bool
    var direction: Direction
    var autoReset: bool
    var useKilometer: bool

    // runtime fields
    var alt: real
    var currentWindow: real
    var illuminated: bool
    var ascending: bool
    var fireNextUpdate: bool

    /** The groups handed to the host's staging helper so far, oldest first. */
    var dispatched: seq<Group>

    /** The fields as a value. */
    function Model(): State
      reads this
    {
      State(group, meterHeight, kilometerHeight, isArmed, direction, autoReset, useKilometer,
            alt, currentWindow, illuminated, ascending, fireNextUpdate)
    }

    /** A part with the given persisted fields; the runtime fields start at their initial values. */
    constructor (group: Group, meterHeight: real, kilometerHeight: real, isArmed: bool,
                 direction: Direction, autoReset: bool, useKilometer: bool)
      ensures Model() == Initial(group, meterHeight, kilometerHeight, isArmed, direction, autoReset, useKilometer)
      ensures dispatched == []
    {
      this.group := group;
      this.meterHeight := meterHeight;
      this.kilometerHeight := kilometerHeight;
      this.isArmed := isArmed;
      this.direction := direction;
      this.autoReset := autoReset;
      this.useKilometer := useKilometer;
      alt := 0.0;
      currentWindow := 0.0;
      illuminated := false;
      ascending := false;
      fireNextUpdate := false;
      dispatched := [];
    }

    /** Start-up: of OnStart, only the initial button layout, which resets the unused height. */
    method OnStart()
      modifies this`meterHeight, this`kilometerHeight
      ensures Model() == TriggerRules.UpdateButtons(old(Model()))
      ensures UnitsConsistent(Model())
      ensures TargetHeight(Model()) == TargetHeight(old(Model()))
    {
      UpdateButtons();
    }

    /** The "Use Kilometers" event. */
    method UseKilometers()
      modifies this`useKilometer, this`meterHeight, this`kilometerHeight
      ensures Model() == TriggerRules.UseKilometers(old(Model()))
      ensures useKilometer && meterHeight == 0.0 && kilometerHeight == old(kilometerHeight)
    {
      useKilometer := true;
      UpdateButtons();
    }

    /** The "Use Meters" event. */
    method UseMeters()
      modifies this`useKilometer, this`meterHeight, this`kilometerHeight
      ensures Model() == TriggerRules.UseMeters(old(Model()))
      ensures !useKilometer && kilometerHeight == 0.0 && meterHeight == old(meterHeight)
    {
      useKilometer := false;
      UpdateButtons();
    }

    /** The "Activate Detection" action. */
    method DoActivateAG()
      modifies this`isArmed
      ensures isArmed
      ensures Model() == ActivateDetection(old(Model()))
    {
      isArmed := true;
    }

    /** The "Deactivate Detection" action. */
    method DoDeActivateAG()
      modifies this`isArmed
      ensures !isArmed
      ensures Model() == DeactivateDetection(old(Model()))
    {
      isArmed := false;
    }

    /** The frame update: turns the indicator off once rearmed, and drains the fire mailbox. */
    method OnUpdate()
      modifies this`illuminated, this`fireNextUpdate, this`dispatched
      ensures Model() == FrameTick(old(Model())).0
      ensures dispatched == old(dispatched) + FrameTick(old(Model())).1
      ensures !fireNextUpdate
      ensures illuminated == (old(illuminated) && !old(isArmed))
      ensures dispatched == if old(fireNextUpdate) then old(dispatched) + [group] else old(dispatched)
    {
      if isArmed && illuminated {
        LightsOff();
      }
      if fireNextUpdate {
        dispatched := dispatched + [group];
        fireNextUpdate := false;
      }
    }

    /** The physics tick: sample, then fire or rearm. */
    method OnFixedUpdate(r: Reading)
      modifies this`alt, this`ascending, this`currentWindow, this`isArmed, this`illuminated, this`fireNextUpdate
      ensures currentWindow >= 0.0
      ensures Model() == FixedTick(old(Model()), r)
      ensures fireNextUpdate != old(fireNextUpdate) ==> old(isArmed) && !isArmed && illuminated
      ensures isArmed && !old(isArmed) ==> autoReset
    {
      UpdateAltitude(r);
      FireIfInWindow();
      RearmIfOutOfWindow();
    }

    /** The fire block of the physics tick: if armed and inside the window, fire. */
    method FireIfInWindow()
      modifies this`isArmed, this`illuminated, this`fireNextUpdate
      ensures Model() == FireStep(old(Model()))
    {
      if isArmed {
        if direction != Descent && ascending && Abs((alt - currentWindow) - TargetHeight(Model())) < currentWindow {
          fireNextUpdate := true;
          LightsOn();
          isArmed := false;
        } else if direction != Ascent && !ascending && Abs((alt + currentWindow) - TargetHeight(Model())) < currentWindow {
          fireNextUpdate := true;
          LightsOn();
          isArmed := false;
        }
      }
    }

    /** The auto-reset block of the physics tick: if disarmed and outside the window, rearm. */
    method RearmIfOutOfWindow()
      modifies this`isArmed
      ensures Model() == RearmStep(old(Model()))
    {
      if !isArmed && autoReset {
        if ascending && Abs((alt - currentWindow) - TargetHeight(Model())) > currentWindow {
          isArmed := true;
        } else if !ascending && Abs((alt + currentWindow) - TargetHeight(Model())) > currentWindow {
          isArmed := true;
        }
      }
    }

    /** Samples the altitude, infers the direction and sizes the window. */
    method UpdateAltitude(r: Reading)
      modifies this`alt, this`ascending, this`currentWindow
      ensures currentWindow == DetectionWindow(r.fixedDeltaTime, r.verticalSpeed)
      ensures Model() == TriggerRules.UpdateAltitude(old(Model()), r)
      ensures alt <= r.altSea && alt <= r.altSea - r.terrainAltitude
      ensures ascending <==> old(alt) < alt
    {
      var altSea := r.altSea;
      var altSurface := altSea - r.terrainAltitude;
      var lastAlt := alt;
      alt := if altSurface < altSea then altSurface else altSea;
      ascending := lastAlt < alt;
      currentWindow := Abs((r.fixedDeltaTime * r.verticalSpeed) * Margin);
    }

    /** Lights the indicator (only its flag is modelled). */
    method LightsOn()
      modifies this`illuminated
      ensures illuminated
    {
      illuminated := true;
    }

    /** Turns the indicator off (only its flag is modelled). */
    method LightsOff()
      modifies this`illuminated
      ensures !illuminated
    {
      illuminated := false;
    }

    /** Of updateButtons, only the reset of the height field of the unit not in use. */
    method UpdateButtons()
      modifies this`meterHeight, this`kilometerHeight
      ensures Model() == TriggerRules.UpdateButtons(old(Model()))
      ensures UnitsConsistent(Model())
    {
      if useKilometer {
        meterHeight := 0.0;
      } else {
        kilometerHeight := 0.0;
      }
    }
  }
}
