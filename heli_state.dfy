/** The flight supervisor of heliState.c: four flight states, the take-off lock and the
    yaw-reference scan flag, and the set-point writes the supervisor makes. */
module HeliState {
  import opened CInt
  import opened PwmRotor

  /** heliState.h */
  datatype FlightState = Landed | TakingOff | Flying | Landing

  /** getHeliState: the name HELISTATE_STRING holds at the state's index. */
  function StateName(s: FlightState): string {
    match s
    case Landed => "LANDED"
    case TakingOff => "TAKING OFF"
    case Flying => "FLYING"
    case Landing => "LANDING"
  }

  lemma StateNamesDistinct(s: FlightState, t: FlightState)
    requires s != t
    ensures StateName(s) != StateName(t)
  {
  }

  /** The four direction buttons' presses on one poll. */
  datatype Buttons = Buttons(left: bool, right: bool, up: bool, down: bool)

  const NoButtons := Buttons(false, false, false, false)

  /** What the supervisor reads and writes: the statics of heliState.c (state,
      `landedLock`, `scanFlag`), the PWM output state, and the set-point store. */
  datatype Supervisor = Supervisor(
    state: FlightState, landedLock: bool, scanFlag: bool, pwmOn: bool,
    altSet: int16, yawSet: int16, minAlt: uint16, maxAlt: uint16)

  /** The start-up condition once initAltLimits has read the landed altitude. */
  function Calibrated(landed: uint16): Supervisor {
    Supervisor(Landed, true, true, false, ToInt16(landed), -223, landed, MaxAltFor(landed))
  }

  /** takeoffComplete: always commands the 5% take-off altitude; once the helicopter
      is above 3%, either reports completion (reference found) or keeps commanding
      the sweep that looks for the yaw reference. */
  function TakeoffComplete(s: Supervisor, altitude: uint16): (r: (bool, Supervisor))
    ensures r.0 <==> altitude < s.minAlt - AltTakeoff + AltLand && !s.scanFlag
    ensures r.1.altSet == ToInt16(s.minAlt - AltTakeoff)
    ensures r.1.yawSet == (if altitude < s.minAlt - AltTakeoff + AltLand && s.scanFlag then 223 else s.yawSet)
    ensures r.1.(altSet := s.altSet, yawSet := s.yawSet) == s
  {
    var target := s.minAlt - AltTakeoff;
    var s1 := s.(altSet := ToInt16(target));
    if altitude < target + AltLand then
      if !s1.scanFlag then (true, s1) else (false, s1.(yawSet := 223))
    else
      (false, s1)
  }

  /** landingComplete: once yaw is within [-YAW_LIMIT, YAW_LIMIT) commands ground
      level, and reports completion when the altitude is within ALT_LAND of it. */
  function LandingComplete(s: Supervisor, yaw: int, altitude: uint16): (r: (bool, Supervisor))
    ensures r.0 <==> -YawLimit <= yaw < YawLimit && s.minAlt - AltLand <= altitude <= s.minAlt
    ensures r.1.altSet == (if -YawLimit <= yaw < YawLimit then ToInt16(s.minAlt) else s.altSet)
    ensures r.1.(altSet := s.altSet) == s
  {
    if -YawLimit <= yaw < YawLimit then
      var s1 := s.(altSet := ToInt16(s.minAlt));
      if altitude <= s.minAlt && altitude >= s.minAlt - AltLand then (true, s1) else (false, s1)
    else
      (false, s)
  }

  /** poleButtons: LEFT -> decYaw, RIGHT -> incYaw, UP -> incAlt, DOWN -> decAlt, in
      that order; in-range set points stay in range. */
  function PoleButtons(s: Supervisor, b: Buttons): (r: Supervisor)
    ensures r.(altSet := s.altSet, yawSet := s.yawSet) == s
    ensures !b.left && !b.right ==> r.yawSet == s.yawSet
    ensures b.left && !b.right ==> r.yawSet == DecYaw(s.yawSet)
    ensures b.right && !b.left ==> r.yawSet == IncYaw(s.yawSet)
    ensures b.left && b.right ==> r.yawSet == IncYaw(DecYaw(s.yawSet))
    ensures !b.up && !b.down ==> r.altSet == s.altSet
    ensures b.up && !b.down ==> r.altSet == IncAlt(s.altSet, s.maxAlt)
    ensures b.down && !b.up ==> r.altSet == DecAlt(s.altSet, s.minAlt)
    ensures b.up && b.down ==> r.altSet == DecAlt(IncAlt(s.altSet, s.maxAlt), s.minAlt)
    ensures YawInRange(s.yawSet) ==> YawInRange(r.yawSet)
    ensures s.minAlt < 0x8000 && AltInBand(s.altSet, s.minAlt, s.maxAlt) ==> AltInBand(r.altSet, s.minAlt, s.maxAlt)
    ensures b == NoButtons ==> r == s
  {
    var yaw1 := if b.left then DecYaw(s.yawSet) else s.yawSet;
    var yaw2 := if b.right then IncYaw(yaw1) else yaw1;
    var alt1 := if b.up then IncAlt(s.altSet, s.maxAlt) else s.altSet;
    var alt2 := if b.down then DecAlt(alt1, s.minAlt) else alt1;
    s.(yawSet := yaw2, altSet := alt2)
  }

  /** updateHelicopterState: one supervisory tick with the switch level, the current
      yaw and altitude, and the buttons pressed. */
  function Update(s: Supervisor, sw1High: bool, yaw: int, altitude: uint16, b: Buttons): (r: Supervisor)
    ensures r.landedLock ==> s.landedLock
    ensures r.scanFlag == s.scanFlag && r.minAlt == s.minAlt && r.maxAlt == s.maxAlt
    ensures s.state == Landed ==>
              && r.landedLock == (s.landedLock && sw1High)
              && (r.state == TakingOff <==> !s.landedLock && sw1High)
              && (r.state != TakingOff ==> r.state == Landed && !r.pwmOn)
              && (r.state == TakingOff ==> r.pwmOn == s.pwmOn)
              && r.altSet == s.altSet && r.yawSet == s.yawSet
    ensures s.state == TakingOff ==>
              && r.pwmOn
              && r.(state := s.state, pwmOn := s.pwmOn) == TakeoffComplete(s, altitude).1
              && (r.state == Flying <==> TakeoffComplete(s, altitude).0)
              && (r.state != Flying ==> r.state == TakingOff)
    ensures s.state == Flying ==>
              && r.pwmOn == s.pwmOn
              && r.altSet == PoleButtons(s, b).altSet && r.yawSet == PoleButtons(s, b).yawSet
              && r.state == (if sw1High then Flying else Landing)
    ensures s.state == Landing ==>
              && r.pwmOn == s.pwmOn && r.yawSet == 0
              && r.(state := s.state) == LandingComplete(s.(yawSet := 0), yaw, altitude).1
              && (r.state == Landed <==> LandingComplete(s, yaw, altitude).0)
              && (r.state != Landed ==> r.state == Landing)
  {
    match s.state
    case Landed =>
      var lock := if !sw1High then false else s.landedLock;
      if !lock && sw1High then s.(landedLock := lock, state := TakingOff)
      else s.(landedLock := lock, pwmOn := false)
    case TakingOff =>
      var (done, s1) := TakeoffComplete(s.(pwmOn := true), altitude);
      if done then s1.(state := Flying) else s1
    case Flying =>
      var s1 := PoleButtons(s, b);
      if !sw1High then s1.(state := Landing) else s1
    case Landing =>
      var (done, s1) := LandingComplete(s.(yawSet := 0), yaw, altitude);
      if done then s1.(state := Landed) else s1
  }

  /** Buttons are polled in FLYING only. */
  lemma ButtonsOnlyWhenFlying(s: Supervisor, sw1High: bool, yaw: int, altitude: uint16, b: Buttons)
    requires s.state != Flying
    ensures Update(s, sw1High, yaw, altitude, b) == Update(s, sw1High, yaw, altitude, NoButtons)
  {
  }

  /** yawRefHandler: the first time the reference is seen while scanning, the yaw
      set point is zeroed and scanning stops; after that nothing changes. (The
      handler also zeroes the yaw position, which the decoder holds.) */
  function YawRefHandler(s: Supervisor): (r: Supervisor)
    ensures !r.scanFlag
    ensures s.scanFlag ==> r == s.(yawSet := 0, scanFlag := false)
    ensures !s.scanFlag ==> r == s
  {
    if s.scanFlag then s.(yawSet := 0, scanFlag := false) else s
  }

  /** What reaches the supervisor: a supervisory tick, or the yaw-reference interrupt. */
  datatype Event = Tick(sw1High: bool, yaw: int, altitude: uint16, buttons: Buttons) | YawRef

  function Apply(s: Supervisor, e: Event): Supervisor {
    match e
    case Tick(sw1High, yaw, altitude, b) => Update(s, sw1High, yaw, altitude, b)
    case YawRef => YawRefHandler(s)
  }

  function Run(s: Supervisor, events: seq<Event>): Supervisor
    decreases |events|
  {
    if events == [] then s else Run(Apply(s, events[0]), events[1..])
  }

  /** Invariant of every reachable supervisor: only LANDED can still be locked, and
      FLYING and LANDING are reached only after the yaw reference has been found. */
  ghost predicate Inv(s: Supervisor) {
    && (s.state != Landed ==> !s.landedLock)
    && (s.state == Flying || s.state == Landing ==> !s.scanFlag)
  }

  lemma CalibratedInv(landed: uint16)
    ensures Inv(Calibrated(landed))
  {
  }

  lemma {:induction false} RunPreservesInv(s: Supervisor, events: seq<Event>)
    requires Inv(s)
    ensures Inv(Run(s, events))
    decreases |events|
  {
    if events != [] {
      RunPreservesInv(Apply(s, events[0]), events[1..]);
    }
  }

  /** Once released, the take-off lock is never set again. */
  lemma {:induction false} LockNeverReturns(s: Supervisor, events: seq<Event>)
    requires !s.landedLock
    ensures !Run(s, events).landedLock
    decreases |events|
  {
    if events != [] {
      LockNeverReturns(Apply(s, events[0]), events[1..]);
    }
  }

  /** Once cleared, the scan flag is never set again. */
  lemma {:induction false} ScanNeverReturns(s: Supervisor, events: seq<Event>)
    requires !s.scanFlag
    ensures !Run(s, events).scanFlag
    decreases |events|
  {
    if events != [] {
      ScanNeverReturns(Apply(s, events[0]), events[1..]);
    }
  }

  /** Without the yaw-reference interrupt the helicopter never gets past TAKING_OFF:
      there is no time-out. */
  lemma {:induction false} NoFlightWithoutYawRef(s: Supervisor, events: seq<Event>)
    requires Inv(s) && s.scanFlag && YawRef !in events
    ensures Run(s, events).scanFlag
    ensures Run(s, events).state == Landed || Run(s, events).state == TakingOff
    decreases |events|
  {
    if events != [] {
      assert events[0] != YawRef;
      assert YawRef !in events[1..] by {
        assert forall e :: e in events[1..] ==> e in events;
      }
      NoFlightWithoutYawRef(Apply(s, events[0]), events[1..]);
    }
    RunPreservesInv(s, events);
  }

  /** A whole flight: unlock, take off, find the yaw reference, fly, land. */
  lemma WholeFlight()
    ensures var s := Run(Calibrated(2000), [
                Tick(false, -223, 2000, NoButtons),
                Tick(true, -223, 2000, NoButtons),
                Tick(true, -223, 1960, NoButtons),
                YawRef,
                Tick(true, 0, 1950, NoButtons),
                Tick(false, 0, 1940, NoButtons),
                Tick(false, 10, 1940, NoButtons),
                Tick(false, 2, 1990, NoButtons),
                Tick(false, 2, 1990, NoButtons)]);
            s.state == Landed && !s.landedLock && !s.scanFlag && !s.pwmOn
  {
    var s0 := Calibrated(2000);
    var s1 := Update(s0, false, -223, 2000, NoButtons);
    assert s1.state == Landed && !s1.landedLock && !s1.pwmOn;
    var s2 := Update(s1, true, -223, 2000, NoButtons);
    assert s2.state == TakingOff && !s2.pwmOn;
    var s3 := Update(s2, true, -223, 1960, NoButtons);
    assert s3.state == TakingOff && s3.pwmOn && s3.altSet == 1938 && s3.yawSet == 223;
    var s4 := YawRefHandler(s3);
    assert !s4.scanFlag && s4.yawSet == 0;
    var s5 := Update(s4, true, 0, 1950, NoButtons);
    assert s5.state == Flying && s5.pwmOn;
    var s6 := Update(s5, false, 0, 1940, NoButtons);
    assert s6.state == Landing;
    var s7 := Update(s6, false, 10, 1940, NoButtons);
    assert s7.state == Landing && s7.altSet == 1938;
    var s8 := Update(s7, false, 2, 1990, NoButtons);
    assert s8.state == Landed && s8.pwmOn && s8.altSet == 2000;
    var s9 := Update(s8, false, 2, 1990, NoButtons);
    assert s9.state == Landed && !s9.pwmOn;
    var events := [
      Tick(false, -223, 2000, NoButtons),
      Tick(true, -223, 2000, NoButtons),
      Tick(true, -223, 1960, NoButtons),
      YawRef,
      Tick(true, 0, 1950, NoButtons),
      Tick(false, 0, 1940, NoButtons),
      Tick(false, 10, 1940, NoButtons),
      Tick(false, 2, 1990, NoButtons),
      Tick(false, 2, 1990, NoButtons)];
    assert Run(s0, events) == s9 by {
      assert Run(s0, events) == Run(s1, events[1..]);
      assert Run(s1, events[1..]) == Run(s2, events[2..]);
      assert Run(s2, events[2..]) == Run(s3, events[3..]);
      assert Run(s3, events[3..]) == Run(s4, events[4..]);
      assert Run(s4, events[4..]) == Run(s5, events[5..]);
      assert Run(s5, events[5..]) == Run(s6, events[6..]);
      assert Run(s6, events[6..]) == Run(s7, events[7..]);
      assert Run(s7, events[7..]) == Run(s8, events[8..]);
      assert Run(s8, events[8..]) == Run(s9, events[9..]);
    }
  }
}
