/** The setpoint store and the two PID control laws of pwmRotor.c. Altitude is in raw
    ADC units, where a larger reading means a lower helicopter; yaw is in encoder steps. */
module PwmRotor {
  import opened CInt

  /** pwmRotor.h */
  const AdcStepFor1V := 1240
  const AltStep := 124
  const AltLand := 24
  const AltTakeoff := 62
  const YawStep := 19
  const YawLimit := 6
  const YawErrorLimit := 224
  const YawRev := 448
  const Gravity := 31
  const Kc: real := 0.8
  const DeltaT: real := 0.004
  const Kpm: real := 0.06
  const Kim: real := 0.08
  const Kdm: real := 0.0001
  const Kpt: real := 1.2
  const Kit: real := 0.01
  const Kdt: real := 0.0
  const DutyMainMin := 15
  const DutyMainMax := 80
  const DutyTailMin := 5
  const DutyTailMax := 85
  const PidTailMax: real := 25.0

  function Max(a: int, b: int): int { if a < b then b else a }
  function Min(a: int, b: int): int { if a < b then a else b }

  // ---------------------------------------------------------------------------
  // Setpoint store

  /** `max_alt` as initAltLimits stores it: one volt of ADC below the landed reading,
      kept in a uint16 and so wrapping when the landed reading is below one volt. */
  function MaxAltFor(landed: uint16): (r: uint16)
    ensures landed >= AdcStepFor1V ==> r == landed - AdcStepFor1V
    ensures landed < AdcStepFor1V ==> r == landed - AdcStepFor1V + 0x1_0000
  {
    ToUInt16(landed - AdcStepFor1V)
  }

  /** incAlt: one step up (a smaller ADC target), never above `max_alt`. */
  function IncAlt(alt: int16, maxAlt: uint16): (r: int16)
    ensures -0x8000 + AltStep <= alt && maxAlt < 0x8000 ==> r == Max(alt - AltStep, maxAlt)
  {
    var a := ToInt16(alt - AltStep);
    if a < maxAlt then ToInt16(maxAlt) else a
  }

  /** decAlt: one step down (a larger ADC target), never below `min_alt - ALT_STEP`. */
  function DecAlt(alt: int16, minAlt: uint16): (r: int16)
    ensures alt + AltStep < 0x8000 && minAlt - AltStep < 0x8000 ==> r == Min(alt + AltStep, minAlt - AltStep)
  {
    var a := ToInt16(alt + AltStep);
    if a > minAlt - AltStep then ToInt16(minAlt - AltStep) else a
  }

  /** The band the altitude buttons keep the setpoint in. */
  ghost predicate AltInBand(alt: int, minAlt: int, maxAlt: int) {
    maxAlt <= alt <= minAlt - AltStep
  }

  /** The two altitude buttons' commands. */
  datatype AltCommand = Raise | Lower

  function ApplyAlt(alt: int16, minAlt: uint16, maxAlt: uint16, cmds: seq<AltCommand>): int16
    decreases |cmds|
  {
    if cmds == [] then alt
    else
      var next := if cmds[0] == Raise then IncAlt(alt, maxAlt) else DecAlt(alt, minAlt);
      ApplyAlt(next, minAlt, maxAlt, cmds[1..])
  }

  /** However many incAlt and decAlt calls are made, a setpoint that starts in
      [max_alt, min_alt - ALT_STEP] stays there. */
  lemma {:induction false} AltCommandsStayInBand(alt: int16, minAlt: uint16, maxAlt: uint16, cmds: seq<AltCommand>)
    requires minAlt < 0x8000 && AltInBand(alt, minAlt, maxAlt)
    ensures AltInBand(ApplyAlt(alt, minAlt, maxAlt, cmds), minAlt, maxAlt)
    decreases |cmds|
  {
    if cmds != [] {
      var next := if cmds[0] == Raise then IncAlt(alt, maxAlt) else DecAlt(alt, minAlt);
      assert AltInBand(next, minAlt, maxAlt);
      AltCommandsStayInBand(next, minAlt, maxAlt, cmds[1..]);
    }
  }

  ghost predicate YawInRange(y: int) {
    -YawErrorLimit <= y <= YawErrorLimit
  }

  ghost predicate YawCongruent(a: int, b: int) {
    (a - b) % YawRev == 0
  }

  /** incYaw: YAW_STEP steps clockwise, wrapping at +180 degrees. */
  function IncYaw(yaw: int16): (r: int16)
    ensures YawInRange(yaw) ==> YawInRange(r) && YawCongruent(r, yaw + YawStep)
  {
    var y := ToInt16(yaw + YawStep);
    if y > YawErrorLimit then ToInt16(-YawErrorLimit + (y - YawErrorLimit)) else y
  }

  /** decYaw: YAW_STEP steps counter-clockwise, wrapping at -180 degrees. */
  function DecYaw(yaw: int16): (r: int16)
    ensures YawInRange(yaw) ==> YawInRange(r) && YawCongruent(r, yaw - YawStep)
  {
    var y := ToInt16(yaw - YawStep);
    if y < -YawErrorLimit then ToInt16(YawErrorLimit + (y + YawErrorLimit)) else y
  }

  /** decYaw undoes incYaw, except that +224 comes back as -224, its other name. */
  lemma IncThenDecYaw(yaw: int16)
    requires YawInRange(yaw)
    ensures DecYaw(IncYaw(yaw)) == (if yaw == YawErrorLimit then -YawErrorLimit else yaw)
  {
  }

  /** incYaw undoes decYaw, except that -224 comes back as +224. */
  lemma DecThenIncYaw(yaw: int16)
    requires YawInRange(yaw)
    ensures IncYaw(DecYaw(yaw)) == (if yaw == -YawErrorLimit then YawErrorLimit else yaw)
  {
  }

  // ---------------------------------------------------------------------------
  // Control laws. The firmware computes in float; the model computes the same
  // expressions over the reals.

  /** Conversion of a floating value to a C integer: the fraction is discarded
      (section 6.3.1.4 of ISO/IEC 9899:1999). */
  function Trunc(x: real): (r: int)
    ensures Abs(r) as real <= (if x < 0.0 then -x else x) < Abs(r) as real + 1.0
    ensures r == 0 || ((r < 0) <==> (x < 0.0))
  {
    if x < 0.0 then -((-x).Floor) else x.Floor
  }

  lemma TruncMonotone(x: real, y: real)
    requires x <= y
    ensures Trunc(x) <= Trunc(y)
  {
  }

  /** The `if / else if` saturation both controllers apply to their output. */
  function Clamp(u: int, lo: int, hi: int): (r: int)
    requires lo <= hi
    ensures lo <= r <= hi
    ensures lo <= u <= hi ==> r == u
    ensures u > hi ==> r == hi
    ensures u < lo ==> r == lo
  {
    if u > hi then hi else if u < lo then lo else u
  }

  /** controllerMain's output before saturation: gravity feed-forward minus the
      P, I and D terms, negated because a larger ADC reading is a lower helicopter. */
  function MainEffort(altSet: int, sensor: int, prevSensor: int, integral: real): real {
    var error := (altSet - sensor) as real;
    var p := Kpm * error;
    var i := Kim * error * DeltaT;
    var d := Kdm * (prevSensor - sensor) as real / DeltaT;
    Gravity as real - p - (integral + i) - d
  }

  /** controllerMain's duty cycle: always within [PWM_DUTY_MAIN_MIN, PWM_DUTY_MAIN_MAX]. */
  function MainControl(altSet: int, sensor: int, prevSensor: int, integral: real): (r: int)
    ensures DutyMainMin <= r <= DutyMainMax
  {
    Clamp(Trunc(MainEffort(altSet, sensor, prevSensor, integral)), DutyMainMin, DutyMainMax)
  }

  /** The lower the helicopter (the larger the ADC reading), the more main-rotor duty. */
  lemma MainControlMonotone(altSet: int, sensor: int, sensor': int, prevSensor: int, integral: real)
    requires sensor <= sensor'
    ensures MainControl(altSet, sensor, prevSensor, integral) <= MainControl(altSet, sensor', prevSensor, integral)
  {
    TruncMonotone(MainEffort(altSet, sensor, prevSensor, integral), MainEffort(altSet, sensor', prevSensor, integral));
  }

  /** controllerTail's yaw error. Unless the take-off sweep is on, an error beyond
      half a revolution is taken the other way round. */
  function TailError(yawSet: int16, sensor: int16, sweepEn: bool): (e: int16)
    ensures !sweepEn && YawInRange(yawSet) && YawInRange(sensor) ==>
              YawInRange(e) && YawCongruent(e, yawSet - sensor)
    ensures sweepEn && YawInRange(yawSet) && YawInRange(sensor) ==> e == yawSet - sensor
  {
    var error := ToInt16(yawSet - sensor);
    if sweepEn then error
    else if error < -YawErrorLimit then ToInt16(YawRev + error)
    else if error > YawErrorLimit then ToInt16(-YawRev + error)
    else error
  }

  /** The tail PID effort P + I + D, limited above by PID_TAIL_MAX but not below. */
  function TailPid(error: int, sensor: int, prevSensor: int): (r: real)
    ensures r <= PidTailMax
  {
    var p := Kpt * error as real;
    var i := Kit * error as real * DeltaT;
    var d := Kdt * (prevSensor - sensor) as real / DeltaT;
    var pid := p + i + d;
    if pid > PidTailMax then PidTailMax else pid
  }

  /** controllerTail's duty cycle: the PID effort plus the coupling to the main rotor,
      always within [PWM_DUTY_TAIL_MIN, PWM_DUTY_TAIL_MAX]. */
  function TailControl(mainControl: int, error: int, sensor: int, prevSensor: int): (r: int)
    ensures DutyTailMin <= r <= DutyTailMax
  {
    Clamp(Trunc(TailPid(error, sensor, prevSensor) + mainControl as real * Kc), DutyTailMin, DutyTailMax)
  }

  /** The coupling term: more main-rotor duty never means less tail-rotor duty. */
  lemma TailControlMonotone(mainControl: int, mainControl': int, error: int, sensor: int, prevSensor: int)
    requires mainControl <= mainControl'
    ensures TailControl(mainControl, error, sensor, prevSensor) <= TailControl(mainControl', error, sensor, prevSensor)
  {
    var pid := TailPid(error, sensor, prevSensor);
    TruncMonotone(pid + mainControl as real * Kc, pid + mainControl' as real * Kc);
  }
}
