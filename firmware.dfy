/** The firmware's statics, one class per C file: the yaw decoder of quadrature.c, the
    sample ring of ADC.c, the set-point store of pwmRotor.c and the static memories of its
    two controllers, the supervisor of heliState.c, and the task scheduler and loop
    variables of main.c. The methods of the first five classes are the C functions of the
    same name; those of Heli are SysTickIntHandler and the blocks of main's start-up and
    loop. Each is proved against the pure definitions of the other modules. Interrupt
    handlers are methods that run to completion. */
module Firmware {
  import opened CInt
  import Quadrature
  import Adc
  import opened PwmRotor
  import HeliState
  import Scheduler

  /** quadrature.c: `yawPosition` and GPIOYawHandler's static `last_state`. */
  class YawDecoder {
    var yawPosition: int
    var lastPhase: Quadrature.Phase

    /** The yaw position is within one revolution. */
    ghost predicate Valid()
      reads this
    {
      Quadrature.InRange(yawPosition)
    }

    function State(): Quadrature.Decoder
      reads this
    {
      Quadrature.Decoder(yawPosition, lastPhase)
    }

    constructor ()
      ensures Valid() && State() == Quadrature.Initial
    {
      yawPosition := Quadrature.InitialYawPosition;
      lastPhase := 0;
    }

    /** GPIOYawHandler with the pins reading `phase`. */
    method GpioYawHandler(phase: Quadrature.Phase)
      requires Valid()
      modifies this
      ensures Valid()
      ensures State() == Quadrature.Step(old(State()), phase)
    {
      if phase == lastPhase {
        return;
      }
      if Quadrature.IsReverse(lastPhase, phase) {
        yawPosition := yawPosition - 1;
      } else {
        yawPosition := yawPosition + 1;
      }
      if yawPosition > Quadrature.WrapStep {
        yawPosition := -Quadrature.WrapStep + (yawPosition - Quadrature.WrapStep);
      }
      if yawPosition < -Quadrature.WrapStep {
        yawPosition := Quadrature.WrapStep + (yawPosition + Quadrature.WrapStep);
      }
      lastPhase := phase;
    }

    method SetYawZero()
      modifies this`yawPosition
      ensures Valid() && yawPosition == 0
    {
      yawPosition := 0;
    }
  }

  /** ADC.c: the sample ring `g_inBuffer` with its write and read indices. */
  class Sampler {
    const ring: array<uint32>
    var windex: nat
    var rindex: nat

    /** The ring has BUF_SIZE slots and both indices point into it. */
    ghost predicate Valid()
      reads this
    {
      ring.Length == Adc.BufSize && windex < Adc.BufSize && rindex < Adc.BufSize
    }

    /** initCircBuf: every slot cleared, both indices at 0. */
    constructor ()
      ensures Valid() && fresh(ring) && windex == 0 && rindex == 0
      ensures forall i :: 0 <= i < ring.Length ==> ring[i] == 0
    {
      ring := new uint32[Adc.BufSize](_ => 0);
      windex, rindex := 0, 0;
    }

    /** ADCIntHandler with the conversion result `value`: written at the write index,
        which then advances round the ring. */
    method AdcIntHandler(value: uint32)
      requires Valid()
      modifies ring, this`windex
      ensures Valid()
      ensures ring[..] == old(ring[..])[old(windex) := value]
      ensures windex == (old(windex) + 1) % Adc.BufSize
    {
      ring[windex] := value;
      windex := if windex + 1 >= Adc.BufSize then 0 else windex + 1;
    }

    /** getAltMean: BUF_SIZE reads round the ring from the read index, summed in a
        uint32; the reads bring the read index back to where it started. */
    method GetAltMean() returns (mean: uint16)
      requires Valid()
      modifies this`rindex
      ensures Valid() && rindex == old(rindex)
      ensures mean == Adc.AltMean(ring[..])
    {
      ghost var start := rindex;
      ghost var order := Adc.Rotate(ring[..], start);
      var sum: uint32 := 0;
      var i := 0;
      while i < Adc.BufSize
        invariant 0 <= i <= Adc.BufSize
        invariant rindex == if start + i < Adc.BufSize then start + i else start + i - Adc.BufSize
        invariant sum == ToUInt32(Adc.Sum(order[..i]))
      {
        assert order[i] == ring[rindex];
        Adc.SumPrefixStep(order, i);
        Adc.WrapAdd(Adc.Sum(order[..i]), ring[rindex]);
        sum := ToUInt32(sum + ring[rindex]);
        rindex := if rindex + 1 >= Adc.BufSize then 0 else rindex + 1;
        i := i + 1;
      }
      assert order[..Adc.BufSize] == order;
      Adc.SumRotate(ring[..], start);
      mean := ToUInt16(ToUInt32(2 * sum + Adc.BufSize) / 2 / Adc.BufSize);
    }
  }

  /** pwmRotor.c: the set points, the altitude limits, and whether PWM_ON or PWM_OFF
      was called last. */
  class Rotor {
    var altSetPoint: int16
    var yawSetPoint: int16
    var maxAlt: uint16
    var minAlt: uint16
    var pwmOn: bool

    constructor ()
      ensures altSetPoint == 0 && yawSetPoint == -223 && maxAlt == 0 && minAlt == 0 && !pwmOn
    {
      altSetPoint, yawSetPoint := 0, -223;
      maxAlt, minAlt := 0, 0;
      pwmOn := false;
    }

    /** initAltLimits: ground level is the landed reading, the top one volt above it. */
    method InitAltLimits(landed: uint16)
      modifies this`minAlt, this`maxAlt, this`altSetPoint
      ensures minAlt == landed && maxAlt == MaxAltFor(landed) && altSetPoint == ToInt16(landed)
    {
      minAlt := landed;
      maxAlt := ToUInt16(landed - AdcStepFor1V);
      altSetPoint := ToInt16(landed);
    }

    method IncAlt()
      modifies this`altSetPoint
      ensures altSetPoint == PwmRotor.IncAlt(old(altSetPoint), maxAlt)
    {
      altSetPoint := ToInt16(altSetPoint - AltStep);
      if altSetPoint < maxAlt {
        altSetPoint := ToInt16(maxAlt);
      }
    }

    method DecAlt()
      modifies this`altSetPoint
      ensures altSetPoint == PwmRotor.DecAlt(old(altSetPoint), minAlt)
    {
      altSetPoint := ToInt16(altSetPoint + AltStep);
      if altSetPoint > minAlt - AltStep {
        altSetPoint := ToInt16(minAlt - AltStep);
      }
    }

    method SetAlt(setPoint: int16)
      modifies this`altSetPoint
      ensures altSetPoint == setPoint
    {
      altSetPoint := setPoint;
    }

    method IncYaw()
      modifies this`yawSetPoint
      ensures yawSetPoint == PwmRotor.IncYaw(old(yawSetPoint))
    {
      yawSetPoint := ToInt16(yawSetPoint + YawStep);
      if yawSetPoint > YawErrorLimit {
        yawSetPoint := ToInt16(-YawErrorLimit + (yawSetPoint - YawErrorLimit));
      }
    }

    method DecYaw()
      modifies this`yawSetPoint
      ensures yawSetPoint == PwmRotor.DecYaw(old(yawSetPoint))
    {
      yawSetPoint := ToInt16(yawSetPoint - YawStep);
      if yawSetPoint < -YawErrorLimit {
        yawSetPoint := ToInt16(YawErrorLimit + (yawSetPoint + YawErrorLimit));
      }
    }

    method SetYaw(setPoint: int16)
      modifies this`yawSetPoint
      ensures yawSetPoint == setPoint
    {
      yawSetPoint := setPoint;
    }
  }

  /** pwmRotor.c: the function statics of controllerMain and controllerTail. Their
      integrals `dI` are never assigned after the initialiser, so they are constants. */
  class Controllers {
    const rotor: Rotor
    const mainIntegral: real := 0.0
    var mainPrevSensor: uint16
    const tailIntegral: real := 0.0
    var tailPrevSensor: int16

    constructor (rotor: Rotor)
      ensures this.rotor == rotor && mainPrevSensor == 0 && tailPrevSensor == 0
    {
      this.rotor := rotor;
      mainPrevSensor, tailPrevSensor := 0, 0;
    }

    /** controllerMain: the duty is MainControl of the set point, the reading and the
        previous reading, always in [15, 80]; the reading is remembered. The integral
        accumulation updates a local only, so the integral term stays 0. */
    method ControllerMain(sensor: uint16) returns (control: int)
      modifies this`mainPrevSensor
      ensures mainPrevSensor == sensor
      ensures control == MainControl(rotor.altSetPoint, sensor, old(mainPrevSensor), mainIntegral)
      ensures DutyMainMin <= control <= DutyMainMax
    {
      var error := (rotor.altSetPoint - sensor) as real;
      var p := Kpm * error;
      var i := Kim * error * DeltaT;
      var d := Kdm * (mainPrevSensor - sensor) as real / DeltaT;
      control := Trunc(Gravity as real - p - (mainIntegral + i) - d);
      if control > DutyMainMax {
        control := DutyMainMax;
      } else if control < DutyMainMin {
        control := DutyMainMin;
      } else {
        i := i + mainIntegral;
      }
      mainPrevSensor := sensor;
    }

    /** controllerTail: the duty is TailControl of the main duty and the (unwrapped
        while sweeping) yaw error, always in [5, 85]; the reading is remembered. */
    method ControllerTail(mainControl: int, sensor: int16, sweep: bool) returns (control: int)
      modifies this`tailPrevSensor
      ensures tailPrevSensor == sensor
      ensures control == TailControl(mainControl, TailError(rotor.yawSetPoint, sensor, sweep), sensor, old(tailPrevSensor))
      ensures DutyTailMin <= control <= DutyTailMax
    {
      var error := ToInt16(rotor.yawSetPoint - sensor);
      if !sweep {
        if error < -YawErrorLimit {
          error := ToInt16(YawRev + error);
        } else if error > YawErrorLimit {
          error := ToInt16(-YawRev + error);
        }
      }
      assert error == TailError(rotor.yawSetPoint, sensor, sweep);
      var p := Kpt * error as real;
      var i := Kit * error as real * DeltaT;
      var d := Kdt * (tailPrevSensor - sensor) as real / DeltaT;
      var pidTail := p + i + d;
      if pidTail > PidTailMax {
        pidTail := PidTailMax;
      }
      assert pidTail == TailPid(error, sensor, tailPrevSensor);
      var coupling := mainControl as real * Kc;
      control := Trunc(pidTail + coupling);
      if control > DutyTailMax {
        control := DutyTailMax;
      } else if control < DutyTailMin {
        control := DutyTailMin;
      } else {
        i := i + tailIntegral;
      }
      tailPrevSensor := sensor;
    }
  }

  /** heliState.c: the flight state, the landed lock and the yaw-reference scan flag,
      acting on the set-point store and the yaw decoder. */
  class Supervisor {
    var heliState: HeliState.FlightState
    var landedLock: bool
    var scanFlag: bool
    const rotor: Rotor
    const decoder: YawDecoder

    /** The supervisor's state together with the set-point store it drives. */
    function State(): HeliState.Supervisor
      reads this, rotor
    {
      HeliState.Supervisor(heliState, landedLock, scanFlag, rotor.pwmOn,
                           rotor.altSetPoint, rotor.yawSetPoint, rotor.minAlt, rotor.maxAlt)
    }

    constructor (rotor: Rotor, decoder: YawDecoder)
      ensures this.rotor == rotor && this.decoder == decoder
      ensures heliState == HeliState.Landed && landedLock && scanFlag
    {
      this.rotor, this.decoder := rotor, decoder;
      heliState, landedLock, scanFlag := HeliState.Landed, true, true;
    }

    method TakeoffComplete(altitude: uint16) returns (done: bool)
      modifies rotor`altSetPoint, rotor`yawSetPoint
      ensures (done, State()) == HeliState.TakeoffComplete(old(State()), altitude)
    {
      rotor.SetAlt(ToInt16(rotor.minAlt - AltTakeoff));
      if altitude < rotor.minAlt - AltTakeoff + AltLand {
        if !scanFlag {
          return true;
        } else {
          rotor.SetYaw(223);
          return false;
        }
      } else {
        return false;
      }
    }

    method LandingComplete(yaw: int, altitude: uint16) returns (done: bool)
      modifies rotor`altSetPoint
      ensures (done, State()) == HeliState.LandingComplete(old(State()), yaw, altitude)
    {
      if yaw >= -YawLimit && yaw < YawLimit {
        rotor.SetAlt(ToInt16(rotor.minAlt));
        if altitude <= rotor.minAlt && altitude >= rotor.minAlt - AltLand {
          return true;
        } else {
          return false;
        }
      } else {
        return false;
      }
    }

    /** poleButtons with the presses `b` that updateButtons/checkButton report. */
    method PoleButtons(b: HeliState.Buttons)
      modifies rotor`altSetPoint, rotor`yawSetPoint
      ensures State() == HeliState.PoleButtons(old(State()), b)
    {
      if b.left {
        rotor.DecYaw();
      }
      if b.right {
        rotor.IncYaw();
      }
      if b.up {
        rotor.IncAlt();
      }
      if b.down {
        rotor.DecAlt();
      }
    }

    /** updateHelicopterState with SW1 reading `sw1High` and the buttons `b`. */
    method UpdateHelicopterState(sw1High: bool, yaw: int, altitude: uint16, b: HeliState.Buttons)
      returns (state: HeliState.FlightState)
      modifies this`heliState, this`landedLock, rotor`pwmOn, rotor`altSetPoint, rotor`yawSetPoint
      ensures State() == HeliState.Update(old(State()), sw1High, yaw, altitude, b)
      ensures state == heliState
    {
      match heliState {
        case Landed =>
          if !sw1High {
            landedLock := false;
          }
          if !landedLock && sw1High {
            heliState := HeliState.TakingOff;
          } else {
            rotor.pwmOn := false;
          }
        case TakingOff =>
          rotor.pwmOn := true;
          var done := TakeoffComplete(altitude);
          if done {
            heliState := HeliState.Flying;
          }
        case Flying =>
          PoleButtons(b);
          if !sw1High {
            heliState := HeliState.Landing;
          }
        case Landing =>
          rotor.SetYaw(0);
          var done := LandingComplete(yaw, altitude);
          if done {
            heliState := HeliState.Landed;
          }
      }
      state := heliState;
    }

    /** yawRefHandler: on the first reference pulse while scanning, the position and
        the yaw set point both become 0. */
    method YawRefHandler()
      requires decoder.Valid()
      modifies this`scanFlag, decoder`yawPosition, rotor`yawSetPoint
      ensures decoder.Valid()
      ensures State() == HeliState.YawRefHandler(old(State()))
      ensures decoder.yawPosition == (if old(scanFlag) then 0 else old(decoder.yawPosition))
    {
      if scanFlag {
        decoder.SetYawZero();
        rotor.SetYaw(0);
        scanFlag := false;
      }
    }
  }

  /** main.c: SysTickIntHandler's counters, the task flags and main's loop variables,
      with the objects of the other files. */
  class Heli {
    const decoder: YawDecoder
    const sampler: Sampler
    const rotor: Rotor
    const controllers: Controllers
    const supervisor: Supervisor

    var controllerCounter: uint8
    var buttonsCounter: uint8
    var displayCounter: uint8
    var uartCounter: uint8
    var flagController: bool
    var flagButtons: bool
    var flagDisplay: bool
    var flagUart: bool
    // main's locals that live across loop iterations
    var currentAlt: uint16
    var currentYaw: int
    var mainDuty: int
    var tailDuty: int
    var sweepEn: bool
    var initLandedAdc: uint16

    /** The controllers and the supervisor act on this set-point store and decoder. */
    predicate Linked() {
      controllers.rotor == rotor && supervisor.rotor == rotor && supervisor.decoder == decoder
    }

    /** No scheduler counter has passed its period. */
    ghost predicate CountersValid()
      reads this`controllerCounter, this`buttonsCounter, this`displayCounter, this`uartCounter
    {
      && controllerCounter <= Scheduler.ControlPeriod
      && buttonsCounter <= Scheduler.ButtonPeriod
      && displayCounter <= Scheduler.DisplayPeriod
      && uartCounter <= Scheduler.UartPeriod
    }

    /** Power-on: every static at its C initialiser, the ring cleared. */
    constructor ()
      ensures Linked() && decoder.Valid() && sampler.Valid() && CountersValid()
      ensures fresh(decoder) && fresh(sampler) && fresh(sampler.ring)
      ensures fresh(rotor) && fresh(controllers) && fresh(supervisor)
      ensures forall i :: 0 <= i < sampler.ring.Length ==> sampler.ring[i] == 0
      ensures sampler.windex == 0 && sampler.rindex == 0
      ensures decoder.State() == Quadrature.Initial
      ensures supervisor.State() == HeliState.Supervisor(HeliState.Landed, true, true, false, 0, -223, 0, 0)
      ensures controllers.mainPrevSensor == 0 && controllers.tailPrevSensor == 0
      ensures controllerCounter == buttonsCounter == displayCounter == uartCounter == 0
      ensures !flagController && !flagButtons && !flagDisplay && !flagUart
      ensures !sweepEn
    {
      var d := new YawDecoder();
      var r := new Rotor();
      decoder, rotor := d, r;
      sampler := new Sampler();
      controllers := new Controllers(r);
      supervisor := new Supervisor(r, d);
      controllerCounter, buttonsCounter, displayCounter, uartCounter := 0, 0, 0, 0;
      flagController, flagButtons, flagDisplay, flagUart := false, false, false, false;
      currentAlt, currentYaw, mainDuty, tailDuty := 0, 0, 0, 0;
      sweepEn := false;
      initLandedAdc := 0;
    }

    /** The start of main once the ring has filled: the landed reading and the
        altitude limits taken from it. */
    method StartUp()
      requires sampler.Valid() && Linked()
      modifies sampler`rindex, this`initLandedAdc, rotor`minAlt, rotor`maxAlt, rotor`altSetPoint
      ensures sampler.Valid() && sampler.rindex == old(sampler.rindex)
      ensures initLandedAdc == Adc.AltMean(sampler.ring[..])
      ensures supervisor.State() == old(supervisor.State()).(
                altSet := ToInt16(initLandedAdc), minAlt := initLandedAdc, maxAlt := MaxAltFor(initLandedAdc))
    {
      initLandedAdc := sampler.GetAltMean();
      rotor.InitAltLimits(initLandedAdc);
    }

    /** SysTickIntHandler: each counter that has reached its period raises its flag
        and restarts; then every counter counts the tick. A raised flag stays raised. */
    method SysTickIntHandler()
      requires CountersValid()
      modifies this`controllerCounter, this`buttonsCounter, this`displayCounter, this`uartCounter
      modifies this`flagController, this`flagButtons, this`flagDisplay, this`flagUart
      ensures CountersValid()
      ensures controllerCounter == Scheduler.TickCounter(old(controllerCounter), Scheduler.ControlPeriod).0
      ensures flagController == (old(flagController) || old(controllerCounter) >= Scheduler.ControlPeriod)
      ensures buttonsCounter == Scheduler.TickCounter(old(buttonsCounter), Scheduler.ButtonPeriod).0
      ensures flagButtons == (old(flagButtons) || old(buttonsCounter) >= Scheduler.ButtonPeriod)
      ensures displayCounter == Scheduler.TickCounter(old(displayCounter), Scheduler.DisplayPeriod).0
      ensures flagDisplay == (old(flagDisplay) || old(displayCounter) >= Scheduler.DisplayPeriod)
      ensures uartCounter == Scheduler.TickCounter(old(uartCounter), Scheduler.UartPeriod).0
      ensures flagUart == (old(flagUart) || old(uartCounter) >= Scheduler.UartPeriod)
    {
      if controllerCounter >= Scheduler.ControlPeriod {
        flagController := true;
        controllerCounter := 0;
      }
      if buttonsCounter >= Scheduler.ButtonPeriod {
        flagButtons := true;
        buttonsCounter := 0;
      }
      if displayCounter >= Scheduler.DisplayPeriod {
        flagDisplay := true;
        displayCounter := 0;
      }
      if uartCounter >= Scheduler.UartPeriod {
        flagUart := true;
        uartCounter := 0;
      }
      assert Scheduler.TickCounter(old(controllerCounter), Scheduler.ControlPeriod).0 == ToUInt8(controllerCounter + 1);
      assert Scheduler.TickCounter(old(buttonsCounter), Scheduler.ButtonPeriod).0 == ToUInt8(buttonsCounter + 1);
      assert Scheduler.TickCounter(old(displayCounter), Scheduler.DisplayPeriod).0 == ToUInt8(displayCounter + 1);
      assert Scheduler.TickCounter(old(uartCounter), Scheduler.UartPeriod).0 == ToUInt8(uartCounter + 1);
      controllerCounter := ToUInt8(controllerCounter + 1);
      buttonsCounter := ToUInt8(buttonsCounter + 1);
      displayCounter := ToUInt8(displayCounter + 1);
      uartCounter := ToUInt8(uartCounter + 1);
    }

    /** main's controller task, run when its flag is raised: sample the altitude mean
        and the yaw position, run the main controller on the altitude and chain its
        duty into the tail controller with the yaw and the sweep flag. */
    method ControllerTask()
      requires sampler.Valid() && Linked()
      modifies sampler`rindex, controllers
      modifies this`currentAlt, this`currentYaw, this`mainDuty, this`tailDuty, this`flagController
      ensures sampler.Valid() && sampler.rindex == old(sampler.rindex) && !flagController
      ensures old(flagController) ==>
                && currentAlt == Adc.AltMean(sampler.ring[..]) && currentYaw == decoder.yawPosition
                && controllers.mainPrevSensor == currentAlt && controllers.tailPrevSensor == ToInt16(currentYaw)
                && mainDuty == MainControl(rotor.altSetPoint, currentAlt, old(controllers.mainPrevSensor), 0.0)
                && tailDuty == TailControl(mainDuty, TailError(rotor.yawSetPoint, ToInt16(currentYaw), sweepEn),
                                           ToInt16(currentYaw), old(controllers.tailPrevSensor))
      ensures !old(flagController) ==>
                && currentAlt == old(currentAlt) && currentYaw == old(currentYaw)
                && mainDuty == old(mainDuty) && tailDuty == old(tailDuty)
                && unchanged(controllers)
    {
      if flagController {
        currentAlt := sampler.GetAltMean();
        currentYaw := decoder.yawPosition;
        mainDuty := controllers.ControllerMain(currentAlt);
        tailDuty := controllers.ControllerTail(mainDuty, ToInt16(currentYaw), sweepEn);
        flagController := false;
      }
    }

    /** main's buttons task, run when its flag is raised: one supervisor tick on the
        last samples; the yaw sweep is on exactly while taking off. */
    method ButtonsTask(sw1High: bool, b: HeliState.Buttons)
      requires Linked()
      modifies supervisor`heliState, supervisor`landedLock, rotor`pwmOn, rotor`altSetPoint, rotor`yawSetPoint
      modifies this`sweepEn, this`flagButtons
      ensures !flagButtons
      ensures old(flagButtons) ==>
                && supervisor.State() == HeliState.Update(old(supervisor.State()), sw1High, currentYaw, currentAlt, b)
                && sweepEn == (supervisor.heliState == HeliState.TakingOff)
      ensures !old(flagButtons) ==> unchanged(supervisor, rotor) && sweepEn == old(sweepEn)
    {
      if flagButtons {
        var state := supervisor.UpdateHelicopterState(sw1High, currentYaw, currentAlt, b);
        sweepEn := state == HeliState.TakingOff;
        flagButtons := false;
      }
    }

    /** main's display task: its output is not modelled; the flag is cleared. */
    method DisplayTask()
      modifies this`flagDisplay
      ensures !flagDisplay
    {
      if flagDisplay {
        flagDisplay := false;
      }
    }

    /** main's UART task: its output is not modelled; the flag is cleared. */
    method UartTask()
      modifies this`flagUart
      ensures !flagUart
    {
      if flagUart {
        flagUart := false;
      }
    }

    /** One pass of main's loop, with SW1 reading `sw1High` and the buttons `b`: each
        raised task runs once, in the order controller, buttons, display, UART, and
        its flag is cleared. The controller leaves fresh samples and duties within
        their limits, and the supervisor tick sees those samples. */
    method MainLoopIteration(sw1High: bool, b: HeliState.Buttons)
      requires sampler.Valid() && Linked()
      modifies sampler`rindex, controllers
      modifies this`currentAlt, this`currentYaw, this`mainDuty, this`tailDuty, this`flagController
      modifies supervisor`heliState, supervisor`landedLock, rotor`pwmOn, rotor`altSetPoint, rotor`yawSetPoint
      modifies this`sweepEn, this`flagButtons, this`flagDisplay, this`flagUart
      ensures sampler.Valid() && sampler.rindex == old(sampler.rindex)
      ensures !flagController && !flagButtons && !flagDisplay && !flagUart
      ensures old(flagController) ==>
                && currentAlt == Adc.AltMean(sampler.ring[..]) && currentYaw == decoder.yawPosition
                && controllers.mainPrevSensor == currentAlt && controllers.tailPrevSensor == ToInt16(currentYaw)
                && DutyMainMin <= mainDuty <= DutyMainMax && DutyTailMin <= tailDuty <= DutyTailMax
      ensures !old(flagController) ==>
                && currentAlt == old(currentAlt) && currentYaw == old(currentYaw)
                && mainDuty == old(mainDuty) && tailDuty == old(tailDuty)
                && unchanged(controllers)
      ensures old(flagButtons) ==>
                && supervisor.State() == HeliState.Update(old(supervisor.State()), sw1High, currentYaw, currentAlt, b)
                && sweepEn == (supervisor.heliState == HeliState.TakingOff)
      ensures !old(flagButtons) ==> unchanged(supervisor, rotor) && sweepEn == old(sweepEn)
    {
      ControllerTask();
      ButtonsTask(sw1High, b);
      DisplayTask();
      UartTask();
    }
  }
}
