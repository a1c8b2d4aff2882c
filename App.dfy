/** The application of main.c: a push button arms the platform once, and
    from then on every TIM7 update runs one control tick that reads the
    sensor, filters the two tilt angles, runs one compensator per axis,
    drives the three servos and logs the tick on UART5. */
module App {
  import opened Common
  import Mpu9250
  import Estimator
  import Controller
  import Servo
  import Uart

  // The deployed configuration (initHardware.c:288-307).
  const SAMPLE_RATE: nat := 100
  const WEIGHT: real := 0.9
  const DeployedMpu: Mpu9250.InitConfig := Mpu9250.InitConfig(
    SAMPLE_RATE,
    0,  // MPU9250_GYRO_FULLSCALE_250DPS
    2,  // MPU9250_GYRO_LPF_92HZ
    0,  // MPU9250_ACCEL_FULLSCALE_2G
    2)  // MPU9250_ACCEL_LPF_99HZ

  /** UART_DATA_LOG | UART_DATA_FORMAT_TAB. */
  const TELEMETRY_MODE: nat := Uart.DATA_LOG + Uart.FORMAT_TAB

  /** The telemetry vector: each axis's angle followed by its compensator
      output. */
  function Interleaved(angles: seq<real>, outputs: seq<real>): (t: seq<real>)
    requires |angles| == |outputs|
  {
    seq(2 * |angles|, j requires 0 <= j < 2 * |angles| => if j % 2 == 0 then angles[j / 2] else outputs[j / 2])
  }

  /** The even slots of a vector. */
  function Evens(t: seq<real>): (e: seq<real>)
    ensures |e| == (|t| + 1) / 2
  {
    if |t| == 0 then [] else if |t| == 1 then [t[0]] else [t[0]] + Evens(t[2..])
  }

  /** The odd slots of a vector. */
  function Odds(t: seq<real>): (o: seq<real>)
    ensures |o| == |t| / 2
  {
    if |t| < 2 then [] else [t[1]] + Odds(t[2..])
  }

  /** The telemetry vector splits back into the angles and the outputs. */
  lemma {:induction false} Deinterleave(angles: seq<real>, outputs: seq<real>)
    requires |angles| == |outputs|
    ensures Evens(Interleaved(angles, outputs)) == angles
    ensures Odds(Interleaved(angles, outputs)) == outputs
  {
    if |angles| > 0 {
      var t := Interleaved(angles, outputs);
      Deinterleave(angles[1..], outputs[1..]);
      assert t[2..] == Interleaved(angles[1..], outputs[1..]);
      assert t[0] == angles[0] && t[1] == outputs[0];
    }
  }

  /** The loop of updateData that fills serialData. */
  method Interleave(angles: array<real>, outputs: array<real>, serial: array<real>)
    requires angles.Length >= 2 && outputs.Length == 2 && serial.Length == 4
    requires serial != angles && serial != outputs
    modifies serial
    ensures serial[..] == Interleaved(angles[..2], outputs[..])
  {
    var i := 0;
    while i < 2
      invariant 0 <= i <= 2
      invariant forall j :: 0 <= j < 2 * i ==> serial[j] == Interleaved(angles[..2], outputs[..])[j]
    {
      serial[2 * i] := angles[i];
      serial[2 * i + 1] := outputs[i];
      i := i + 1;
    }
  }

  /** The firmware's globals and the peripherals it drives. The flags stand
      for TIM7's counter-enable, update-interrupt-enable and update (UIF)
      bits. */
  class Board {
    const mpu: Mpu9250.Driver
    const est: Estimator.Estimator
    const comp: Controller.Compensator
    const servo: Servo.Driver
    const uart: Uart.Port
    /** The float kernels of the estimator and of Dec2Int. */
    const kernels: Estimator.Kernels
    const dec2Int: real -> int
    /** The byte in the uninitialised separator local of sendData. */
    const stray: byte

    /** The arming counter `state`. */
    var state: nat
    var counterOn: bool
    var updateIrqOn: bool
    var updateFlag: bool

    ghost predicate Valid()
      reads this, est, comp
    {
      est.Valid() && comp.Valid()
    }

    /** The board after power-up: state is 0 and TIM7 is stopped. */
    constructor (mpu: Mpu9250.Driver, est: Estimator.Estimator, comp: Controller.Compensator, servo: Servo.Driver,
                 uart: Uart.Port, kernels: Estimator.Kernels, dec2Int: real -> int, stray: byte)
      requires est.Valid() && comp.Valid()
      ensures Valid() && state == 0 && !counterOn && !updateIrqOn && !updateFlag
      ensures this.mpu == mpu && this.est == est && this.comp == comp && this.servo == servo && this.uart == uart
      ensures this.kernels == kernels && this.dec2Int == dec2Int && this.stray == stray
    {
      this.mpu := mpu;
      this.est := est;
      this.comp := comp;
      this.servo := servo;
      this.uart := uart;
      this.kernels := kernels;
      this.dec2Int := dec2Int;
      this.stray := stray;
      state := 0;
      counterOn := false;
      updateIrqOn := false;
      updateFlag := false;
    }

    /** initHardware_Platform with the deployed configuration: the sensor,
        the estimator and the servo driver are initialised in that order. */
    method Platform() returns (sMpu: Status, sEst: Status)
      requires Valid() && mpu.Valid()
      modifies mpu`trace, mpu`mpuAddr, mpu`gResolution, mpu`aResolution, est`dt, est`weight
      modifies servo`posZero, servo`servoStep, servo`minAngle, servo`maxAngle
      ensures Valid() && mpu.Valid()
      ensures sMpu == Ok ==> mpu.gResolution == 131.0 && mpu.aResolution == 16384
      ensures sMpu == Error ==> mpu.gResolution == old(mpu.gResolution) && mpu.aResolution == old(mpu.aResolution)
      ensures var n := |old(mpu.trace)|;
              var n2 := n + |Mpu9250.InitOps(mpu.bus, n, DeployedMpu)|;
              var a1 := Mpu9250.ProbeAddr(mpu.bus, n, old(mpu.mpuAddr));
              mpu.trace == old(mpu.trace) + Mpu9250.InitOps(mpu.bus, n, DeployedMpu) + Mpu9250.IdOps(mpu.bus, n2, a1)
              && mpu.mpuAddr == Mpu9250.IdAddr(mpu.bus, n2, a1)
              && (sMpu == Ok <==> Mpu9250.InitSucceeds(mpu.bus, n, DeployedMpu))
              && sEst == (if Mpu9250.IdValue(mpu.bus, n2, a1) == Mpu9250.DEVICE_ID then Ok else Error)
      ensures est.dt == 1.0 / 100.0 && est.weight == WEIGHT
      ensures servo.Cfg() == Servo.Config(1500, 10, -90, 90)
    {
      sMpu := mpu.Init(DeployedMpu);
      sEst := est.Init(mpu, SAMPLE_RATE, WEIGHT);
      servo.Init(Servo.DeployedPosZero, Servo.DeployedMin, Servo.DeployedMax);
    }

    /** initApp: TIM7 is started, with an update event forced, exactly when
        the device ID read is 0x71. */
    method InitApp()
      modifies this`counterOn, this`updateIrqOn, this`updateFlag, mpu`trace, mpu`mpuAddr
      ensures old(mpu.trace) < mpu.trace
      ensures var n := |mpu.trace| - 1;
              n >= 0 && mpu.trace[n] == Mpu9250.ReadOp(mpu.mpuAddr, Mpu9250.WHO_AM_I_ADDR)
              && var r := mpu.bus(n, mpu.trace[n]);
                 var started := r.ack && r.data == Mpu9250.DEVICE_ID;
                 counterOn == (started || old(counterOn)) && updateIrqOn == (started || old(updateIrqOn))
                 && updateFlag == (started || old(updateFlag))
      ensures var n := |old(mpu.trace)|;
              mpu.trace == old(mpu.trace) + Mpu9250.IdOps(mpu.bus, n, old(mpu.mpuAddr))
              && mpu.mpuAddr == Mpu9250.IdAddr(mpu.bus, n, old(mpu.mpuAddr))
              && var started := Mpu9250.IdValue(mpu.bus, n, old(mpu.mpuAddr)) == Mpu9250.DEVICE_ID;
                 counterOn == (started || old(counterOn)) && updateIrqOn == (started || old(updateIrqOn))
                 && updateFlag == (started || old(updateFlag))
    {
      var id := mpu.ReadID();
      if id == Mpu9250.DEVICE_ID {
        counterOn := true;
        updateFlag := true;
        updateIrqOn := true;
      }
    }

    /** EXTI0_IRQHandler: only the first press runs initApp; every later
        press changes nothing, so a failed identity check is never
        retried. */
    method ButtonPress()
      modifies this`state, this`counterOn, this`updateIrqOn, this`updateFlag, mpu`trace, mpu`mpuAddr
      ensures old(state) == 0 ==> state == 1 && |mpu.trace| > |old(mpu.trace)|
      ensures old(state) == 0 ==>
                var n := |mpu.trace| - 1;
                var r := mpu.bus(n, mpu.trace[n]);
                mpu.trace[n] == Mpu9250.ReadOp(mpu.mpuAddr, Mpu9250.WHO_AM_I_ADDR)
                && (r.ack && r.data == Mpu9250.DEVICE_ID ==> counterOn && updateIrqOn && updateFlag)
                && (!(r.ack && r.data == Mpu9250.DEVICE_ID) ==>
                      counterOn == old(counterOn) && updateIrqOn == old(updateIrqOn) && updateFlag == old(updateFlag))
      ensures old(state) == 0 ==>
                var n := |old(mpu.trace)|;
                mpu.trace == old(mpu.trace) + Mpu9250.IdOps(mpu.bus, n, old(mpu.mpuAddr))
                && mpu.mpuAddr == Mpu9250.IdAddr(mpu.bus, n, old(mpu.mpuAddr))
                && var started := Mpu9250.IdValue(mpu.bus, n, old(mpu.mpuAddr)) == Mpu9250.DEVICE_ID;
                   counterOn == (started || old(counterOn)) && updateIrqOn == (started || old(updateIrqOn))
                   && updateFlag == (started || old(updateFlag))
      ensures old(state) != 0 ==>
                state == old(state) && mpu.trace == old(mpu.trace) && mpu.mpuAddr == old(mpu.mpuAddr)
                && counterOn == old(counterOn) && updateIrqOn == old(updateIrqOn) && updateFlag == old(updateFlag)
    {
      if state == 0 {
        state := state + 1;
        InitApp();
      }
    }

    /** updateData: one control tick. The estimator's status is ignored:
        the compensators, the servos and the log are updated whatever the
        sensor read returned. The ghost results name the angles written to
        filteredAngles and the two compensator outputs. */
    method UpdateData() returns (ghost a: seq<real>, ghost out0: real, ghost out1: real)
      requires Valid() && mpu.aResolution != 0 && mpu.gResolution != 0.0
      modifies mpu`trace, est.pastGyro, est.pastAccel, est.estAccel, est.estGyro, comp.h
      modifies servo`ccr1, servo`ccr2, servo`ccr3, servo`commands, uart`out
      ensures Valid() && |a| == 3
      ensures var r := Mpu9250.DataReadFloat(mpu.bus, old(mpu.mpuAddr), |old(mpu.trace)|, old(mpu.aResolution) as real,
                                             old(mpu.gResolution), [0.0, 0.0, 0.0], [0.0, 0.0, 0.0]);
              |mpu.trace| == r.next
              && (est.Mem(), a) == Estimator.FilteredTick(kernels, old(est.dt), old(est.weight), old(est.Mem()), r.accel, r.gyro)
      ensures mpu.trace == old(mpu.trace) + Mpu9250.DataReadOps(mpu.bus, old(mpu.mpuAddr), |old(mpu.trace)|)
      ensures out0 == Controller.Output(a[0], old(comp.Row(0))) && out1 == Controller.Output(a[1], old(comp.Row(1)))
      ensures comp.Row(0) == Controller.NextRow(a[0], old(comp.Row(0)))
      ensures comp.Row(1) == Controller.NextRow(a[1], old(comp.Row(1)))
      ensures servo.commands == old(servo.commands)
                                + [Servo.Command(Servo.CHANNEL_1, out0), Servo.Command(Servo.CHANNEL_2, out0),
                                   Servo.Command(Servo.CHANNEL_3, out1)]
      ensures servo.ccr1 == Servo.AngleToPwm(servo.Cfg(), out0)
      ensures servo.ccr2 == Servo.AngleToPwm(servo.Cfg(), out0)
      ensures servo.ccr3 == Servo.AngleToPwm(servo.Cfg(), out1)
      ensures uart.out == old(uart.out) + Uart.FloatLog([a[0], out0, a[1], out1], Uart.Tab, stray, dec2Int)
    {
      ghost var r := Mpu9250.DataReadFloat(mpu.bus, mpu.mpuAddr, |mpu.trace|, mpu.aResolution as real,
                                           mpu.gResolution, [0.0, 0.0, 0.0], [0.0, 0.0, 0.0]);
      ghost var tick := Estimator.FilteredTick(kernels, est.dt, est.weight, est.Mem(), r.accel, r.gyro);
      ghost var row0, row1 := comp.Row(0), comp.Row(1);
      var angles := Estimate();
      a := angles[..];
      assert (est.Mem(), a) == tick && |mpu.trace| == r.next;
      assert comp.Row(0) == row0 && comp.Row(1) == row1;
      ghost var t1 := mpu.trace;
      var o0, o1 := Actuate(angles);
      assert (est.Mem(), a) == tick && |mpu.trace| == r.next && mpu.trace == t1;
      out0, out1 := o0, o1;
    }

    /** The rest of updateData once filteredAngles is filled: both
        compensators, the servos, and the telemetry. */
    method Actuate(angles: array<real>) returns (out0: real, out1: real)
      requires Valid() && angles.Length == 3
      modifies comp.h, servo`ccr1, servo`ccr2, servo`ccr3, servo`commands, uart`out
      ensures Valid()
      ensures out0 == Controller.Output(angles[0], old(comp.Row(0)))
      ensures out1 == Controller.Output(angles[1], old(comp.Row(1)))
      ensures comp.Row(0) == Controller.NextRow(angles[0], old(comp.Row(0)))
      ensures comp.Row(1) == Controller.NextRow(angles[1], old(comp.Row(1)))
      ensures servo.commands == old(servo.commands)
                                + [Servo.Command(Servo.CHANNEL_1, out0), Servo.Command(Servo.CHANNEL_2, out0),
                                   Servo.Command(Servo.CHANNEL_3, out1)]
      ensures servo.ccr1 == Servo.AngleToPwm(servo.Cfg(), out0)
      ensures servo.ccr2 == Servo.AngleToPwm(servo.Cfg(), out0)
      ensures servo.ccr3 == Servo.AngleToPwm(servo.Cfg(), out1)
      ensures uart.out == old(uart.out) + Uart.FloatLog([angles[0], out0, angles[1], out1], Uart.Tab, stray, dec2Int)
    {
      out0, out1 := Compensate(angles[0], angles[1]);
      Drive(out0, out1);
      Report(angles, out0, out1);
    }

    /** estimator_filteredAngles into a fresh buffer. */
    method Estimate() returns (angles: array<real>)
      requires Valid() && mpu.aResolution != 0 && mpu.gResolution != 0.0
      modifies mpu`trace, est.pastGyro, est.pastAccel, est.estAccel, est.estGyro
      ensures Valid() && fresh(angles) && angles.Length == 3
      ensures var r := Mpu9250.DataReadFloat(mpu.bus, old(mpu.mpuAddr), |old(mpu.trace)|, old(mpu.aResolution) as real,
                                             old(mpu.gResolution), [0.0, 0.0, 0.0], [0.0, 0.0, 0.0]);
              |mpu.trace| == r.next
              && (est.Mem(), angles[..]) == Estimator.FilteredTick(kernels, old(est.dt), old(est.weight), old(est.Mem()), r.accel, r.gyro)
      ensures mpu.trace == old(mpu.trace) + Mpu9250.DataReadOps(mpu.bus, old(mpu.mpuAddr), |old(mpu.trace)|)
    {
      angles := new real[3];
      var _ := est.FilteredAngles(mpu, kernels, angles);
      assert angles[..] == angles[..3];
    }

    /** The two controlador_planta calls: axis 0 on the first angle, axis 1
        on the second. */
    method Compensate(a0: real, a1: real) returns (out0: real, out1: real)
      requires Valid()
      modifies comp.h
      ensures Valid()
      ensures out0 == Controller.Output(a0, old(comp.Row(0))) && out1 == Controller.Output(a1, old(comp.Row(1)))
      ensures comp.Row(0) == Controller.NextRow(a0, old(comp.Row(0)))
      ensures comp.Row(1) == Controller.NextRow(a1, old(comp.Row(1)))
    {
      out0 := comp.Plant(a0, 0);
      out1 := comp.Plant(a1, 1);
    }

    /** The telemetry of updateData: serialData built by the loop and sent
        in log mode with tabs. */
    method Report(angles: array<real>, out0: real, out1: real)
      requires angles.Length == 3
      modifies uart`out
      ensures uart.out == old(uart.out) + Uart.FloatLog([angles[0], out0, angles[1], out1], Uart.Tab, stray, dec2Int)
    {
      var outputs := new real[2];
      outputs[0], outputs[1] := out0, out1;
      var serial := new real[4];
      Interleave(angles, outputs, serial);
      assert serial[..] == [angles[0], outputs[0], angles[1], outputs[1]];
      TelemetryFormat();
      var _ := uart.SendDataFloatLog(serial[..], TELEMETRY_MODE, stray, dec2Int);
    }

    /** The three cncServo_updatePosition calls of updateData. */
    method Drive(out0: real, out1: real)
      modifies servo`ccr1, servo`ccr2, servo`ccr3, servo`commands
      ensures servo.commands == old(servo.commands)
                                + [Servo.Command(Servo.CHANNEL_1, out0), Servo.Command(Servo.CHANNEL_2, out0),
                                   Servo.Command(Servo.CHANNEL_3, out1)]
      ensures servo.ccr1 == Servo.AngleToPwm(servo.Cfg(), out0)
      ensures servo.ccr2 == Servo.AngleToPwm(servo.Cfg(), out0)
      ensures servo.ccr3 == Servo.AngleToPwm(servo.Cfg(), out1)
    {
      servo.UpdatePosition(out0, Servo.CHANNEL_1);
      servo.UpdatePosition(out0, Servo.CHANNEL_2);
      servo.UpdatePosition(out1, Servo.CHANNEL_3);
      assert servo.Ccr(1) == servo.ccr1 && servo.Ccr(2) == servo.ccr2 && servo.Ccr(3) == servo.ccr3;
    }

    /** TIM7_IRQHandler: the update flag is cleared only when it is set, and
        the tick runs whether or not it was. */
    method TimerIrq() returns (ghost a: seq<real>, ghost out0: real, ghost out1: real)
      requires Valid() && mpu.aResolution != 0 && mpu.gResolution != 0.0
      modifies this`updateFlag
      modifies mpu`trace, est.pastGyro, est.pastAccel, est.estAccel, est.estGyro, comp.h
      modifies servo`ccr1, servo`ccr2, servo`ccr3, servo`commands, uart`out
      ensures Valid() && !updateFlag && |a| == 3
      ensures var r := Mpu9250.DataReadFloat(mpu.bus, old(mpu.mpuAddr), |old(mpu.trace)|, old(mpu.aResolution) as real,
                                             old(mpu.gResolution), [0.0, 0.0, 0.0], [0.0, 0.0, 0.0]);
              |mpu.trace| == r.next
              && (est.Mem(), a) == Estimator.FilteredTick(kernels, old(est.dt), old(est.weight), old(est.Mem()), r.accel, r.gyro)
      ensures mpu.trace == old(mpu.trace) + Mpu9250.DataReadOps(mpu.bus, old(mpu.mpuAddr), |old(mpu.trace)|)
      ensures out0 == Controller.Output(a[0], old(comp.Row(0))) && out1 == Controller.Output(a[1], old(comp.Row(1)))
      ensures comp.Row(0) == Controller.NextRow(a[0], old(comp.Row(0)))
      ensures comp.Row(1) == Controller.NextRow(a[1], old(comp.Row(1)))
      ensures servo.commands == old(servo.commands)
                                + [Servo.Command(Servo.CHANNEL_1, out0), Servo.Command(Servo.CHANNEL_2, out0),
                                   Servo.Command(Servo.CHANNEL_3, out1)]
      ensures servo.ccr1 == Servo.AngleToPwm(servo.Cfg(), out0)
      ensures servo.ccr2 == Servo.AngleToPwm(servo.Cfg(), out0)
      ensures servo.ccr3 == Servo.AngleToPwm(servo.Cfg(), out1)
      ensures uart.out == old(uart.out) + Uart.FloatLog([a[0], out0, a[1], out1], Uart.Tab, stray, dec2Int)
    {
      if updateFlag {
        updateFlag := false;
      }
      a, out0, out1 := UpdateData();
    }
  }

  /** The telemetry mode logs with tab separators and closes each line with
      a line feed and a carriage return. */
  lemma TelemetryFormat()
    ensures TELEMETRY_MODE % 2 == Uart.DATA_LOG
    ensures Uart.SelectSeparator(TELEMETRY_MODE) == Uart.Tab
    ensures Uart.LogEnd(Uart.SelectSeparator(TELEMETRY_MODE)) == [Uart.LF, Uart.CR]
  {
  }
}
