/** The servo driver of servomotor.c: three hobby servos on the compare
    registers CCR1..CCR3 of TIM4. An angle in degrees becomes a compare value
    posZero + servoStep * angle; channels are selected by a bit pattern, with
    0 meaning all three. */
module Servo {
  import opened Common

  // servo_channel_t (servomotor.h:21-24)
  const CHANNEL_1: int := 0x001
  const CHANNEL_2: int := 0x010
  const CHANNEL_3: int := 0x100
  const CHANNEL_ALL: int := 0x000

  const U32_MAX: int := 0xFFFF_FFFF

  /** The number of positions cncServo_check commands per channel. */
  const POSITIONS: nat := 4

  /** The channels cncServo_check visits, in order, for CHANNEL_ALL
      (servomotor.c:5). */
  const Visited: seq<int> := [CHANNEL_1, CHANNEL_2, CHANNEL_3]

  /** A float-to-uint32_t conversion as the Cortex-M4 FPU performs it:
      truncation toward zero, saturated to the uint32_t range. */
  function ToU32(x: real): (r: int)
    ensures 0 <= r <= U32_MAX
    ensures 0.0 <= x < (U32_MAX + 1) as real ==> r == Trunc(x)
    ensures x < 0.0 ==> r == 0
  {
    var t := Trunc(x);
    if t < 0 then 0 else if t > U32_MAX then U32_MAX else t
  }

  lemma ToU32Monotone(x: real, y: real)
    requires x <= y
    ensures ToU32(x) <= ToU32(y)
  {
    TruncMonotone(x, y);
  }

  /** The driver's module globals. */
  datatype Config = Config(posZero: int, servoStep: int, minAngle: int, maxAngle: int)

  /** The angle eServo_angle_to_pwm actually uses: the assignment that would
      clamp to maxAngle is overwritten by the next one, so only the lower
      bound survives. */
  function Clamped(c: Config, angle: real): (d: real)
    ensures d >= c.minAngle as real
    ensures angle >= c.minAngle as real ==> d == angle
  {
    if angle < c.minAngle as real then c.minAngle as real else angle
  }

  /** The compare value of an angle before the conversion to uint32_t. */
  function Position(c: Config, angle: real): real
  {
    c.posZero as real + c.servoStep as real * angle
  }

  /** eServo_angle_to_pwm. */
  function AngleToPwm(c: Config, angle: real): (pwm: int)
    ensures 0 <= pwm <= U32_MAX
  {
    ToU32(Position(c, Clamped(c, angle)))
  }

  /** An angle below the minimum is commanded as the minimum. */
  lemma BelowMinIsMin(c: Config, angle: real)
    requires angle < c.minAngle as real
    ensures AngleToPwm(c, angle) == AngleToPwm(c, c.minAngle as real)
    ensures 0 <= c.posZero + c.servoStep * c.minAngle <= U32_MAX ==>
              AngleToPwm(c, angle) == c.posZero + c.servoStep * c.minAngle
  {
    var m := c.posZero + c.servoStep * c.minAngle;
    assert Position(c, c.minAngle as real) == m as real;
    assert Trunc(m as real) == m;
  }

  /** An angle above the maximum is not clamped: it maps like any other
      angle at or above the minimum. */
  lemma AboveMaxUnclamped(c: Config, angle: real)
    requires angle > c.maxAngle as real && c.maxAngle >= c.minAngle
    ensures AngleToPwm(c, angle) == ToU32(Position(c, angle))
  {
  }

  /** With a non-negative step the mapping is monotone non-decreasing. */
  lemma AngleToPwmMonotone(c: Config, a: real, b: real)
    requires a <= b && c.servoStep >= 0
    ensures AngleToPwm(c, a) <= AngleToPwm(c, b)
  {
    var k := c.servoStep as real;
    var da, db := Clamped(c, a), Clamped(c, b);
    assert k * db - k * da == k * (db - da) >= 0.0;
    ToU32Monotone(Position(c, da), Position(c, db));
  }

  /** Angle zero gives the neutral position exactly when zero is not below
      the minimum and posZero is a uint32_t value. */
  lemma ZeroIsNeutral(c: Config)
    requires c.minAngle <= 0 && 0 <= c.posZero <= U32_MAX
    ensures AngleToPwm(c, 0.0) == c.posZero
  {
  }

  /** Whether compare register `reg` (1..3) belongs to a channel value:
      CHANNEL_ALL selects all three, each single channel its own register,
      and any other value none. */
  predicate Targets(channel: int, reg: int)
  {
    channel == CHANNEL_ALL
    || (reg == 1 && channel == CHANNEL_1)
    || (reg == 2 && channel == CHANNEL_2)
    || (reg == 3 && channel == CHANNEL_3)
  }

  /** A single channel selects exactly its own register; CHANNEL_ALL selects
      every register; any other value selects none. */
  lemma TargetsExactly(channel: int)
    ensures forall reg :: 1 <= reg <= 3 && channel in Visited ==> (Targets(channel, reg) <==> channel == Visited[reg - 1])
    ensures forall reg :: 1 <= reg <= 3 && channel == CHANNEL_ALL ==> Targets(channel, reg)
    ensures forall reg :: 1 <= reg <= 3 && channel !in Visited && channel != CHANNEL_ALL ==> !Targets(channel, reg)
  {
  }

  /** The step of cncServo_check: (maxAngle - minAngle) / 4 in C's
      truncating division, stored in a uint16_t. */
  function CheckStep(c: Config): (s: int)
    ensures 0 <= s < 65536
    ensures c.minAngle <= c.maxAngle && c.maxAngle - c.minAngle < 4 * 65536 ==>
              4 * s <= c.maxAngle - c.minAngle < 4 * s + 4
  {
    WrapU16(CDiv(c.maxAngle - c.minAngle, 4))
  }

  /** Position u of a sweep: minAngle + u * step degrees. */
  function SweepAngle(c: Config, u: nat): real
  {
    (c.minAngle + u * CheckStep(c)) as real
  }

  /** One call of cncServo_updatePosition: the channel value and the angle. */
  datatype Command = Command(channel: int, angle: real)

  /** The calls of the first n positions of one channel's sweep. */
  function SweepCommands(c: Config, channel: int, n: nat): (cs: seq<Command>)
    ensures |cs| == n
  {
    if n == 0 then [] else SweepCommands(c, channel, n - 1) + [Command(channel, SweepAngle(c, n - 1))]
  }

  /** The calls of cncServo_check: four positions on each visited channel
      (all three, in order, for CHANNEL_ALL), then angle 0 on the channel
      value given. */
  function CheckCommands(c: Config, channel: int): seq<Command>
  {
    (if channel == CHANNEL_ALL
     then SweepCommands(c, CHANNEL_1, POSITIONS) + SweepCommands(c, CHANNEL_2, POSITIONS)
          + SweepCommands(c, CHANNEL_3, POSITIONS)
     else SweepCommands(c, channel, POSITIONS))
    + [Command(channel, 0.0)]
  }

  /** A sweep commands minAngle + u * step at its u-th call, in order. */
  lemma {:induction false} SweepCommandsPositions(c: Config, channel: int, n: nat, u: nat)
    requires u < n
    ensures SweepCommands(c, channel, n)[u] == Command(channel, SweepAngle(c, u))
  {
    if u < n - 1 {
      SweepCommandsPositions(c, channel, n - 1, u);
    }
  }

  /** Successive sweep positions are one step apart. */
  lemma SweepAngleStep(c: Config, u: nat)
    ensures SweepAngle(c, u + 1) == SweepAngle(c, u) + CheckStep(c) as real
  {
    assert (u + 1) * CheckStep(c) == u * CheckStep(c) + CheckStep(c);
  }

  /** CHANNEL_ALL checks the three servos in turn, 12 positions in all, and
      every check ends with the call that returns the channel to angle 0. */
  lemma CheckCommandsShape(c: Config, channel: int)
    ensures channel == CHANNEL_ALL ==> |CheckCommands(c, channel)| == 13
    ensures channel != CHANNEL_ALL ==> |CheckCommands(c, channel)| == 5
    ensures var cs := CheckCommands(c, channel); cs[|cs| - 1] == Command(channel, 0.0)
    ensures channel == CHANNEL_ALL ==>
              forall u :: 0 <= u < 12 ==> CheckCommands(c, channel)[u] == Command(Visited[u / 4], SweepAngle(c, u % 4))
  {
    if channel == CHANNEL_ALL {
      var s1, s2, s3 := SweepCommands(c, CHANNEL_1, 4), SweepCommands(c, CHANNEL_2, 4), SweepCommands(c, CHANNEL_3, 4);
      forall u | 0 <= u < 12
        ensures CheckCommands(c, channel)[u] == Command(Visited[u / 4], SweepAngle(c, u % 4))
      {
        SweepCommandsPositions(c, Visited[u / 4], 4, u % 4);
        assert CheckCommands(c, channel) == s1 + s2 + s3 + [Command(channel, 0.0)];
      }
    }
  }

  /** TIM4's compare registers and the driver's globals. */
  class Driver {
    var posZero: int
    var servoStep: int
    var minAngle: int
    var maxAngle: int
    var ccr1: int
    var ccr2: int
    var ccr3: int
    /** Every call of cncServo_updatePosition so far, oldest first. */
    ghost var commands: seq<Command>

    function Cfg(): Config
      reads this`posZero, this`servoStep, this`minAngle, this`maxAngle
    {
      Config(posZero, servoStep, minAngle, maxAngle)
    }

    function Ccr(reg: int): int
      reads this`ccr1, this`ccr2, this`ccr3
    {
      if reg == 1 then ccr1 else if reg == 2 then ccr2 else ccr3
    }

    /** The static initialisers: everything zero. */
    constructor ()
      ensures Cfg() == Config(0, 0, 0, 0) && ccr1 == 0 && ccr2 == 0 && ccr3 == 0 && commands == []
    {
      posZero, servoStep, minAngle, maxAngle := 0, 0, 0, 0;
      ccr1, ccr2, ccr3 := 0, 0, 0;
      commands := [];
    }

    /** cncServo_init: the angle limits, a step of 10 and the neutral value
        600 + 10 * Pos_Zero in uint32_t arithmetic. */
    method Init(posZeroAngle: int, minAngleInit: int, maxAngleInit: int)
      requires IsInt16(posZeroAngle) && IsInt16(minAngleInit) && IsInt16(maxAngleInit)
      modifies this`posZero, this`servoStep, this`minAngle, this`maxAngle
      ensures Cfg() == Config(WrapU32(600 + 10 * posZeroAngle), 10, minAngleInit, maxAngleInit)
    {
      maxAngle := maxAngleInit;
      minAngle := minAngleInit;
      servoStep := 10;
      posZero := WrapU32(600 + servoStep * posZeroAngle);
    }

    /** cncServo_updatePosition: the converted angle into every register the
        channel value selects; the others keep their values. */
    method UpdatePosition(angle: real, channel: int)
      modifies this`ccr1, this`ccr2, this`ccr3, this`commands
      ensures commands == old(commands) + [Command(channel, angle)]
      ensures forall reg :: 1 <= reg <= 3 ==>
                Ccr(reg) == if Targets(channel, reg) then AngleToPwm(Cfg(), angle) else old(Ccr(reg))
    {
      var pwm := AngleToPwm(Cfg(), angle);
      if channel == CHANNEL_1 {
        ccr1 := pwm;
      } else if channel == CHANNEL_2 {
        ccr2 := pwm;
      } else if channel == CHANNEL_3 {
        ccr3 := pwm;
      } else if channel == CHANNEL_ALL {
        ccr1 := pwm;
        ccr2 := pwm;
        ccr3 := pwm;
      }
      commands := commands + [Command(channel, angle)];
    }

    /** cncServo_zeroPosition: angle 0 on the channel. */
    method ZeroPosition(channel: int)
      modifies this`ccr1, this`ccr2, this`ccr3, this`commands
      ensures commands == old(commands) + [Command(channel, 0.0)]
      ensures forall reg :: 1 <= reg <= 3 ==>
                Ccr(reg) == if Targets(channel, reg) then AngleToPwm(Cfg(), 0.0) else old(Ccr(reg))
    {
      UpdatePosition(0.0, channel);
    }

    /** The four-position loop of cncServo_check on one channel. */
    method Sweep(channel: int)
      modifies this`ccr1, this`ccr2, this`ccr3, this`commands
      ensures commands == old(commands) + SweepCommands(Cfg(), channel, POSITIONS)
      ensures forall reg :: 1 <= reg <= 3 ==>
                Ccr(reg) == if Targets(channel, reg) then AngleToPwm(Cfg(), SweepAngle(Cfg(), POSITIONS - 1)) else old(Ccr(reg))
    {
      ghost var c, c0 := Cfg(), commands;
      var step := WrapU16(CDiv(maxAngle - minAngle, 4));
      var tmpAngle: real := minAngle as real;
      var u := 0;
      while u < POSITIONS
        invariant 0 <= u <= POSITIONS
        invariant tmpAngle == SweepAngle(c, u)
        invariant commands == c0 + SweepCommands(c, channel, u)
        invariant forall reg :: 1 <= reg <= 3 ==>
                    Ccr(reg) == if Targets(channel, reg) && u > 0 then AngleToPwm(c, SweepAngle(c, u - 1)) else old(Ccr(reg))
      {
        SweepAngleStep(c, u);
        UpdatePosition(tmpAngle, channel);
        assert c0 + SweepCommands(c, channel, u + 1) == (c0 + SweepCommands(c, channel, u)) + [Command(channel, tmpAngle)];
        tmpAngle := tmpAngle + step as real;
        u := u + 1;
      }
    }

    /** The CHANNEL_ALL branch of cncServo_check: one sweep per servo, in
        the order of the servo table. */
    method SweepAll()
      modifies this`ccr1, this`ccr2, this`ccr3, this`commands
      ensures commands == old(commands) + SweepCommands(Cfg(), CHANNEL_1, POSITIONS)
                          + SweepCommands(Cfg(), CHANNEL_2, POSITIONS) + SweepCommands(Cfg(), CHANNEL_3, POSITIONS)
      ensures forall reg :: 1 <= reg <= 3 ==> Ccr(reg) == AngleToPwm(Cfg(), SweepAngle(Cfg(), POSITIONS - 1))
    {
      ghost var c, c0 := Cfg(), commands;
      var i := 0;
      while i < 3
        invariant 0 <= i <= 3
        invariant commands == c0 + SweepsOf(c, i)
        invariant forall reg :: 1 <= reg <= 3 ==>
                    Ccr(reg) == if reg <= i then AngleToPwm(c, SweepAngle(c, POSITIONS - 1)) else old(Ccr(reg))
      {
        TargetsExactly(Visited[i]);
        Sweep(Visited[i]);
        assert c0 + SweepsOf(c, i + 1) == (c0 + SweepsOf(c, i)) + SweepCommands(c, Visited[i], POSITIONS);
        i := i + 1;
      }
      assert SweepsOf(c, 1) == SweepCommands(c, CHANNEL_1, POSITIONS);
      assert SweepsOf(c, 2) == SweepsOf(c, 1) + SweepCommands(c, CHANNEL_2, POSITIONS);
      assert SweepsOf(c, 3) == SweepsOf(c, 2) + SweepCommands(c, CHANNEL_3, POSITIONS);
    }

    /** cncServo_check without the 250 ms delays: a sweep of every visited
        channel, then angle 0 on the channel value given, so the selected
        registers end at the neutral value of angle 0. */
    method Check(channel: int)
      modifies this`ccr1, this`ccr2, this`ccr3, this`commands
      ensures commands == old(commands) + CheckCommands(Cfg(), channel)
      ensures forall reg :: 1 <= reg <= 3 ==>
                Ccr(reg) == if Targets(channel, reg) then AngleToPwm(Cfg(), 0.0) else old(Ccr(reg))
    {
      if channel == CHANNEL_ALL {
        SweepAll();
      } else {
        Sweep(channel);
      }
      ZeroPosition(channel);
    }
  }

  /** The sweeps of the first i visited channels. */
  function SweepsOf(c: Config, i: nat): (cs: seq<Command>)
    requires i <= 3
    ensures |cs| == POSITIONS * i
  {
    if i == 0 then [] else SweepsOf(c, i - 1) + SweepCommands(c, Visited[i - 1], POSITIONS)
  }

  // The deployed configuration (initHardware.c:298-306).
  const DeployedPosZero: int := 90
  const DeployedMin: int := -90
  const DeployedMax: int := 90

  /** With the deployed limits the neutral value is 1500, the check step is
      45 and the sweep commands 600, 1050, 1500 and 1950; an out-of-range
      100 degrees is commanded as 2500, not clamped to 90 degrees' 2400. */
  lemma DeployedServo()
    ensures var c := Config(WrapU32(600 + 10 * DeployedPosZero), 10, DeployedMin, DeployedMax);
            c.posZero == 1500 && CheckStep(c) == 45
            && AngleToPwm(c, -90.0) == 600 && AngleToPwm(c, -45.0) == 1050
            && AngleToPwm(c, 0.0) == 1500 && AngleToPwm(c, 45.0) == 1950
            && AngleToPwm(c, 100.0) == 2500 && AngleToPwm(c, -120.0) == 600
  {
    var c := Config(WrapU32(600 + 10 * DeployedPosZero), 10, DeployedMin, DeployedMax);
    assert c.posZero == 1500;
    assert CDiv(180, 4) == 45;
  }
}
