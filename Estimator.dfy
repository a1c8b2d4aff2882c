/** The attitude estimator of estimador.c. File-scope memories, updated once
    per tick: a three-lane gyro integrator, the previous tick's accelerometer
    angles, and two first-order exponential filters of two lanes each (one
    over the accelerometer angles, one over the gyro rates). The float
    kernels (the bit-trick inverse square root, sqrtf, atan2f) are supplied
    as function values; `arm_power_f32` is the exact sum of squares. */
module Estimator {
  import opened Common
  import Mpu9250

  /** The float kernels, left uninterpreted. */
  datatype Kernels = Kernels(invSqrt: real -> real, sqrt: real -> real, atan2: (real, real) -> real)

  /** PI of arm_math.h. */
  const PI: real := 3.14159265358979

  /** arm_power_f32: the sum of the squares. */
  function SumSquares(v: seq<real>): real
  {
    if v == [] then 0.0 else SumSquares(v[..|v| - 1]) + v[|v| - 1] * v[|v| - 1]
  }

  function Scaled(v: seq<real>, c: real): (r: seq<real>)
    ensures |r| == |v|
  {
    seq(|v|, i requires 0 <= i < |v| => v[i] * c)
  }

  /** eCalc_NormalizeMeasure: every component times one common factor, the
      inverse square root of the sum of squares. */
  function Normalized(k: Kernels, v: seq<real>): (r: seq<real>)
    ensures |r| == |v|
  {
    Scaled(v, k.invSqrt(SumSquares(v)))
  }

  /** A scaled vector's sum of squares is the old one times the square of the
      factor. */
  lemma {:induction false} ScaledSumSquares(v: seq<real>, c: real)
    ensures SumSquares(Scaled(v, c)) == c * c * SumSquares(v)
    decreases |v|
  {
    if v != [] {
      var n := |v| - 1;
      var w := Scaled(v, c);
      ScaledPrefix(v, c, n);
      ScaledSumSquares(v[..n], c);
      assert SumSquares(w) == SumSquares(w[..n]) + w[n] * w[n];
      FactorSquares(v[n], c, w[n], SumSquares(v[..n]));
    }
  }

  lemma ScaledPrefix(v: seq<real>, c: real, n: nat)
    requires n <= |v|
    ensures Scaled(v, c)[..n] == Scaled(v[..n], c)
  {
    forall j | 0 <= j < n
      ensures Scaled(v, c)[..n][j] == Scaled(v[..n], c)[j]
    {
    }
  }

  lemma FactorSquares(a: real, c: real, b: real, s: real)
    requires b == a * c
    ensures c * c * s + b * b == c * c * (s + a * a)
  {
    assert b * b == c * c * (a * a);
  }

  /** When the kernel returns the exact inverse square root, the normalised
      vector has unit length. */
  lemma NormalizedIsUnit(k: Kernels, v: seq<real>)
    requires var c := k.invSqrt(SumSquares(v)); c * c * SumSquares(v) == 1.0
    ensures SumSquares(Normalized(k, v)) == 1.0
  {
    ScaledSumSquares(v, k.invSqrt(SumSquares(v)));
  }

  /** Normalisation keeps the direction: all components are scaled by the
      same factor, so cross products of any two components vanish. */
  lemma NormalizedKeepsDirection(k: Kernels, v: seq<real>, i: nat, j: nat)
    requires i < |v| && j < |v|
    ensures Normalized(k, v)[i] * v[j] == Normalized(k, v)[j] * v[i]
  {
    var c := k.invSqrt(SumSquares(v));
    assert Normalized(k, v)[i] * v[j] == c * (v[i] * v[j]);
    assert Normalized(k, v)[j] * v[i] == c * (v[i] * v[j]);
  }

  /** The three accelerometer angles of eCalc_Angles from an already
      normalised vector a: pitch, roll and the tilt from the Z axis, in
      degrees. */
  function AccelAngles(k: Kernels, a: seq<real>): (m: seq<real>)
    requires |a| == 3
    ensures |m| == 3
  {
    [k.atan2(-a[0], k.sqrt(a[1] * a[1] + a[2] * a[2])) * (180.0 / PI),
     k.atan2(a[1], k.sqrt(a[0] * a[0] + a[2] * a[2])) * (180.0 / PI),
     k.atan2(k.sqrt(a[0] * a[0] + a[1] * a[1]), a[2]) * (180.0 / PI)]
  }

  /** The file-scope memories. */
  datatype Memory = Memory(pastGyro: seq<real>, pastAccel: seq<real>, estAccel: seq<real>, estGyro: seq<real>)

  predicate MemoryShape(m: Memory)
  {
    |m.pastGyro| == 3 && |m.pastAccel| == 3 && |m.estAccel| == 2 && |m.estGyro| == 2
  }

  /** The angle swept in one sample period at a constant rate. */
  function Swept(rate: real, dt: real): real
  {
    rate * dt
  }

  /** The integrator step: each lane adds rate times dt. */
  function Integrate(past: seq<real>, gyro: seq<real>, dt: real): (r: seq<real>)
    requires |past| == 3 && |gyro| >= 3
    ensures |r| == 3
  {
    [past[0] + Swept(gyro[0], dt), past[1] + Swept(gyro[1], dt), past[2] + Swept(gyro[2], dt)]
  }

  /** One first-order exponential filter step. */
  function Smooth(w: real, prev: real, x: real): real
  {
    w * prev + (1.0 - w) * x
  }

  /** Both lanes of one exponential filter. */
  function SmoothPair(w: real, prev: seq<real>, x: seq<real>): (r: seq<real>)
    requires |prev| == 2 && |x| >= 2
    ensures |r| == 2
  {
    [Smooth(w, prev[0], x[0]), Smooth(w, prev[1], x[1])]
  }

  /** estimator_filteredAngles for one tick, from the memories before the tick
      and the accelerometer and gyro readings: the memories after the tick and
      the three angles written (filtered pitch, filtered roll, tilt). */
  function FilteredTick(k: Kernels, dt: real, w: real, mem: Memory, accel: seq<real>, gyro: seq<real>): (r: (Memory, seq<real>))
    requires MemoryShape(mem) && |accel| == 3 && |gyro| == 3
    ensures MemoryShape(r.0) && |r.1| == 3
  {
    var m := AccelAngles(k, Normalized(k, accel));
    var ea := SmoothPair(w, mem.estAccel, mem.pastAccel);
    var eg := SmoothPair(w, mem.estGyro, [Swept(gyro[0], dt), Swept(gyro[1], dt)]);
    (Memory(Integrate(mem.pastGyro, gyro, dt), [m[0], m[1], mem.pastAccel[2]], ea, eg),
     [ea[0] + eg[1], ea[1] + eg[0], m[2]])
  }

  /** A filtered tick read component by component: the accelerometer
      angles stored (meas), the memories the filter leaves and the angles it
      writes make up FilteredTick. */
  lemma FilteredTickParts(k: Kernels, dt: real, w: real, mem: Memory, accel: seq<real>, gyro: seq<real>,
                          meas: seq<real>, pg: seq<real>, ea: seq<real>, eg: seq<real>, pa: seq<real>, angles: seq<real>)
    requires MemoryShape(mem) && |accel| == 3 && |gyro| == 3 && |meas| >= 2 && |angles| == 3
    requires var m := AccelAngles(k, Normalized(k, accel));
             meas[0] == m[0] && meas[1] == m[1] && angles[2] == m[2]
    requires pg == Integrate(mem.pastGyro, gyro, dt)
    requires ea == SmoothPair(w, mem.estAccel, mem.pastAccel)
    requires eg == SmoothPair(w, mem.estGyro, [Swept(gyro[0], dt), Swept(gyro[1], dt)])
    requires angles[0] == ea[0] + eg[1] && angles[1] == ea[1] + eg[0]
    requires pa == [meas[0], meas[1], mem.pastAccel[2]]
    ensures (Memory(pg, pa, ea, eg), angles) == FilteredTick(k, dt, w, mem, accel, gyro)
  {
    var m := AccelAngles(k, Normalized(k, accel));
    assert angles == [ea[0] + eg[1], ea[1] + eg[0], m[2]];
    assert pa == [m[0], m[1], mem.pastAccel[2]];
  }

  /** The filtered pitch and roll do not depend on this tick's accelerometer
      reading: the accelerometer angles enter the filter one tick late. */
  lemma FilteredLagsAccelByOneTick(k: Kernels, dt: real, w: real, mem: Memory, a1: seq<real>, a2: seq<real>, gyro: seq<real>)
    requires MemoryShape(mem) && |a1| == 3 && |a2| == 3 && |gyro| == 3
    ensures FilteredTick(k, dt, w, mem, a1, gyro).1[..2] == FilteredTick(k, dt, w, mem, a2, gyro).1[..2]
    ensures FilteredTick(k, dt, w, mem, a1, gyro).0.estAccel == FilteredTick(k, dt, w, mem, a2, gyro).0.estAccel
  {
  }

  /** This tick's accelerometer pitch and roll are stored for the next tick,
      and the third slot is never written. */
  lemma FilteredStoresAccelAngles(k: Kernels, dt: real, w: real, mem: Memory, accel: seq<real>, gyro: seq<real>)
    requires MemoryShape(mem) && |accel| == 3 && |gyro| == 3
    ensures var r := FilteredTick(k, dt, w, mem, accel, gyro);
            var m := AccelAngles(k, Normalized(k, accel));
            r.0.pastAccel == [m[0], m[1], mem.pastAccel[2]] && r.1[2] == m[2]
  {
  }

  /** The gyro filter sees the raw rate times dt, not the integrated angle:
      the filtered angles do not depend on the integrator's memory. */
  lemma FilteredIgnoresIntegrator(k: Kernels, dt: real, w: real, mem: Memory, pastGyro: seq<real>, accel: seq<real>, gyro: seq<real>)
    requires MemoryShape(mem) && |pastGyro| == 3 && |accel| == 3 && |gyro| == 3
    ensures var other := mem.(pastGyro := pastGyro);
            FilteredTick(k, dt, w, mem, accel, gyro).1 == FilteredTick(k, dt, w, other, accel, gyro).1
            && FilteredTick(k, dt, w, mem, accel, gyro).0.estGyro == FilteredTick(k, dt, w, other, accel, gyro).0.estGyro
  {
  }

  /** The filtered outputs cross the axes: pitch adds the gyro term of lane 1
      and roll the gyro term of lane 0. */
  lemma FilteredCrossesAxes(k: Kernels, dt: real, w: real, mem: Memory, accel: seq<real>, gyro: seq<real>)
    requires MemoryShape(mem) && |accel| == 3 && |gyro| == 3
    ensures var r := FilteredTick(k, dt, w, mem, accel, gyro);
            r.1[0] == r.0.estAccel[0] + r.0.estGyro[1] && r.1[1] == r.0.estAccel[1] + r.0.estGyro[0]
            && r.0.estGyro[1] == w * mem.estGyro[1] + (1.0 - w) * gyro[1] * dt
  {
  }

  /** Integrator lane i after a run of ticks whose gyro readings are `rates`. */
  function IntegratedLane(start: real, rates: seq<seq<real>>, i: nat, dt: real): real
    requires i < 3 && forall j :: 0 <= j < |rates| ==> |rates[j]| == 3
  {
    if rates == [] then start
    else IntegratedLane(start, rates[..|rates| - 1], i, dt) + Swept(rates[|rates| - 1][i], dt)
  }

  /** The memories after a run of filtered ticks. */
  function FilteredRun(k: Kernels, dt: real, w: real, mem: Memory, accels: seq<seq<real>>, rates: seq<seq<real>>): (r: Memory)
    requires MemoryShape(mem) && |accels| == |rates|
    requires forall j :: 0 <= j < |rates| ==> |accels[j]| == 3 && |rates[j]| == 3
    ensures MemoryShape(r)
  {
    if rates == [] then mem
    else
      var n := |rates| - 1;
      FilteredTick(k, dt, w, FilteredRun(k, dt, w, mem, accels[..n], rates[..n]), accels[n], rates[n]).0
  }

  lemma FilteredTickIntegrates(k: Kernels, dt: real, w: real, mem: Memory, accel: seq<real>, gyro: seq<real>)
    requires MemoryShape(mem) && |accel| == 3 && |gyro| == 3
    ensures FilteredTick(k, dt, w, mem, accel, gyro).0.pastGyro == Integrate(mem.pastGyro, gyro, dt)
  {
  }

  /** Over any run of ticks each integrator lane is its start value plus the
      sum of the lane's rates times dt: the integrator never resets. */
  lemma {:induction false} IntegratorAccumulates(k: Kernels, dt: real, w: real, mem: Memory,
                                                 accels: seq<seq<real>>, rates: seq<seq<real>>, i: nat)
    requires MemoryShape(mem) && |accels| == |rates| && i < 3
    requires forall j :: 0 <= j < |rates| ==> |accels[j]| == 3 && |rates[j]| == 3
    ensures FilteredRun(k, dt, w, mem, accels, rates).pastGyro[i] == IntegratedLane(mem.pastGyro[i], rates, i, dt)
    decreases |rates|
  {
    if rates != [] {
      var n := |rates| - 1;
      var mid := FilteredRun(k, dt, w, mem, accels[..n], rates[..n]);
      IntegratorAccumulates(k, dt, w, mem, accels[..n], rates[..n], i);
      FilteredTickIntegrates(k, dt, w, mid, accels[n], rates[n]);
      assert FilteredRun(k, dt, w, mem, accels, rates) == FilteredTick(k, dt, w, mid, accels[n], rates[n]).0;
    }
  }

  /** A filter lane fed the same value x on every tick: its distance to x
      shrinks by the factor w per tick. */
  function SmoothRun(w: real, prev: real, x: real, ticks: nat): real
  {
    if ticks == 0 then prev else Smooth(w, SmoothRun(w, prev, x, ticks - 1), x)
  }

  function Power(w: real, n: nat): real
  {
    if n == 0 then 1.0 else w * Power(w, n - 1)
  }

  lemma {:induction false} SmoothRunGeometric(w: real, prev: real, x: real, ticks: nat)
    ensures SmoothRun(w, prev, x, ticks) - x == Power(w, ticks) * (prev - x)
  {
    if ticks > 0 {
      SmoothRunGeometric(w, prev, x, ticks - 1);
      var e := SmoothRun(w, prev, x, ticks - 1);
      assert Smooth(w, e, x) - x == w * (e - x);
      assert w * (Power(w, ticks - 1) * (prev - x)) == (w * Power(w, ticks - 1)) * (prev - x);
    }
  }

  /** estimator_notFilterAngles for one tick: only the integrator moves; the
      six angles are the accelerometer angles followed by the integrated
      angles. */
  function UnfilteredTick(k: Kernels, dt: real, mem: Memory, accel: seq<real>, gyro: seq<real>): (r: (Memory, seq<real>))
    requires MemoryShape(mem) && |accel| == 3 && |gyro| == 3
    ensures MemoryShape(r.0) && |r.1| == 6
  {
    var g := Integrate(mem.pastGyro, gyro, dt);
    (mem.(pastGyro := g), AccelAngles(k, Normalized(k, accel)) + g)
  }

  lemma UnfilteredKeepsFilters(k: Kernels, dt: real, mem: Memory, accel: seq<real>, gyro: seq<real>)
    requires MemoryShape(mem) && |accel| == 3 && |gyro| == 3
    ensures var r := UnfilteredTick(k, dt, mem, accel, gyro).0;
            r.pastAccel == mem.pastAccel && r.estAccel == mem.estAccel && r.estGyro == mem.estGyro
    ensures forall i :: 0 <= i < 3 ==>
              UnfilteredTick(k, dt, mem, accel, gyro).1[3 + i] == mem.pastGyro[i] + gyro[i] * dt
  {
  }

  /** eCalc_NormalizeMeasure on the first `len` slots of a buffer. */
  method NormalizeMeasure(k: Kernels, m: array<real>, len: nat)
    requires len <= m.Length
    modifies m
    ensures m[..len] == Normalized(k, old(m[..len]))
    ensures m[len..] == old(m[len..])
  {
    var c := k.invSqrt(SumSquares(m[..len]));
    ghost var v := m[..len];
    var i := 0;
    while i < len
      invariant 0 <= i <= len
      invariant forall j :: 0 <= j < i ==> m[j] == v[j] * c
      invariant forall j :: i <= j < m.Length ==> m[j] == old(m[j])
    {
      m[i] := m[i] * c;
      i := i + 1;
    }
    forall j | 0 <= j < len
      ensures m[..len][j] == Scaled(v, c)[j]
    {
    }
    assert m[..len] == Scaled(v, c);
  }

  /** The three accelerometer angles of eCalc_Angles into result[0..2]. */
  method WriteAccelAngles(k: Kernels, a: seq<real>, result: array<real>)
    requires |a| == 3 && result.Length >= 3
    modifies result
    ensures result[..3] == AccelAngles(k, a)
    ensures result[3..] == old(result[3..])
  {
    result[0] := k.atan2(-a[0], k.sqrt(a[1] * a[1] + a[2] * a[2])) * (180.0 / PI);
    result[1] := k.atan2(a[1], k.sqrt(a[0] * a[0] + a[2] * a[2])) * (180.0 / PI);
    result[2] := k.atan2(k.sqrt(a[0] * a[0] + a[1] * a[1]), a[2]) * (180.0 / PI);
  }

  /** The estimator's globals. */
  class Estimator {
    var dt: real
    var weight: real
    var pastGyro: array<real>
    var pastAccel: array<real>
    var estAccel: array<real>
    var estGyro: array<real>

    ghost predicate Valid()
      reads this
    {
      pastGyro.Length == 3 && pastAccel.Length == 3 && estAccel.Length == 2 && estGyro.Length == 2
      && pastGyro != pastAccel && estAccel != estGyro
      && pastGyro != estAccel && pastGyro != estGyro && pastAccel != estAccel && pastAccel != estGyro
    }

    /** A caller's buffer that is none of the memories. */
    ghost predicate Apart(a: array<real>)
      reads this
    {
      a != pastGyro && a != pastAccel && a != estAccel && a != estGyro
    }

    ghost function Mem(): (m: Memory)
      requires Valid()
      reads this, pastGyro, pastAccel, estAccel, estGyro
      ensures MemoryShape(m)
    {
      Memory(pastGyro[..], pastAccel[..], estAccel[..], estGyro[..])
    }

    /** The static initialisers: everything zero. */
    constructor ()
      ensures Valid() && dt == 0.0 && weight == 0.0
      ensures Mem() == Memory([0.0, 0.0, 0.0], [0.0, 0.0, 0.0], [0.0, 0.0], [0.0, 0.0])
      ensures fresh(pastGyro) && fresh(pastAccel) && fresh(estAccel) && fresh(estGyro)
    {
      dt := 0.0;
      weight := 0.0;
      pastGyro := new real[3](_ => 0.0);
      pastAccel := new real[3](_ => 0.0);
      estAccel := new real[2](_ => 0.0);
      estGyro := new real[2](_ => 0.0);
      new;
      assert pastGyro[..] == [0.0, 0.0, 0.0] && pastAccel[..] == [0.0, 0.0, 0.0];
      assert estAccel[..] == [0.0, 0.0] && estGyro[..] == [0.0, 0.0];
    }

    /** estimator_init: dt and the weight are stored whatever the outcome;
        the status is OK exactly when the device ID read is 0x71. */
    method Init(d: Mpu9250.Driver, sampleRate: nat, w: real) returns (s: Status)
      requires 0 < sampleRate < 65536
      modifies this`dt, this`weight, d`trace, d`mpuAddr
      ensures dt == 1.0 / sampleRate as real && weight == w
      ensures var n := |d.trace| - 1;
              n >= 0 && d.trace[n] == Mpu9250.ReadOp(d.mpuAddr, Mpu9250.WHO_AM_I_ADDR)
              && var r := d.bus(n, d.trace[n]);
                 s == (if r.ack && r.data == Mpu9250.DEVICE_ID then Ok else Error)
      ensures var n := |old(d.trace)|;
              d.trace == old(d.trace) + Mpu9250.IdOps(d.bus, n, old(d.mpuAddr))
              && d.mpuAddr == Mpu9250.IdAddr(d.bus, n, old(d.mpuAddr))
              && s == (if Mpu9250.IdValue(d.bus, n, old(d.mpuAddr)) == Mpu9250.DEVICE_ID then Ok else Error)
    {
      dt := 1.0 / sampleRate as real;
      weight := w;
      var id := d.ReadID();
      s := if id == Mpu9250.DEVICE_ID then Ok else Error;
    }

    /** The integrator loop of eCalc_Angles: each lane adds rate times dt
        and is copied into result[3 + lane]. */
    method AdvanceIntegrator(gyro: array<real>, result: array<real>)
      requires Valid() && gyro.Length == 3 && result.Length >= 6 && Apart(result) && gyro != pastGyro && gyro != result
      modifies pastGyro, result
      ensures pastGyro[..] == Integrate(old(pastGyro[..]), gyro[..], dt)
      ensures result[..3] == old(result[..3]) && result[3..6] == pastGyro[..] && result[6..] == old(result[6..])
    {
      ghost var g0 := pastGyro[..];
      var i := 0;
      while i < 3
        invariant 0 <= i <= 3
        invariant forall j :: 0 <= j < i ==> pastGyro[j] == g0[j] + Swept(gyro[j], dt) && result[3 + j] == pastGyro[j]
        invariant forall j :: i <= j < 3 ==> pastGyro[j] == g0[j]
        invariant forall j :: 0 <= j < result.Length && (j < 3 || 6 <= j) ==> result[j] == old(result[j])
      {
        result[i + 3] := pastGyro[i] + gyro[i] * dt;
        pastGyro[i] := result[i + 3];
        i := i + 1;
      }
      assert pastGyro[..] == [pastGyro[0], pastGyro[1], pastGyro[2]];
    }

    /** eCalc_Angles: normalises the accelerometer buffer in place, writes
        the three accelerometer angles into result[0..2], and advances the
        integrator, copying it into result[3..5]. */
    method Angles(k: Kernels, accel: array<real>, gyro: array<real>, result: array<real>)
      requires Valid() && accel.Length == 3 && gyro.Length == 3 && result.Length >= 6
      requires Apart(accel) && Apart(gyro) && Apart(result) && accel != result && gyro != result && accel != gyro
      modifies accel, result, pastGyro
      ensures Valid()
      ensures accel[..] == Normalized(k, old(accel[..]))
      ensures pastGyro[..] == Integrate(old(pastGyro[..]), gyro[..], dt)
      ensures result[..3] == AccelAngles(k, accel[..]) && result[3..6] == pastGyro[..]
      ensures result[6..] == old(result[6..])
    {
      assert accel[..3] == accel[..];
      NormalizeMeasure(k, accel, 3);
      assert accel[..3] == accel[..];
      WriteAccelAngles(k, accel[..], result);
      AdvanceIntegrator(gyro, result);
    }

    /** The accelerometer lanes of eCalc_ComplementaryFilter. */
    method SmoothAccel()
      requires Valid()
      modifies estAccel
      ensures estAccel[..] == SmoothPair(weight, old(estAccel[..]), pastAccel[..])
    {
      var i := 0;
      while i < 2
        invariant 0 <= i <= 2
        invariant forall j :: 0 <= j < i ==> estAccel[j] == Smooth(weight, old(estAccel[j]), pastAccel[j])
        invariant forall j :: i <= j < 2 ==> estAccel[j] == old(estAccel[j])
      {
        var e := weight * estAccel[i];
        e := e + (1.0 - weight) * pastAccel[i];
        estAccel[i] := e;
        i := i + 1;
      }
      assert estAccel[..] == [estAccel[0], estAccel[1]];
    }

    /** The gyro lanes of eCalc_ComplementaryFilter: the raw rate times dt. */
    method SmoothGyro(gyro: array<real>)
      requires Valid() && gyro.Length == 3 && gyro != estGyro
      modifies estGyro
      ensures estGyro[..] == SmoothPair(weight, old(estGyro[..]), [Swept(gyro[0], dt), Swept(gyro[1], dt)])
    {
      ghost var e0 := estGyro[..];
      var i := 0;
      while i < 2
        invariant 0 <= i <= 2
        invariant forall j :: 0 <= j < i ==> estGyro[j] == Smooth(weight, e0[j], Swept(gyro[j], dt))
        invariant forall j :: i <= j < 2 ==> estGyro[j] == e0[j]
      {
        var e := weight * estGyro[i];
        e := e + (1.0 - weight) * gyro[i] * dt;
        assert e == Smooth(weight, e0[i], Swept(gyro[i], dt)) by {
          assert (1.0 - weight) * gyro[i] * dt == (1.0 - weight) * (gyro[i] * dt);
        }
        estGyro[i] := e;
        i := i + 1;
      }
      assert estGyro[..] == [estGyro[0], estGyro[1]];
    }

    /** eCalc_ComplementaryFilter: advances both filters and writes the
        crossed sums into out[0] and out[1]. */
    method ComplementaryFilter(gyro: array<real>, out: array<real>)
      requires Valid() && gyro.Length == 3 && out.Length >= 2 && Apart(gyro) && Apart(out) && gyro != out
      modifies estAccel, estGyro, out
      ensures Valid()
      ensures estAccel[..] == SmoothPair(weight, old(estAccel[..]), pastAccel[..])
      ensures estGyro[..] == SmoothPair(weight, old(estGyro[..]), [Swept(gyro[0], dt), Swept(gyro[1], dt)])
      ensures out[0] == estAccel[0] + estGyro[1] && out[1] == estAccel[1] + estGyro[0]
      ensures out[2..] == old(out[2..])
    {
      SmoothAccel();
      SmoothGyro(gyro);
      out[0] := estAccel[0] + estGyro[1];
      out[1] := estAccel[1] + estGyro[0];
    }

    /** The closing loop of estimator_filteredAngles: this tick's pitch and
        roll become the stored accelerometer angles. */
    method StoreAccelAngles(measures: array<real>)
      requires Valid() && measures.Length >= 2 && measures != pastAccel
      modifies pastAccel
      ensures pastAccel[..] == [measures[0], measures[1], old(pastAccel[2])]
    {
      var i := 0;
      while i < 2
        invariant 0 <= i <= 2
        invariant forall j :: 0 <= j < i ==> pastAccel[j] == measures[j]
        invariant forall j :: i <= j < 3 ==> pastAccel[j] == old(pastAccel[j])
      {
        pastAccel[i] := measures[i];
        i := i + 1;
      }
    }

    /** The first part of estimator_filteredAngles after the read: the
        angles of eCalc_Angles into a scratch buffer, which is returned, the
        complementary filter into the caller's buffer and the tilt copied
        into its third slot. */
    method FilterAngles(k: Kernels, accel: array<real>, gyro: array<real>, angles: array<real>)
      returns (measures: array<real>)
      requires Valid() && accel.Length == 3 && gyro.Length == 3 && angles.Length >= 3
      requires Apart(accel) && Apart(gyro) && Apart(angles) && accel != gyro && accel != angles && gyro != angles
      modifies accel, angles, pastGyro, estAccel, estGyro
      ensures Valid() && fresh(measures) && measures.Length == 6
      ensures var m := AccelAngles(k, Normalized(k, old(accel[..])));
              measures[0] == m[0] && measures[1] == m[1] && angles[2] == m[2]
      ensures angles[0] == estAccel[0] + estGyro[1] && angles[1] == estAccel[1] + estGyro[0]
      ensures pastGyro[..] == Integrate(old(pastGyro[..]), gyro[..], dt)
      ensures estAccel[..] == SmoothPair(weight, old(estAccel[..]), pastAccel[..])
      ensures estGyro[..] == SmoothPair(weight, old(estGyro[..]), [Swept(gyro[0], dt), Swept(gyro[1], dt)])
      ensures angles[3..] == old(angles[3..])
    {
      ghost var m := AccelAngles(k, Normalized(k, accel[..]));
      measures := new real[6](_ => 0.0);
      Angles(k, accel, gyro, measures);
      assert measures[0] == m[0] && measures[1] == m[1] && measures[2] == m[2];
      ComplementaryFilter(gyro, angles);
      angles[2] := measures[2];
    }

    /** The body of estimator_filteredAngles after the read: FilterAngles,
        then this tick's pitch and roll stored for the next tick. */
    method FilterTick(k: Kernels, accel: array<real>, gyro: array<real>, angles: array<real>)
      requires Valid() && accel.Length == 3 && gyro.Length == 3 && angles.Length >= 3
      requires Apart(accel) && Apart(gyro) && Apart(angles) && accel != gyro && accel != angles && gyro != angles
      modifies accel, angles, pastGyro, pastAccel, estAccel, estGyro
      ensures Valid()
      ensures (Mem(), angles[..3]) == FilteredTick(k, dt, weight, old(Mem()), old(accel[..]), gyro[..])
      ensures angles[3..] == old(angles[3..])
    {
      ghost var mem0, a0 := Mem(), accel[..];
      var measures := FilterAngles(k, accel, gyro, angles);
      ghost var ms, pg, ea, eg, out := measures[..], pastGyro[..], estAccel[..], estGyro[..], angles[..3];
      StoreAccelAngles(measures);
      FilteredTickParts(k, dt, weight, mem0, a0, gyro[..], ms, pg, ea, eg, pastAccel[..], out);
    }

    /** estimator_filteredAngles: one tick of the filtered path. The status
        is the data read's; every memory update happens even when the read
        failed. The caller's buffer needs three slots. */
    method FilteredAngles(d: Mpu9250.Driver, k: Kernels, angles: array<real>) returns (s: Status)
      requires Valid() && angles.Length >= 3 && Apart(angles)
      requires d.aResolution != 0 && d.gResolution != 0.0
      modifies d`trace, angles, pastGyro, pastAccel, estAccel, estGyro
      ensures Valid()
      ensures var r := Mpu9250.DataReadFloat(d.bus, d.mpuAddr, |old(d.trace)|, d.aResolution as real, d.gResolution,
                                             [0.0, 0.0, 0.0], [0.0, 0.0, 0.0]);
              s == r.status && |d.trace| == r.next
              && (Mem(), angles[..3]) == FilteredTick(k, dt, weight, old(Mem()), r.accel, r.gyro)
      ensures d.trace == old(d.trace) + Mpu9250.DataReadOps(d.bus, d.mpuAddr, |old(d.trace)|)
      ensures angles[3..] == old(angles[3..])
    {
      var accel := new real[3](_ => 0.0);
      var gyro := new real[3](_ => 0.0);
      assert accel[..] == [0.0, 0.0, 0.0] && gyro[..] == [0.0, 0.0, 0.0];
      s := d.ReadDataFloat(accel, gyro);
      FilterTick(k, accel, gyro, angles);
    }

    /** estimator_notFilterAngles: the six angles of eCalc_Angles into the
        caller's buffer; only the integrator moves. */
    method NotFilterAngles(d: Mpu9250.Driver, k: Kernels, angles: array<real>) returns (s: Status)
      requires Valid() && angles.Length >= 6 && Apart(angles)
      requires d.aResolution != 0 && d.gResolution != 0.0
      modifies d`trace, angles, pastGyro
      ensures Valid()
      ensures var r := Mpu9250.DataReadFloat(d.bus, d.mpuAddr, |old(d.trace)|, d.aResolution as real, d.gResolution,
                                             [0.0, 0.0, 0.0], [0.0, 0.0, 0.0]);
              var t := UnfilteredTick(k, dt, old(Mem()), r.accel, r.gyro);
              s == r.status && |d.trace| == r.next && Mem() == t.0 && angles[..6] == t.1
      ensures d.trace == old(d.trace) + Mpu9250.DataReadOps(d.bus, d.mpuAddr, |old(d.trace)|)
      ensures angles[6..] == old(angles[6..])
    {
      var accel := new real[3](_ => 0.0);
      var gyro := new real[3](_ => 0.0);
      assert accel[..] == [0.0, 0.0, 0.0] && gyro[..] == [0.0, 0.0, 0.0];
      s := d.ReadDataFloat(accel, gyro);
      Angles(k, accel, gyro, angles);
      assert angles[..6] == angles[..3] + angles[3..6];
    }
  }
}
