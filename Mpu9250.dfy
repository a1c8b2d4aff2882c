/** The MPU9250 driver of mpu9250.c. The I2C bus is an oracle: the reply to
    the n-th transaction of the driver's life is `bus(n, t)`, where `t` says
    which device, register and data the transaction carries. The driver keeps
    the list of transactions it issued, so the n-th entry of `trace` is the
    transaction whose reply was `bus(n, trace[n])`. */
module Mpu9250 {
  import opened Common

  /** A uint8_t register address advanced by `i`: it wraps past 0xFF. */
  function RegAt(reg: byte, i: nat): byte
  {
    WrapU8(reg as int + i) as byte
  }

  // Device addresses and the registers the modelled functions touch
  // (mpu9250.c:8-9, 68, 114, 136, 155, 179, 484, 507, 526, 533, 551, 564, 714, 760).
  const ADDR: byte := 0x68
  const ADDR_ALT: byte := 0x69
  const SAMPLE_RATE_DIV_ADDR: byte := 0x19
  const CONFIG_ADDR: byte := 0x1A
  const GYRO_CONFIG_ADDR: byte := 0x1B
  const ACCEL_CONFIG_ADDR: byte := 0x1C
  const ACCEL_CONFIG2_ADDR: byte := 0x1D
  const INT_PIN_CONFIG_ADDR: byte := 0x37
  const INT_ENABLE_ADDR: byte := 0x38
  const INT_STATUS_ADDR: byte := 0x3A
  const ACCEL_XOUT_H_ADDR: byte := 0x3B
  const TEMP_H_ADDR: byte := 0x41
  const GYRO_XOUT_H_ADDR: byte := 0x43
  const PWR_MGMT1_ADDR: byte := 0x6B
  const WHO_AM_I_ADDR: byte := 0x75

  // Public constants (mpu9250.h:90-92).
  const DEVICE_ID: byte := 0x71
  const CMD_RESET: byte := 0x80
  const INT_DATA_READY_MSK: byte := 0x01

  /** One I2C transaction: an address probe, a single-register read or a
      single-register write. */
  datatype Transaction =
    | Probe(dev: byte)
    | ReadOp(dev: byte, reg: byte)
    | WriteOp(dev: byte, reg: byte, data: byte)

  /** What the bus answers: whether the transfer completed and, for a read,
      the byte received. */
  datatype Reply = Reply(ack: bool, data: byte)

  type Bus = (nat, Transaction) -> Reply

  /** mpu9250_InitStruct_t, with the enum fields as their integer values. */
  datatype InitConfig = InitConfig(
    sampleRate: nat,
    gyroScale: nat,
    gyroLpf: int,
    accelScale: nat,
    accelLpf: int)

  // ---------------------------------------------------------------------------
  // Raw-data decoding

  /** The sensor's big-endian byte pair read as a two's-complement int16:
      (int16_t)(((int16_t)hi << 8) | lo). */
  function DecodeInt16(hi: byte, lo: byte): (v: int)
    ensures IsInt16(v)
    ensures (v - (hi as int * 256 + lo as int)) % 65536 == 0
  {
    Wrap16(hi as int * 256 + lo as int)
  }

  /** The byte pair the sensor sends for a value. */
  function EncodeInt16(v: int): (bytes: (byte, byte))
    requires IsInt16(v)
  {
    var u := v % 65536;
    ((u / 256) as byte, (u % 256) as byte)
  }

  lemma DecodeEncode(v: int)
    requires IsInt16(v)
    ensures DecodeInt16(EncodeInt16(v).0, EncodeInt16(v).1) == v
  {
    var u := v % 65536;
    assert EncodeInt16(v).0 as int * 256 + EncodeInt16(v).1 as int == u;
    if v >= 0 {
      assert u == v;
    } else {
      assert u == v + 65536;
    }
  }

  lemma EncodeDecode(hi: byte, lo: byte)
    ensures EncodeInt16(DecodeInt16(hi, lo)) == (hi, lo)
  {
    var h, l := hi as int, lo as int;
    var u := h * 256 + l;
    assert 0 <= u < 65536;
    var d := DecodeInt16(hi, lo);
    assert d == (if u < 32768 then u else u - 65536);
    assert d % 65536 == u;
    assert u / 256 == h && u % 256 == l;
  }

  /** Three axes from six bytes, X first, high byte first. */
  function DecodeAxes(raw: seq<byte>): (axes: seq<int>)
    requires |raw| == 6
    ensures |axes| == 3 && AllInt16(axes)
    ensures forall i :: 0 <= i < 3 ==> axes[i] == DecodeInt16(raw[2 * i], raw[2 * i + 1])
  {
    [DecodeInt16(raw[0], raw[1]), DecodeInt16(raw[2], raw[3]), DecodeInt16(raw[4], raw[5])]
  }

  // ---------------------------------------------------------------------------
  // Full-scale tables and configuration bytes

  /** Gyro full-scale range in degrees per second for the scale code. */
  function GyroFullScaleDps(scale: nat): int
    requires scale < 4
  {
    [250, 500, 1000, 2000][scale]
  }

  /** Accelerometer full-scale range in g for the scale code. */
  function AccelFullScaleG(scale: nat): int
    requires scale < 4
  {
    [2, 4, 8, 16][scale]
  }

  /** LSB per degree per second (mpu9250.c:841-858); any code outside the
      table gets the 250 dps value. */
  function GyroResolution(scale: nat): (r: real)
    ensures IsGyroResolution(r) && r > 0.0
  {
    if scale == 0 then 131.0
    else if scale == 1 then 65.5
    else if scale == 2 then 32.8
    else if scale == 3 then 16.4
    else 131.0
  }

  /** LSB per g (mpu9250.c:860-877); any code outside the table gets the
      2 g value. */
  function AccelResolution(scale: nat): (r: int)
    ensures IsAccelResolution(r) && r > 0
  {
    if scale == 0 then 16384
    else if scale == 1 then 8192
    else if scale == 2 then 4096
    else if scale == 3 then 2048
    else 16384
  }

  /** Over every defined scale the int16 range spans the full-scale range:
      exactly for the accelerometer, to within 0.1 % for the gyro (whose
      table values are rounded); undefined codes fall back to the smallest
      range. */
  lemma ResolutionSpansFullScale(scale: nat)
    ensures scale < 4 ==> AccelResolution(scale) * AccelFullScaleG(scale) == 32768
    ensures scale < 4 ==> 32750.0 <= GyroResolution(scale) * GyroFullScaleDps(scale) as real <= 32800.0
    ensures scale >= 4 ==> AccelResolution(scale) == AccelResolution(0) && GyroResolution(scale) == GyroResolution(0)
  {
  }

  /** The values gResolution and aResolution can hold: zero before a
      successful init, a table entry after. */
  predicate IsGyroResolution(g: real) { g in {0.0, 131.0, 65.5, 32.8, 16.4} }
  predicate IsAccelResolution(a: int) { a in {0, 16384, 8192, 4096, 2048} }

  /** An assignment to a uint8_t variable. */
  function ToByte(x: int): byte
  {
    WrapU8(x) as byte
  }

  /** The low eight bits of an int, as a bit vector. A uint8_t result of
      `x << 3` keeps only the low five bits of x, so it is ToBits(x) << 3 in
      eight-bit arithmetic. */
  function ToBits(x: int): bv8
  {
    WrapU8(x) as bv8
  }

  /** GYRO_CONFIG after init (mpu9250.c:819-821): the read value with the
      Fchoice_b bits 0-1 and the scale bits 3-4 cleared, then the scale
      shifted into bits 3-4. */
  function GyroConfigByte(read: bv8, scale: nat): (w: bv8)
    ensures scale < 4 ==> w & 0xE4 == read & 0xE4
    ensures scale < 4 ==> (w >> 3) & 0x03 == scale as bv8
    ensures w & 0x03 == 0
  {
    (read & 0xE4) | (ToBits(scale) << 3)
  }

  /** ACCEL_CONFIG after init (mpu9250.c:828-829): the masked read value is
      overwritten, so the byte is the scale shifted into bits 3-4 and nothing
      of the read value survives. */
  function AccelConfigByte(read: bv8, scale: nat): (w: bv8)
    ensures scale < 4 ==> w == (scale as bv8) << 3
    ensures w & 0x07 == 0
  {
    ToBits(scale) << 3
  }

  /** ACCEL_CONFIG2 after init (mpu9250.c:836-837): the high nibble of the
      read value with the low-pass code ORed in; the code -1 (disabled)
      sets every bit. */
  function AccelConfig2Byte(read: bv8, lpf: int): (w: bv8)
    ensures 0 <= lpf < 16 ==> w & 0xF0 == read & 0xF0 && w & 0x0F == lpf as bv8
    ensures lpf == -1 ==> w == 0xFF
  {
    (read & 0xF0) | ToBits(lpf)
  }

  /** SMPLRT_DIV (mpu9250.c:901-903): (uint8_t)(1000 / rate - 1), raised to at
      least 3. */
  function SampleRateDivider(rate: nat): (d: int)
    requires rate > 0
    ensures 3 <= d <= 255
  {
    var div := WrapU8(1000 / rate - 1);
    if div < 3 then 3 else div
  }

  /** The divider gives the requested rate 1000 / (1 + d) for 4..250 Hz,
      saturates at 3 above 250 Hz and wraps to 255 above 1000 Hz; the
      deployed 100 Hz gives 9. */
  lemma SampleRateDividerValues(rate: nat)
    requires rate > 0
    ensures 4 <= rate <= 250 ==> SampleRateDivider(rate) == 1000 / rate - 1
    ensures 250 < rate <= 1000 ==> SampleRateDivider(rate) == 3
    ensures rate > 1000 ==> SampleRateDivider(rate) == 255
    ensures SampleRateDivider(100) == 9
  {
    if 4 <= rate <= 250 {
      assert 1000 / rate >= 4;
      assert 1000 / rate <= 250;
    } else if 250 < rate <= 1000 {
      assert 1 <= 1000 / rate < 4;
    } else if rate > 1000 {
      assert 1000 / rate == 0;
    }
  }

  /** The register updates init performs by read-modify-write. */
  datatype RegUpdate = GyroScale(scale: nat) | AccelScale(scale: nat) | AccelLpf(lpf: int)

  function Apply(u: RegUpdate, read: byte): byte
  {
    var bits := read as bv8;
    match u
    case GyroScale(s) => GyroConfigByte(bits, s) as byte
    case AccelScale(s) => AccelConfigByte(bits, s) as byte
    case AccelLpf(l) => AccelConfig2Byte(bits, l) as byte
  }

  // ---------------------------------------------------------------------------
  // What the read paths return, as functions of the bus

  /** The reply to the i-th single read of a burst starting at `reg`; the
      register address is a uint8_t and wraps. */
  function BurstReply(bus: Bus, dev: byte, n: nat, reg: byte, i: nat): Reply
    requires i < 256
  {
    bus(n + i, ReadOp(dev, RegAt(reg, i)))
  }

  function BurstOps(dev: byte, reg: byte, count: nat): (ops: seq<Transaction>)
    requires count < 256
    ensures |ops| == count
  {
    seq(count, i requires 0 <= i < count => ReadOp(dev, RegAt(reg, i)))
  }

  /** mpu9250_readBytes' status after `count` single reads: OK once any
      of them succeeded. */
  function BurstStatus(bus: Bus, dev: byte, n: nat, reg: byte, count: nat): Status
    requires count < 256
  {
    if count == 0 then Error
    else if BurstReply(bus, dev, n, reg, count - 1).ack then Ok
    else BurstStatus(bus, dev, n, reg, count - 1)
  }

  /** mpu9250_readBytes' buffer after `count` single reads: read i writes
      slot i when it succeeds. */
  function BurstData(bus: Bus, dev: byte, n: nat, reg: byte, count: nat, prior: seq<byte>): (r: seq<byte>)
    requires count < 256 && count <= |prior|
    ensures |r| == |prior|
  {
    if count == 0 then prior
    else
      var r := BurstReply(bus, dev, n, reg, count - 1);
      var d := BurstData(bus, dev, n, reg, count - 1, prior);
      if r.ack then d[count - 1 := r.data] else d
  }

  /** readBytes returns OK iff at least one single read succeeded. */
  lemma {:induction false} BurstStatusIffSomeAck(bus: Bus, dev: byte, n: nat, reg: byte, count: nat)
    requires count < 256
    ensures BurstStatus(bus, dev, n, reg, count) == Ok
        <==> exists i :: 0 <= i < count && BurstReply(bus, dev, n, reg, i).ack
  {
    if count > 0 {
      BurstStatusIffSomeAck(bus, dev, n, reg, count - 1);
      if BurstReply(bus, dev, n, reg, count - 1).ack {
        assert BurstStatus(bus, dev, n, reg, count) == Ok;
      }
    }
  }

  /** Slot i < count holds the byte of read i (register reg + i, wrapping)
      when that read succeeded and its old content otherwise; slots past
      count are untouched. */
  lemma {:induction false} BurstDataSlots(bus: Bus, dev: byte, n: nat, reg: byte, count: nat, prior: seq<byte>)
    requires count < 256 && count <= |prior|
    ensures forall i :: 0 <= i < |prior| ==>
      BurstData(bus, dev, n, reg, count, prior)[i]
        == if i < count && BurstReply(bus, dev, n, reg, i).ack then BurstReply(bus, dev, n, reg, i).data else prior[i]
  {
    if count > 0 {
      BurstDataSlots(bus, dev, n, reg, count - 1, prior);
    }
  }

  const ZeroRaw: seq<byte> := [0, 0, 0, 0, 0, 0]

  /** mpu9250_read{Accel,Gyro}Data_int16: six-byte burst into a zeroed
      buffer, decoded whatever the status. */
  function AxesRead(bus: Bus, dev: byte, n: nat, reg: byte): (Status, seq<int>)
  {
    (BurstStatus(bus, dev, n, reg, 6), DecodeAxes(BurstData(bus, dev, n, reg, 6, ZeroRaw)))
  }

  /** mpu9250_getStatus: only the data-ready bit (bit 0, the mask
      INT_DATA_READY_MSK) of the status byte counts; a failed read leaves
      the byte 0 and so reads as not ready. */
  function DataReady(bus: Bus, dev: byte, n: nat): bool
  {
    var r := bus(n, ReadOp(dev, INT_STATUS_ADDR));
    r.ack && r.data % 2 == 1
  }

  /** The outcome of one data read: status, the two caller buffers after the
      call, and the number of the next transaction. */
  datatype Sample<T> = Sample(status: Status, accel: seq<T>, gyro: seq<T>, next: nat)

  /** mpu9250_readData_int16 (mpu9250.c:1120-1134). */
  function DataReadInt16(bus: Bus, dev: byte, n: nat, accel: seq<int>, gyro: seq<int>): (s: Sample<int>)
    ensures !DataReady(bus, dev, n) ==> s == Sample(Ok, accel, gyro, n + 1)
    ensures DataReady(bus, dev, n) ==> |s.accel| == 3 && |s.gyro| == 3 && s.next == n + 13
    ensures AllInt16(accel) && AllInt16(gyro) ==> AllInt16(s.accel) && AllInt16(s.gyro)
  {
    if DataReady(bus, dev, n) then
      var a := AxesRead(bus, dev, n + 1, ACCEL_XOUT_H_ADDR);
      var g := AxesRead(bus, dev, n + 7, GYRO_XOUT_H_ADDR);
      Sample(if a.0 == Ok && g.0 == Ok then Ok else Error, a.1, g.1, n + 13)
    else
      Sample(Ok, accel, gyro, n + 1)
  }

  /** The status of a data read begun at transaction n, which does not
      depend on the buffers: OK when no data was ready, otherwise OK when
      both bursts were. */
  function DataReadStatus(bus: Bus, dev: byte, n: nat): Status
  {
    if !DataReady(bus, dev, n) then Ok
    else if BurstStatus(bus, dev, n + 1, ACCEL_XOUT_H_ADDR, 6) == Ok
         && BurstStatus(bus, dev, n + 7, GYRO_XOUT_H_ADDR, 6) == Ok then Ok
    else Error
  }

  /** The transaction after a data read begun at n: 1 status read, plus
      two six-byte bursts when data was ready. */
  function DataReadNext(bus: Bus, dev: byte, n: nat): nat
  {
    if DataReady(bus, dev, n) then n + 13 else n + 1
  }

  /** The transactions of a data read begun at n: the status read, then the
      accel and the gyro bursts when data was ready. */
  function DataReadOps(bus: Bus, dev: byte, n: nat): (t: seq<Transaction>)
    ensures n + |t| == DataReadNext(bus, dev, n)
  {
    [ReadOp(dev, INT_STATUS_ADDR)]
    + if DataReady(bus, dev, n) then BurstOps(dev, ACCEL_XOUT_H_ADDR, 6) + BurstOps(dev, GYRO_XOUT_H_ADDR, 6) else []
  }

  /** A transcript that only reads from the device: nothing is written and
      no other address is probed. */
  predicate OnlyReads(t: seq<Transaction>, dev: byte)
  {
    forall i :: 0 <= i < |t| ==> t[i].ReadOp? && t[i].dev == dev
  }

  /** A data read writes nothing to the sensor: it opens with the
      INT_STATUS read and otherwise reads the twelve data registers from
      ACCEL_XOUT_H and GYRO_XOUT_H on. */
  lemma DataReadOnlyReads(bus: Bus, dev: byte, n: nat)
    ensures var t := DataReadOps(bus, dev, n);
            OnlyReads(t, dev) && t[0] == ReadOp(dev, INT_STATUS_ADDR)
            && (DataReady(bus, dev, n) <==> |t| == 13)
            && (DataReady(bus, dev, n) ==> forall i :: 0 <= i < 6 ==>
                  t[1 + i].reg == RegAt(ACCEL_XOUT_H_ADDR, i) && t[7 + i].reg == RegAt(GYRO_XOUT_H_ADDR, i))
  {
  }

  lemma DataReadSplits(bus: Bus, dev: byte, n: nat, accel: seq<int>, gyro: seq<int>)
    ensures DataReadInt16(bus, dev, n, accel, gyro).status == DataReadStatus(bus, dev, n)
    ensures DataReadInt16(bus, dev, n, accel, gyro).next == DataReadNext(bus, dev, n)
  {
  }

  function Scale(v: seq<int>, res: real): (r: seq<real>)
    requires res != 0.0
    ensures |r| == |v|
    ensures forall i :: 0 <= i < |v| ==> r[i] == v[i] as real / res
  {
    seq(|v|, i requires 0 <= i < |v| => v[i] as real / res)
  }

  /** mpu9250_readData_float (mpu9250.c:1197-1211): the int16 reads divided
      by the resolutions. */
  function DataReadFloat(bus: Bus, dev: byte, n: nat, aRes: real, gRes: real,
                         accel: seq<real>, gyro: seq<real>): (s: Sample<real>)
    requires aRes != 0.0 && gRes != 0.0
    ensures !DataReady(bus, dev, n) ==> s == Sample(Ok, accel, gyro, n + 1)
    ensures DataReady(bus, dev, n) ==> |s.accel| == 3 && |s.gyro| == 3 && s.next == n + 13
  {
    if DataReady(bus, dev, n) then
      var a := AxesRead(bus, dev, n + 1, ACCEL_XOUT_H_ADDR);
      var g := AxesRead(bus, dev, n + 7, GYRO_XOUT_H_ADDR);
      Sample(if a.0 == Ok && g.0 == Ok then Ok else Error, Scale(a.1, aRes), Scale(g.1, gRes), n + 13)
    else
      Sample(Ok, accel, gyro, n + 1)
  }

  // ---------------------------------------------------------------------------
  // Bias averaging (mpu9250.c:941-975)

  function AddAxes(s: seq<int>, v: seq<int>): (r: seq<int>)
    requires |s| == 3 && |v| == 3
    ensures |r| == 3
  {
    [s[0] + v[0], s[1] + v[1], s[2] + v[2]]
  }

  predicate AllInt16(v: seq<int>) { forall i :: 0 <= i < |v| ==> IsInt16(v[i]) }

  /** The sampling loop's data: the two reused read buffers, the two
      accumulators and the number of the next transaction. Each iteration
      calls mpu9250_readData_int16 on the same two buffers and adds them
      only if it returned OK. The loop's status is BiasStatus below. */
  datatype BiasState = BiasState(accel: seq<int>, gyro: seq<int>,
                                 accelSum: seq<int>, gyroSum: seq<int>, next: nat)

  predicate BiasShape(b: BiasState)
  {
    |b.accel| == 3 && |b.gyro| == 3 && |b.accelSum| == 3 && |b.gyroSum| == 3
  }

  function BiasStep(bus: Bus, dev: byte, b: BiasState): (r: BiasState)
    requires BiasShape(b)
    ensures BiasShape(r)
    ensures AllInt16(b.accel) && AllInt16(b.gyro) ==> AllInt16(r.accel) && AllInt16(r.gyro)
  {
    var s := DataReadInt16(bus, dev, b.next, b.accel, b.gyro);
    if s.status == Ok then
      BiasState(s.accel, s.gyro, AddAxes(b.accelSum, s.accel), AddAxes(b.gyroSum, s.gyro), s.next)
    else
      BiasState(s.accel, s.gyro, b.accelSum, b.gyroSum, s.next)
  }

  function BiasStart(n: nat): (b: BiasState)
    ensures BiasShape(b)
  {
    BiasState([0, 0, 0], [0, 0, 0], [0, 0, 0], [0, 0, 0], n)
  }

  /** The state after the first k iterations, starting at transaction n with
      zeroed buffers and sums. */
  function BiasAfter(bus: Bus, dev: byte, n: nat, k: nat): (b: BiasState)
    ensures BiasShape(b)
  {
    if k == 0 then BiasStart(n) else BiasStep(bus, dev, BiasAfter(bus, dev, n, k - 1))
  }

  /** Every buffer value is an int16, and each sum adds at most one buffer per
      iteration done. */
  predicate BiasBounded(b: BiasState, done: nat)
  {
    BiasShape(b) && AllInt16(b.accel) && AllInt16(b.gyro)
    && (forall i :: 0 <= i < 3 ==> -32768 * done <= b.accelSum[i] <= 32767 * done)
    && (forall i :: 0 <= i < 3 ==> -32768 * done <= b.gyroSum[i] <= 32767 * done)
  }

  lemma BiasStepBounded(bus: Bus, dev: byte, b: BiasState, done: nat)
    requires BiasBounded(b, done)
    ensures BiasBounded(BiasStep(bus, dev, b), done + 1)
  {
    var s := DataReadInt16(bus, dev, b.next, b.accel, b.gyro);
    var r := BiasStep(bus, dev, b);
    assert AllInt16(s.accel) && AllInt16(s.gyro);
    forall i | 0 <= i < 3
      ensures -32768 * (done + 1) <= r.accelSum[i] <= 32767 * (done + 1)
      ensures -32768 * (done + 1) <= r.gyroSum[i] <= 32767 * (done + 1)
    {
      assert IsInt16(s.accel[i]) && IsInt16(s.gyro[i]);
    }
  }

  lemma {:induction false} BiasAfterBounded(bus: Bus, dev: byte, n: nat, k: nat)
    ensures BiasBounded(BiasAfter(bus, dev, n, k), k)
  {
    if k > 0 {
      BiasAfterBounded(bus, dev, n, k - 1);
      BiasStepBounded(bus, dev, BiasAfter(bus, dev, n, k - 1), k - 1);
    }
  }

  /** An average of at most `samples` int16 values over `samples` fits an
      int16, so the (int16_t) cast of the bias is exact. */
  lemma AverageFitsInt16(sum: int, samples: nat)
    requires samples > 0
    requires -32768 * samples <= sum <= 32767 * samples
    ensures IsInt16(CDiv(sum, samples))
  {
    CDivTruncates(sum, samples);
    var q := CDiv(sum, samples);
    if sum >= 0 {
      MulCancel(q, 32767, samples);
    } else {
      MulCancel(-32768, q, samples);
    }
  }

  lemma MulCancel(p: int, q: int, s: int)
    requires s > 0 && p * s <= q * s
    ensures p <= q
  {
  }

  /** The transaction at which iteration k of the bias loop begins. */
  function BiasPos(bus: Bus, dev: byte, n: nat, k: nat): nat
  {
    if k == 0 then n else DataReadNext(bus, dev, BiasPos(bus, dev, n, k - 1))
  }

  /** The transactions of the first k iterations of the bias loop. */
  function BiasOps(bus: Bus, dev: byte, n: nat, k: nat): (t: seq<Transaction>)
  {
    if k == 0 then [] else BiasOps(bus, dev, n, k - 1) + DataReadOps(bus, dev, BiasPos(bus, dev, n, k - 1))
  }

  /** The bias loop only reads, and its transcript ends where iteration k
      begins. */
  lemma {:induction false} BiasOnlyReads(bus: Bus, dev: byte, n: nat, k: nat)
    ensures var t := BiasOps(bus, dev, n, k);
            n + |t| == BiasPos(bus, dev, n, k) && OnlyReads(t, dev)
  {
    if k > 0 {
      var t, u := BiasOps(bus, dev, n, k - 1), DataReadOps(bus, dev, BiasPos(bus, dev, n, k - 1));
      BiasOnlyReads(bus, dev, n, k - 1);
      DataReadOnlyReads(bus, dev, BiasPos(bus, dev, n, k - 1));
      assert forall i :: 0 <= i < |u| ==> (t + u)[|t| + i] == u[i];
    }
  }

  /** Whether the read of iteration j (counting from 0) failed. */
  predicate ReadFails(bus: Bus, dev: byte, n: nat, j: nat)
  {
    DataReadStatus(bus, dev, BiasPos(bus, dev, n, j)) == Error
  }

  /** The status alone: OK until the first failed read, ERROR from then on. */
  function BiasStatus(bus: Bus, dev: byte, n: nat, k: nat): Status
  {
    if k == 0 then Ok
    else if ReadFails(bus, dev, n, k - 1) then Error
    else BiasStatus(bus, dev, n, k - 1)
  }

  /** The loop's position recursion agrees with the full state. */
  lemma {:induction false} BiasAfterPos(bus: Bus, dev: byte, n: nat, k: nat)
    ensures BiasAfter(bus, dev, n, k).next == BiasPos(bus, dev, n, k)
  {
    if k > 0 {
      var b := BiasAfter(bus, dev, n, k - 1);
      BiasAfterPos(bus, dev, n, k - 1);
      DataReadSplits(bus, dev, b.next, b.accel, b.gyro);
    }
  }

  /** The bias status after k iterations is ERROR exactly when one of their
      reads failed. */
  lemma {:induction false} BiasErrorIffSomeReadFails(bus: Bus, dev: byte, n: nat, k: nat)
    ensures BiasStatus(bus, dev, n, k) == Error <==> exists j :: 0 <= j < k && ReadFails(bus, dev, n, j)
  {
    if k > 0 {
      BiasErrorIffSomeReadFails(bus, dev, n, k - 1);
      if BiasStatus(bus, dev, n, k) == Error && !ReadFails(bus, dev, n, k - 1) {
        var j :| 0 <= j < k - 1 && ReadFails(bus, dev, n, j);
      }
    }
  }

  /** The bias the driver returns is the exact truncated average: the
      32-bit sums cannot leave the range where the int16 cast is the
      identity. */
  lemma BiasAverageExact(bus: Bus, dev: byte, n: nat, samples: nat)
    requires samples > 0
    ensures var b := BiasAfter(bus, dev, n, samples);
            forall i :: 0 <= i < 3 ==>
              Wrap16(CDiv(b.accelSum[i], samples)) == CDiv(b.accelSum[i], samples)
              && Wrap16(CDiv(b.gyroSum[i], samples)) == CDiv(b.gyroSum[i], samples)
  {
    var b := BiasAfter(bus, dev, n, samples);
    BiasAfterBounded(bus, dev, n, samples);
    forall i | 0 <= i < 3
      ensures IsInt16(CDiv(b.accelSum[i], samples)) && IsInt16(CDiv(b.gyroSum[i], samples))
    {
      AverageFitsInt16(b.accelSum[i], samples);
      AverageFitsInt16(b.gyroSum[i], samples);
    }
  }

  /** The two transactions of one read-modify-write begun at position `at`:
      the read, then the write of the updated byte that came back. */
  function RmwOps(bus: Bus, at: nat, dev: byte, reg: byte, u: RegUpdate): (t: seq<Transaction>)
    ensures |t| == 2
  {
    [ReadOp(dev, reg), WriteOp(dev, reg, Apply(u, bus(at, ReadOp(dev, reg)).data))]
  }

  /** Both transactions of a read-modify-write were acknowledged. */
  predicate RmwAcked(bus: Bus, at: nat, dev: byte, reg: byte, u: RegUpdate)
  {
    var t := RmwOps(bus, at, dev, reg, u);
    bus(at, t[0]).ack && bus(at + 1, t[1]).ack
  }

  /** The eight transactions of a successful mpu9250_init after the reset,
      begun at position `at`: 0x01 into the power-management register, the gyro low-pass
      setting, then read-modify-write the gyro scale, the accel scale and the
      accel low-pass setting. */
  function InitTail(bus: Bus, at: nat, dev: byte, cfg: InitConfig): (t: seq<Transaction>)
    ensures |t| == 8
  {
    [WriteOp(dev, PWR_MGMT1_ADDR, 0x01), WriteOp(dev, CONFIG_ADDR, ToByte(cfg.gyroLpf))]
    + RmwOps(bus, at + 2, dev, GYRO_CONFIG_ADDR, GyroScale(cfg.gyroScale))
    + RmwOps(bus, at + 4, dev, ACCEL_CONFIG_ADDR, AccelScale(cfg.accelScale))
    + RmwOps(bus, at + 6, dev, ACCEL_CONFIG2_ADDR, AccelLpf(cfg.accelLpf))
  }

  /** Every transaction of the init transcript was acknowledged. */
  predicate InitAcked(bus: Bus, at: nat, dev: byte, cfg: InitConfig)
  {
    && bus(at, WriteOp(dev, PWR_MGMT1_ADDR, 0x01)).ack
    && bus(at + 1, WriteOp(dev, CONFIG_ADDR, ToByte(cfg.gyroLpf))).ack
    && RmwAcked(bus, at + 2, dev, GYRO_CONFIG_ADDR, GyroScale(cfg.gyroScale))
    && RmwAcked(bus, at + 4, dev, ACCEL_CONFIG_ADDR, AccelScale(cfg.accelScale))
    && RmwAcked(bus, at + 6, dev, ACCEL_CONFIG2_ADDR, AccelLpf(cfg.accelLpf))
  }

  /** The two writes of mpu9250_reset: the reset bit, then 0 into the
      power-management register. */
  function ResetOps(dev: byte): seq<Transaction>
  {
    [WriteOp(dev, PWR_MGMT1_ADDR, CMD_RESET), WriteOp(dev, PWR_MGMT1_ADDR, 0x00)]
  }

  /** The probes of mpu9250_isReady begun at position `at`: the primary
      address, and the alternate one only when the primary did not answer. */
  function ProbeOps(bus: Bus, at: nat): (t: seq<Transaction>)
    ensures 1 <= |t| <= 2 && t[0] == Probe(ADDR)
  {
    if bus(at, Probe(ADDR)).ack then [Probe(ADDR)] else [Probe(ADDR), Probe(ADDR_ALT)]
  }

  /** One of the two probes was answered. */
  predicate ProbeFound(bus: Bus, at: nat)
  {
    bus(at, Probe(ADDR)).ack || bus(at + 1, Probe(ADDR_ALT)).ack
  }

  /** The device address after the probes: the first that answered, or the
      previous address when neither did. */
  function ProbeAddr(bus: Bus, at: nat, prev: byte): (a: byte)
    ensures ProbeFound(bus, at) ==> a == ADDR || a == ADDR_ALT
    ensures !ProbeFound(bus, at) ==> a == prev
  {
    if bus(at, Probe(ADDR)).ack then ADDR else if bus(at + 1, Probe(ADDR_ALT)).ack then ADDR_ALT else prev
  }

  /** The transactions one read-modify-write issues: the read, and the write
      only when the read was acknowledged. */
  function RmwIssued(bus: Bus, at: nat, dev: byte, reg: byte, u: RegUpdate): (t: seq<Transaction>)
    ensures 1 <= |t| <= 2
  {
    if bus(at, ReadOp(dev, reg)).ack then RmwOps(bus, at, dev, reg, u) else [ReadOp(dev, reg)]
  }

  /** The transactions the register programming of mpu9250_init issues from
      position `at`: it returns right after the first one that is not
      acknowledged. */
  function InitIssued(bus: Bus, at: nat, dev: byte, cfg: InitConfig): (t: seq<Transaction>)
  {
    var w1, w2 := [WriteOp(dev, PWR_MGMT1_ADDR, 0x01)], [WriteOp(dev, CONFIG_ADDR, ToByte(cfg.gyroLpf))];
    var g, a, l := GyroScale(cfg.gyroScale), AccelScale(cfg.accelScale), AccelLpf(cfg.accelLpf);
    if !bus(at, w1[0]).ack then w1
    else if !bus(at + 1, w2[0]).ack then w1 + w2
    else if !RmwAcked(bus, at + 2, dev, GYRO_CONFIG_ADDR, g) then w1 + w2 + RmwIssued(bus, at + 2, dev, GYRO_CONFIG_ADDR, g)
    else if !RmwAcked(bus, at + 4, dev, ACCEL_CONFIG_ADDR, a) then
      w1 + w2 + RmwOps(bus, at + 2, dev, GYRO_CONFIG_ADDR, g) + RmwIssued(bus, at + 4, dev, ACCEL_CONFIG_ADDR, a)
    else
      w1 + w2 + RmwOps(bus, at + 2, dev, GYRO_CONFIG_ADDR, g) + RmwOps(bus, at + 4, dev, ACCEL_CONFIG_ADDR, a)
      + RmwIssued(bus, at + 6, dev, ACCEL_CONFIG2_ADDR, l)
  }

  /** Regrouping a concatenation, for the traces of calls made one after
      another. */
  lemma AppendAssoc<T>(a: seq<T>, b: seq<T>, c: seq<T>)
    ensures (a + b) + c == a + (b + c)
  {
  }

  /** Everything mpu9250_init issues from transaction n: the probe, and when
      it found the device, the two reset writes and the programming up to
      its first refused transaction. */
  function InitOps(bus: Bus, n: nat, cfg: InitConfig): (t: seq<Transaction>)
  {
    var m := n + |ProbeOps(bus, n)| + 2;
    if ProbeFound(bus, n) then ProbeOps(bus, n) + ResetOps(ProbeAddr(bus, n, 0)) + InitIssued(bus, m, ProbeAddr(bus, n, 0), cfg)
    else ProbeOps(bus, n)
  }

  /** Once the probe issued after `p` has found the device at `a`, a
      transcript of the reset and the programming at `a` completes InitOps,
      and the programming's outcome is the init's. */
  lemma InitOpsFound(bus: Bus, p: seq<Transaction>, cfg: InitConfig, a: byte, t: seq<Transaction>, ok: bool)
    requires ProbeFound(bus, |p|) && a == ProbeAddr(bus, |p|, 0)
    requires var q := p + ProbeOps(bus, |p|);
             t == q + ResetOps(a) + InitIssued(bus, |q| + 2, a, cfg) && (ok <==> InitAcked(bus, |q| + 2, a, cfg))
    ensures t == p + InitOps(bus, |p|, cfg) && (ok <==> InitSucceeds(bus, |p|, cfg))
  {
    var pr := ProbeOps(bus, |p|);
    var tail := InitIssued(bus, |p| + |pr| + 2, a, cfg);
    AppendAssoc(p, pr, ResetOps(a));
    AppendAssoc(p, pr + ResetOps(a), tail);
  }

  /** mpu9250_init succeeds: the probe found the device and the programming
      was acknowledged throughout. */
  predicate InitSucceeds(bus: Bus, n: nat, cfg: InitConfig)
  {
    ProbeFound(bus, n) && InitAcked(bus, n + |ProbeOps(bus, n)| + 2, ProbeAddr(bus, n, 0), cfg)
  }

  /** The device address after mpu9250_readID begun at transaction n with
      address `prev`: a probe runs only when no address is known. */
  function IdAddr(bus: Bus, n: nat, prev: byte): byte
  {
    if prev == 0 then ProbeAddr(bus, n, 0) else prev
  }

  /** The transactions of mpu9250_readID: the probe when no address is
      known, then the WHO_AM_I read at the resulting address. */
  function IdOps(bus: Bus, n: nat, prev: byte): (t: seq<Transaction>)
    ensures 0 < |t| && t[|t| - 1] == ReadOp(IdAddr(bus, n, prev), WHO_AM_I_ADDR)
  {
    (if prev == 0 then ProbeOps(bus, n) else []) + [ReadOp(IdAddr(bus, n, prev), WHO_AM_I_ADDR)]
  }

  /** The byte mpu9250_readID returns: WHO_AM_I's content, or 0 when the
      read was refused. */
  function IdValue(bus: Bus, n: nat, prev: byte): byte
  {
    var t := IdOps(bus, n, prev);
    var r := bus(n + |t| - 1, t[|t| - 1]);
    if r.ack then r.data else 0
  }

  /** The issued transactions are the first `k` of the init transcript:
      all acknowledged but the last, which fails exactly when the init
      fails; the whole transcript is issued when it succeeds. */
  lemma InitIssuedLength(bus: Bus, at: nat, dev: byte, cfg: InitConfig) returns (k: nat)
    ensures var t := InitTail(bus, at, dev, cfg);
            1 <= k <= 8 && InitIssued(bus, at, dev, cfg) == t[..k]
            && (forall i :: 0 <= i < k - 1 ==> bus(at + i, t[i]).ack)
            && (InitAcked(bus, at, dev, cfg) <==> bus(at + k - 1, t[k - 1]).ack)
            && (InitAcked(bus, at, dev, cfg) ==> k == 8)
  {
    var t, x := InitTail(bus, at, dev, cfg), InitIssued(bus, at, dev, cfg);
    var g := RmwOps(bus, at + 2, dev, GYRO_CONFIG_ADDR, GyroScale(cfg.gyroScale));
    var a := RmwOps(bus, at + 4, dev, ACCEL_CONFIG_ADDR, AccelScale(cfg.accelScale));
    var l := RmwOps(bus, at + 6, dev, ACCEL_CONFIG2_ADDR, AccelLpf(cfg.accelLpf));
    assert t == [t[0], t[1], g[0], g[1], a[0], a[1], l[0], l[1]];
    k := if !bus(at, t[0]).ack then 1
      else if !bus(at + 1, t[1]).ack then 2
      else if !bus(at + 2, g[0]).ack then 3
      else if !bus(at + 3, g[1]).ack then 4
      else if !bus(at + 4, a[0]).ack then 5
      else if !bus(at + 5, a[1]).ack then 6
      else if !bus(at + 6, l[0]).ack then 7
      else 8;
    assert x == t[..k];
  }

  /** The closing loop of mpu9250_getBias_int16: each sum over `samples`
      with C's truncating division, cast to int16. */
  method StoreAverages(accelSum: seq<int>, gyroSum: seq<int>, samples: nat, pAccel: array<int>, pGyro: array<int>)
    requires |accelSum| == 3 && |gyroSum| == 3 && samples > 0
    requires pAccel.Length >= 3 && pGyro.Length >= 3 && pAccel != pGyro
    modifies pAccel, pGyro
    ensures forall i :: 0 <= i < 3 ==> pAccel[i] == Wrap16(CDiv(accelSum[i], samples))
    ensures forall i :: 0 <= i < 3 ==> pGyro[i] == Wrap16(CDiv(gyroSum[i], samples))
    ensures pAccel[3..] == old(pAccel[3..]) && pGyro[3..] == old(pGyro[3..])
  {
    var i := 0;
    while i < 3
      invariant 0 <= i <= 3
      invariant forall j :: 0 <= j < i ==> pAccel[j] == Wrap16(CDiv(accelSum[j], samples))
      invariant forall j :: 0 <= j < i ==> pGyro[j] == Wrap16(CDiv(gyroSum[j], samples))
      invariant pAccel[3..] == old(pAccel[3..]) && pGyro[3..] == old(pGyro[3..])
    {
      pAccel[i] := Wrap16(CDiv(accelSum[i], samples));
      pGyro[i] := Wrap16(CDiv(gyroSum[i], samples));
      i := i + 1;
    }
  }

  /** The decoding loop of the int16 axis reads: axis i from the big-endian
      byte pair at 2i. */
  method DecodeInto(raw: array<byte>, out: array<int>)
    requires raw.Length == 6 && out.Length == 3
    modifies out
    ensures out[..] == DecodeAxes(raw[..])
  {
    var i := 0;
    while i < 3
      invariant 0 <= i <= 3
      invariant forall j :: 0 <= j < i ==> out[j] == DecodeInt16(raw[2 * j], raw[2 * j + 1])
    {
      out[i] := DecodeInt16(raw[2 * i], raw[2 * i + 1]);
      i := i + 1;
    }
  }

  // ---------------------------------------------------------------------------
  // The driver

  class Driver {
    const bus: Bus
    var trace: seq<Transaction>
    var mpuAddr: byte
    var gResolution: real
    var aResolution: int

    ghost predicate Valid()
      reads this
    {
      IsGyroResolution(gResolution) && IsAccelResolution(aResolution)
    }

    /** The driver's globals start at zero and no transaction has happened. */
    constructor (bus: Bus)
      ensures Valid() && this.bus == bus && trace == []
      ensures mpuAddr == 0 && gResolution == 0.0 && aResolution == 0
    {
      this.bus := bus;
      trace := [];
      mpuAddr := 0;
      gResolution := 0.0;
      aResolution := 0;
    }

    /** One bus transaction: the reply is the oracle's answer for the
        transaction's number. */
    method Transact(t: Transaction) returns (r: Reply)
      modifies this`trace
      ensures trace == old(trace) + [t]
      ensures r == bus(|old(trace)|, t)
    {
      r := bus(|trace|, t);
      trace := trace + [t];
    }

    /** mpu9250_writeReg */
    method WriteReg(reg: byte, data: byte) returns (s: Status)
      modifies this`trace
      ensures trace == old(trace) + [WriteOp(mpuAddr, reg, data)]
      ensures s == if bus(|old(trace)|, WriteOp(mpuAddr, reg, data)).ack then Ok else Error
    {
      var r := Transact(WriteOp(mpuAddr, reg, data));
      s := if r.ack then Ok else Error;
    }

    /** mpu9250_readReg: the destination byte is written only when the read
        completes, so `prior` is what it held before. */
    method ReadReg(reg: byte, prior: byte) returns (s: Status, value: byte)
      modifies this`trace
      ensures trace == old(trace) + [ReadOp(mpuAddr, reg)]
      ensures var r := bus(|old(trace)|, ReadOp(mpuAddr, reg));
              s == (if r.ack then Ok else Error) && value == (if r.ack then r.data else prior)
    {
      var r := Transact(ReadOp(mpuAddr, reg));
      s := if r.ack then Ok else Error;
      value := if r.ack then r.data else prior;
    }

    /** mpu9250_isReady: probe the primary address, then the alternate one;
        the first that answers becomes the device address. */
    method IsReady() returns (s: Status)
      modifies this`trace, this`mpuAddr
      ensures var n := |old(trace)|;
              trace == old(trace) + ProbeOps(bus, n)
              && (s == Ok <==> ProbeFound(bus, n))
              && mpuAddr == ProbeAddr(bus, n, old(mpuAddr))
    {
      s := Error;
      var r := Transact(Probe(ADDR));
      if r.ack {
        mpuAddr := ADDR;
        s := Ok;
      } else {
        r := Transact(Probe(ADDR + 1));
        if r.ack {
          mpuAddr := ADDR_ALT;
          s := Ok;
        }
      }
    }

    /** mpu9250_readBytes: `count` single reads of consecutive registers into
        consecutive slots. */
    method ReadBytes(reg: byte, buf: array<byte>, count: nat) returns (s: Status)
      requires count < 256 && count <= buf.Length
      modifies this`trace, buf
      ensures trace == old(trace) + BurstOps(mpuAddr, reg, count)
      ensures s == BurstStatus(bus, mpuAddr, |old(trace)|, reg, count)
      ensures buf[..] == BurstData(bus, mpuAddr, |old(trace)|, reg, count, old(buf[..]))
    {
      ghost var n := |trace|;
      ghost var prior := buf[..];
      s := Error;
      var i := 0;
      while i < count
        invariant 0 <= i <= count
        invariant trace == old(trace) + BurstOps(mpuAddr, reg, i)
        invariant s == BurstStatus(bus, mpuAddr, n, reg, i)
        invariant buf[..] == BurstData(bus, mpuAddr, n, reg, i, prior)
      {
        var r, v := ReadReg(RegAt(reg, i), buf[i]);
        buf[i] := v;
        if r == Ok {
          s := Ok;
        }
        assert BurstOps(mpuAddr, reg, i + 1) == BurstOps(mpuAddr, reg, i) + [ReadOp(mpuAddr, RegAt(reg, i))];
        i := i + 1;
      }
    }

    /** mpu9250_getStatus */
    method GetStatus() returns (s: Status)
      modifies this`trace
      ensures trace == old(trace) + [ReadOp(mpuAddr, INT_STATUS_ADDR)]
      ensures s == if DataReady(bus, mpuAddr, |old(trace)|) then Ok else Error
    {
      var r, v := ReadReg(INT_STATUS_ADDR, 0);
      s := if v % 2 == 1 then Ok else Error;
    }

    /** mpu9250_readAccelData_int16 and mpu9250_readGyroData_int16, which
        differ only in the first register. */
    method ReadAxesInt16(reg: byte, out: array<int>) returns (s: Status)
      requires out.Length == 3
      modifies this`trace, out
      ensures trace == old(trace) + BurstOps(mpuAddr, reg, 6)
      ensures var a := AxesRead(bus, mpuAddr, |old(trace)|, reg);
              s == a.0 && out[..] == a.1
    {
      ghost var n := |trace|;
      var raw := new byte[6](_ => 0);
      assert raw[..] == ZeroRaw;
      s := ReadBytes(reg, raw, 6);
      DecodeInto(raw, out);
    }

    /** mpu9250_readTemperature_int16: the raw temperature word. */
    method ReadTemperatureInt16() returns (s: Status, t: int)
      modifies this`trace
      ensures trace == old(trace) + BurstOps(mpuAddr, TEMP_H_ADDR, 2)
      ensures s == BurstStatus(bus, mpuAddr, |old(trace)|, TEMP_H_ADDR, 2)
      ensures var raw := BurstData(bus, mpuAddr, |old(trace)|, TEMP_H_ADDR, 2, [0, 0]);
              t == DecodeInt16(raw[0], raw[1])
    {
      var raw := new byte[2](_ => 0);
      assert raw[..] == [0, 0];
      s := ReadBytes(TEMP_H_ADDR, raw, 2);
      t := DecodeInt16(raw[0], raw[1]);
    }

    /** mpu9250_readData_int16: when the data-ready bit is clear the call
        reports OK and leaves both buffers as they were. */
    method ReadDataInt16(accel: array<int>, gyro: array<int>) returns (s: Status)
      requires accel.Length == 3 && gyro.Length == 3 && accel != gyro
      modifies this`trace, accel, gyro
      ensures var d := DataReadInt16(bus, mpuAddr, |old(trace)|, old(accel[..]), old(gyro[..]));
              s == d.status && accel[..] == d.accel && gyro[..] == d.gyro && |trace| == d.next
      ensures trace == old(trace) + DataReadOps(bus, mpuAddr, |old(trace)|)
    {
      ghost var n, t0 := |trace|, trace;
      s := Ok;
      var ready := GetStatus();
      if ready == Ok {
        var sa := ReadAxesInt16(ACCEL_XOUT_H_ADDR, accel);
        if sa != Ok {
          s := Error;
        }
        var sg := ReadAxesInt16(GYRO_XOUT_H_ADDR, gyro);
        if sg != Ok {
          s := Error;
        }
        ghost var st, ba, bg := [ReadOp(mpuAddr, INT_STATUS_ADDR)], BurstOps(mpuAddr, ACCEL_XOUT_H_ADDR, 6), BurstOps(mpuAddr, GYRO_XOUT_H_ADDR, 6);
        assert trace == t0 + st + ba + bg;
        AppendAssoc(t0 + st, ba, bg);
        AppendAssoc(t0, st, ba + bg);
      }
    }

    /** mpu9250_read{Accel,Gyro}Data_float: the int16 axes over a resolution. */
    method ReadAxesFloat(reg: byte, out: array<real>, res: real) returns (s: Status)
      requires out.Length == 3 && res != 0.0
      modifies this`trace, out
      ensures trace == old(trace) + BurstOps(mpuAddr, reg, 6)
      ensures var a := AxesRead(bus, mpuAddr, |old(trace)|, reg);
              s == a.0 && out[..] == Scale(a.1, res)
    {
      var raw := new int[3](_ => 0);
      s := ReadAxesInt16(reg, raw);
      ghost var axes := raw[..];
      var i := 0;
      while i < 3
        invariant 0 <= i <= 3
        invariant raw[..] == axes && trace == old(trace) + BurstOps(mpuAddr, reg, 6)
        invariant forall j :: 0 <= j < i ==> out[j] == axes[j] as real / res
      {
        out[i] := raw[i] as real / res;
        i := i + 1;
      }
      assert out[..] == Scale(axes, res);
    }

    /** mpu9250_readData_float. The division by an unset (zero) resolution
        is excluded: the model has no infinities. */
    method ReadDataFloat(accel: array<real>, gyro: array<real>) returns (s: Status)
      requires accel.Length == 3 && gyro.Length == 3 && accel != gyro
      requires aResolution != 0 && gResolution != 0.0
      modifies this`trace, accel, gyro
      ensures var d := DataReadFloat(bus, mpuAddr, |old(trace)|, aResolution as real, gResolution,
                                     old(accel[..]), old(gyro[..]));
              s == d.status && accel[..] == d.accel && gyro[..] == d.gyro && |trace| == d.next
      ensures old(trace) <= trace
      ensures trace == old(trace) + DataReadOps(bus, mpuAddr, |old(trace)|)
    {
      ghost var n, t0 := |trace|, trace;
      s := Ok;
      var ready := GetStatus();
      if ready == Ok {
        var sa := ReadAxesFloat(ACCEL_XOUT_H_ADDR, accel, aResolution as real);
        if sa != Ok {
          s := Error;
        }
        var sg := ReadAxesFloat(GYRO_XOUT_H_ADDR, gyro, gResolution);
        if sg != Ok {
          s := Error;
        }
        ghost var st, ba, bg := [ReadOp(mpuAddr, INT_STATUS_ADDR)], BurstOps(mpuAddr, ACCEL_XOUT_H_ADDR, 6), BurstOps(mpuAddr, GYRO_XOUT_H_ADDR, 6);
        assert trace == t0 + st + ba + bg;
        AppendAssoc(t0 + st, ba, bg);
        AppendAssoc(t0, st, ba + bg);
      }
    }

    /** One iteration of the sampling loop of mpu9250_getBias_int16: a data
        read into the two buffers, added to the sums only when it reported
        OK; a failed read turns the status to ERROR. */
    method SampleStep(s: Status, accelData: array<int>, gyroData: array<int>, accelTmp: seq<int>, gyroTmp: seq<int>)
      returns (s': Status, accelTmp': seq<int>, gyroTmp': seq<int>)
      requires accelData.Length == 3 && gyroData.Length == 3 && accelData != gyroData
      requires |accelTmp| == 3 && |gyroTmp| == 3
      modifies this`trace, accelData, gyroData
      ensures BiasState(accelData[..], gyroData[..], accelTmp', gyroTmp', |trace|)
              == BiasStep(bus, mpuAddr, BiasState(old(accelData[..]), old(gyroData[..]), accelTmp, gyroTmp, |old(trace)|))
      ensures |trace| == DataReadNext(bus, mpuAddr, |old(trace)|)
      ensures trace == old(trace) + DataReadOps(bus, mpuAddr, |old(trace)|)
      ensures s' == if DataReadStatus(bus, mpuAddr, |old(trace)|) == Error then Error else s
    {
      DataReadSplits(bus, mpuAddr, |trace|, accelData[..], gyroData[..]);
      var r := ReadDataInt16(accelData, gyroData);
      if r == Ok {
        s', accelTmp', gyroTmp' := s, AddAxes(accelTmp, accelData[..]), AddAxes(gyroTmp, gyroData[..]);
      } else {
        s', accelTmp', gyroTmp' := Error, accelTmp, gyroTmp;
      }
    }

    /** The sampling loop of mpu9250_getBias_int16: `samples` iterations
        from zeroed buffers and sums. */
    method SampleSums(samples: nat) returns (s: Status, accelTmp: seq<int>, gyroTmp: seq<int>)
      requires samples < 256
      modifies this`trace
      ensures var n := |old(trace)|;
              var b := BiasAfter(bus, mpuAddr, n, samples);
              s == BiasStatus(bus, mpuAddr, n, samples) && |trace| == BiasPos(bus, mpuAddr, n, samples)
              && accelTmp == b.accelSum && gyroTmp == b.gyroSum
      ensures trace == old(trace) + BiasOps(bus, mpuAddr, |old(trace)|, samples)
    {
      ghost var n := |trace|;
      var accelData := new int[3](_ => 0);
      var gyroData := new int[3](_ => 0);
      accelTmp := [0, 0, 0];
      gyroTmp := [0, 0, 0];
      s := Ok;
      var i := 0;
      while i < samples
        invariant 0 <= i <= samples
        invariant BiasState(accelData[..], gyroData[..], accelTmp, gyroTmp, |trace|) == BiasAfter(bus, mpuAddr, n, i)
        invariant |trace| == BiasPos(bus, mpuAddr, n, i)
        invariant s == BiasStatus(bus, mpuAddr, n, i)
        invariant trace == old(trace) + BiasOps(bus, mpuAddr, n, i)
      {
        ghost var d := BiasOps(bus, mpuAddr, n, i);
        s, accelTmp, gyroTmp := SampleStep(s, accelData, gyroData, accelTmp, gyroTmp);
        AppendAssoc(old(trace), d, DataReadOps(bus, mpuAddr, BiasPos(bus, mpuAddr, n, i)));
        i := i + 1;
      }
    }

    /** mpu9250_getBias_int16: the sums of `samples` data reads averaged
        with C's truncating division. */
    method GetBiasInt16(samples: nat, pAccel: array<int>, pGyro: array<int>) returns (s: Status)
      requires 0 < samples < 256
      requires pAccel.Length >= 3 && pGyro.Length >= 3 && pAccel != pGyro
      modifies this`trace, pAccel, pGyro
      ensures var n := |old(trace)|;
              var b := BiasAfter(bus, mpuAddr, n, samples);
              s == BiasStatus(bus, mpuAddr, n, samples) && |trace| == BiasPos(bus, mpuAddr, n, samples)
              && (forall i :: 0 <= i < 3 ==> pAccel[i] == Wrap16(CDiv(b.accelSum[i], samples)))
              && (forall i :: 0 <= i < 3 ==> pGyro[i] == Wrap16(CDiv(b.gyroSum[i], samples)))
      ensures trace == old(trace) + BiasOps(bus, mpuAddr, |old(trace)|, samples)
      ensures pAccel[3..] == old(pAccel[3..]) && pGyro[3..] == old(pGyro[3..])
    {
      var accelTmp, gyroTmp;
      s, accelTmp, gyroTmp := SampleSums(samples);
      StoreAverages(accelTmp, gyroTmp, samples, pAccel, pGyro);
    }

    /** mpu9250_getResolution_int16 */
    method GetResolutionInt16(res: array<int>) returns (s: Status)
      requires Valid() && res.Length >= 2
      modifies res
      ensures s == Ok
      ensures res[0] == aResolution
      ensures res[1] as real <= gResolution < res[1] as real + 1.0
      ensures res[2..] == old(res[2..])
    {
      res[0] := Wrap16(aResolution);
      res[1] := Wrap16(Trunc(gResolution));
      s := Ok;
    }

    /** mpu9250_getResolution_float: writes slots 1 and 2, so the caller's
        buffer needs three slots and slot 0 keeps its content. */
    method GetResolutionFloat(res: array<real>) returns (s: Status)
      requires res.Length >= 3
      modifies res
      ensures s == Ok
      ensures res[0] == old(res[0])
      ensures res[1] == aResolution as real && res[2] == gResolution
      ensures res[3..] == old(res[3..])
    {
      res[1] := aResolution as real;
      res[2] := gResolution;
      s := Ok;
    }

    /** mpu9250_readID: probes for the device first if no address is known;
        a failed read returns 0. */
    method ReadID() returns (id: byte)
      modifies this`trace, this`mpuAddr
      ensures old(mpuAddr) != 0 ==> mpuAddr == old(mpuAddr) && |trace| == |old(trace)| + 1
      ensures old(mpuAddr) == 0 ==>
                var n := |old(trace)|;
                mpuAddr == ProbeAddr(bus, n, 0) && |trace| == n + |ProbeOps(bus, n)| + 1
                && trace[..|trace| - 1] == old(trace) + ProbeOps(bus, n)
      ensures var n := |old(trace)|;
              trace == old(trace) + IdOps(bus, n, old(mpuAddr)) && mpuAddr == IdAddr(bus, n, old(mpuAddr))
              && id == IdValue(bus, n, old(mpuAddr))
      ensures old(trace) < trace && trace[|trace| - 1] == ReadOp(mpuAddr, WHO_AM_I_ADDR)
      ensures var r := bus(|trace| - 1, ReadOp(mpuAddr, WHO_AM_I_ADDR));
              id == if r.ack then r.data else 0
    {
      if mpuAddr == 0 {
        var _ := IsReady();
      }
      var s;
      s, id := ReadReg(WHO_AM_I_ADDR, 0);
    }

    /** mpu9250_reset: the status is OK only when one of the two writes
        fails. */
    method Reset() returns (s: Status)
      modifies this`trace
      ensures trace == old(trace) + ResetOps(mpuAddr)
      ensures var n := |old(trace)|;
              s == Ok <==> !bus(n, trace[n]).ack || !bus(n + 1, trace[n + 1]).ack
    {
      s := Error;
      var w := WriteReg(PWR_MGMT1_ADDR, CMD_RESET);
      if w != Ok {
        s := Ok;
      }
      w := WriteReg(PWR_MGMT1_ADDR, 0x00);
      if w != Ok {
        s := Ok;
      }
    }

    /** One read-modify-write of init: if the read fails nothing is written;
        otherwise the updated byte is written back. */
    method ReadModifyWrite(reg: byte, u: RegUpdate) returns (s: Status)
      modifies this`trace
      ensures var n := |old(trace)|;
              s == Ok <==> RmwAcked(bus, n, mpuAddr, reg, u)
      ensures var n := |old(trace)|;
              trace == old(trace) + RmwIssued(bus, n, mpuAddr, reg, u)
    {
      var r, v := ReadReg(reg, 0);
      if r != Ok {
        return Error;
      }
      s := WriteReg(reg, Apply(u, v));
    }

    /** The register programming of mpu9250_init: stops at the first
        transaction that fails. */
    method Configure(cfg: InitConfig) returns (s: Status)
      modifies this`trace
      ensures trace == old(trace) + InitIssued(bus, |old(trace)|, mpuAddr, cfg)
      ensures s == Ok <==> InitAcked(bus, |old(trace)|, mpuAddr, cfg)
    {
      ghost var t0 := trace;
      var w := WriteReg(PWR_MGMT1_ADDR, 0x01);
      if w != Ok {
        return Error;
      }
      ghost var d := trace[|t0|..];
      assert trace == t0 + d;
      w := WriteReg(CONFIG_ADDR, ToByte(cfg.gyroLpf));
      AppendAssoc(t0, d, trace[|t0| + |d|..]);
      if w != Ok {
        return Error;
      }
      d := trace[|t0|..];
      w := ReadModifyWrite(GYRO_CONFIG_ADDR, GyroScale(cfg.gyroScale));
      AppendAssoc(t0, d, trace[|t0| + |d|..]);
      if w != Ok {
        return Error;
      }
      d := trace[|t0|..];
      w := ReadModifyWrite(ACCEL_CONFIG_ADDR, AccelScale(cfg.accelScale));
      AppendAssoc(t0, d, trace[|t0| + |d|..]);
      if w != Ok {
        return Error;
      }
      d := trace[|t0|..];
      w := ReadModifyWrite(ACCEL_CONFIG2_ADDR, AccelLpf(cfg.accelLpf));
      AppendAssoc(t0, d, trace[|t0| + |d|..]);
      if w != Ok {
        return Error;
      }
      s := Ok;
    }

    /** mpu9250_init: the device must answer a probe; the reset's status is
        ignored; then the register programming returns at the first
        transaction that fails. The status is OK exactly when the probe
        found the device and every transaction of the programming was
        acknowledged; the resolutions come from the tables on success and
        are kept on failure. */
    method Init(cfg: InitConfig) returns (s: Status)
      requires Valid()
      modifies this`trace, this`mpuAddr, this`gResolution, this`aResolution
      ensures Valid()
      ensures s == Ok ==> gResolution == GyroResolution(cfg.gyroScale) && aResolution == AccelResolution(cfg.accelScale)
      ensures s == Error ==> gResolution == old(gResolution) && aResolution == old(aResolution)
      ensures var n := |old(trace)|;
              mpuAddr == ProbeAddr(bus, n, old(mpuAddr))
              && (!ProbeFound(bus, n) ==> s == Error && trace == old(trace) + ProbeOps(bus, n))
      ensures var n := |old(trace)|;
              var m := n + |ProbeOps(bus, n)| + 2;
              ProbeFound(bus, n) ==>
                trace == old(trace) + ProbeOps(bus, n) + ResetOps(mpuAddr) + InitIssued(bus, m, mpuAddr, cfg)
                && (s == Ok <==> InitAcked(bus, m, mpuAddr, cfg))
      ensures var n := |old(trace)|;
              trace == old(trace) + InitOps(bus, n, cfg) && (s == Ok <==> InitSucceeds(bus, n, cfg))
    {
      ghost var n := |trace|;
      var ready := IsReady();
      if ready != Ok {
        assert InitOps(bus, n, cfg) == ProbeOps(bus, n);
        return Error;
      }
      s := ProbedInit(cfg, old(trace));
    }

    /** mpu9250_init once the probe, issued after `p`, has found the device:
        the transcript from the probe on is InitOps. */
    method ProbedInit(cfg: InitConfig, ghost p: seq<Transaction>) returns (s: Status)
      requires Valid() && trace == p + ProbeOps(bus, |p|)
      requires ProbeFound(bus, |p|) && mpuAddr == ProbeAddr(bus, |p|, 0)
      modifies this`trace, this`gResolution, this`aResolution
      ensures Valid()
      ensures s == Ok ==> gResolution == GyroResolution(cfg.gyroScale) && aResolution == AccelResolution(cfg.accelScale)
      ensures s == Error ==> gResolution == old(gResolution) && aResolution == old(aResolution)
      ensures var m := |old(trace)| + 2;
              trace == old(trace) + ResetOps(mpuAddr) + InitIssued(bus, m, mpuAddr, cfg)
              && (s == Ok <==> InitAcked(bus, m, mpuAddr, cfg))
      ensures trace == p + InitOps(bus, |p|, cfg) && (s == Ok <==> InitSucceeds(bus, |p|, cfg))
    {
      s := ResetAndConfigure(cfg);
      InitOpsFound(bus, p, cfg, mpuAddr, trace, s == Ok);
    }

    /** The part of mpu9250_init after a successful probe: the reset, whose
        status is ignored, then the register programming; the resolutions
        are stored only when it succeeds. */
    method ResetAndConfigure(cfg: InitConfig) returns (s: Status)
      requires Valid()
      modifies this`trace, this`gResolution, this`aResolution
      ensures Valid()
      ensures s == Ok ==> gResolution == GyroResolution(cfg.gyroScale) && aResolution == AccelResolution(cfg.accelScale)
      ensures s == Error ==> gResolution == old(gResolution) && aResolution == old(aResolution)
      ensures var m := |old(trace)| + 2;
              trace == old(trace) + ResetOps(mpuAddr) + InitIssued(bus, m, mpuAddr, cfg)
              && (s == Ok <==> InitAcked(bus, m, mpuAddr, cfg))
    {
      var _ := Reset();
      s := Configure(cfg);
      if s == Ok {
        gResolution := GyroResolution(cfg.gyroScale);
        aResolution := AccelResolution(cfg.accelScale);
      }
    }

    /** mpu9250_initInterrupt: two reads whose values are unused, then the
        divider, the pin configuration and the data-ready enable. Each
        failure makes the status ERROR but the sequence always completes. */
    method InitInterrupt(sampleRate: nat) returns (s: Status)
      requires 0 < sampleRate < 65536
      modifies this`trace
      ensures var n := |old(trace)|;
              trace == old(trace) + [ReadOp(mpuAddr, GYRO_CONFIG_ADDR), ReadOp(mpuAddr, CONFIG_ADDR),
                                     WriteOp(mpuAddr, SAMPLE_RATE_DIV_ADDR, SampleRateDivider(sampleRate) as byte),
                                     WriteOp(mpuAddr, INT_PIN_CONFIG_ADDR, 0x00),
                                     WriteOp(mpuAddr, INT_ENABLE_ADDR, 0x01)]
              && (s == Ok <==> bus(n, trace[n]).ack && bus(n + 1, trace[n + 1]).ack && bus(n + 2, trace[n + 2]).ack
                               && bus(n + 3, trace[n + 3]).ack && bus(n + 4, trace[n + 4]).ack)
    {
      var r0, v0 := ReadReg(GYRO_CONFIG_ADDR, 0);
      var r1, v1 := ReadReg(CONFIG_ADDR, 0);
      var div := SampleRateDivider(sampleRate);
      var r2 := WriteReg(SAMPLE_RATE_DIV_ADDR, div as byte);
      var r3 := WriteReg(INT_PIN_CONFIG_ADDR, 0x00);
      var r4 := WriteReg(INT_ENABLE_ADDR, 0x01);
      s := if r0 == Ok && r1 == Ok && r2 == Ok && r3 == Ok && r4 == Ok then Ok else Error;
    }
  }
}
