# Two-axis balancing platform firmware, modelled in Dafny

This project models the control core of STM32F4 firmware for a two-axis balancing platform. An MPU9250 inertial sensor on I2C1 is read once per TIM7 tick. An attitude estimator turns the readings into filtered pitch and roll angles. One third-order IIR compensator per axis turns each angle into a command. The commands drive three hobby servos on the compare registers of TIM4, and every tick is logged as text on UART5. A push button arms the platform once.

The modules follow the C files:

| module | file | what it holds |
|---|---|---|
| `Common` | (shared) | status enum, `byte`, the C conversions: int16/uint8/uint16/uint32 casts, truncating division, float-to-integer truncation |
| `Controller` | `controlador.c` | the delay lines `h[2][4]` as a class over an `array2`; the single-call equations; superposition and rest lemmas over runs of calls |
| `Estimator` | `estimador.c` | the file-scope memories as a class over arrays; one filtered tick as a function of the old memories and the readings; the lag, cross-wiring and integrator lemmas |
| `Servo` | `servomotor.c` | the module globals and the three compare registers as a class; the angle-to-compare mapping with its clamp as written; the check sweep |
| `Mpu9250` | `mpu9250.c` | the driver globals and a transaction trace as a class; decoding, resolution tables, configuration bytes, the sample-rate divider, bias averaging and the status rules |
| `Uart` | `cnc_ll_uart.c` | the port's output byte sequence as a class; `putString`, `send2Bash`, and the log and display formats of `sendData_int16` and the log format of `sendData_float` |
| `App` | `main.c` | the arming counter and the TIM7 flags as a class; `initApp`, the button and timer handlers, and the control tick `updateData` |

Modelling choices:
- Arithmetic is over `real`, not IEEE float32. Integer widths are modelled where the source narrows a value:
  - the int16 decoding;
  - the `uint8_t` sample-rate divider and fractional field;
  - the `uint16_t` check step;
  - the `uint32_t` servo compare value and neutral value.
- The I2C bus is an oracle `bus: (nat, Transaction) -> Reply`. It answers the n-th transaction of the driver's life with an acknowledge flag and, for a read, a byte. The driver keeps the trace of the transactions it issued. A failed single read leaves the destination byte as it was.
- `cncUSART_putChar` appends its byte to the port's output sequence. It returns an oracle flag `txOk(n)` for the n-th byte.
- The float kernels are left uninterpreted and passed in as function values (`Estimator.Kernels`):
  - the bit-trick inverse square root;
  - `sqrtf`;
  - `atan2f`.

  `Dec2Int` is passed in the same way. `arm_power_f32` is the exact sum of squares.
- The byte in the uninitialised `separator` local of the `sendData` functions is a parameter `stray`.
- The source's quirks are kept as written:
  - `mpu9250_reset` reports OK only when one of its writes fails.
  - `mpu9250_getResolution_float` writes slots 1 and 2.
  - The accel-config write discards the byte it read.
  - The upper clamp of `eServo_angle_to_pwm` is overwritten, so only the lower clamp takes effect.
  - `updateData` ignores the estimator's status.
  - A failed identity check at the first button press is never retried.

## Model

| member | source | states |
|---|---|---|
| Controller.Compensator.constructor | projControl_2_LL/Src/controlador.c:4 | both delay rows start all zero |
| Controller.Compensator.Plant | projControl_2_LL/Src/controlador.c:7-27 | the output is 0.3774·w − 0.2662·h1 − 0.3694·h2 + 0.2744·h3, with the feedback w = x + 2.1189·h1 − 1.4832·h2 + 0.3483·h3 over the pre-call slots; the row becomes [w, w, h1, h2], so h3 is lost; the other axis's row is unchanged; the axis index must be 0 or 1 |
| Controller.FirstResponse | projControl_2_LL/Src/controlador.c:13-24 | from an all-zero row the first output is exactly 0.3774·x and the row becomes [x, x, 0, 0] |
| Controller.StepLinear | projControl_2_LL/Src/controlador.c:13-24 | superposition for one call: output and next row are linear in the pair (input, pre-call row) |
| Controller.StepAdditive | projControl_2_LL/Src/controlador.c:13-24 | one call is additive in the pair (input, row), for both the output and the next row |
| Controller.RunAdditive | projControl_2_LL/Src/controlador.c:13-24 | over whole input histories, the response to a sum of inputs from a sum of rows is the sum of the responses, output by output, and so is the final row |
| Controller.ZeroInputPlusZeroState | projControl_2_LL/Src/controlador.c:13-24 | the response from any row is the zero-input response of that row plus the zero-state response to the inputs |
| Controller.RestStaysAtRest | projControl_2_LL/Src/controlador.c:13-24 | zero inputs from the all-zero row give zero outputs and leave the row all zero, for any number of calls |
| Mpu9250.DecodeInt16 | projControl_2_LL/Src/mpu9250.c:1073 | the decoded value is an int16 and agrees with hi·256 + lo modulo 2^16 (two's complement) |
| Mpu9250.DecodeEncode | projControl_2_LL/Src/mpu9250.c:1091-1093 | decoding the big-endian byte pair of an int16 gives the value back |
| Mpu9250.EncodeDecode | projControl_2_LL/Src/mpu9250.c:1091-1093 | encoding a decoded byte pair gives the same pair back, so decoding is a bijection |
| Mpu9250.DecodeAxes | projControl_2_LL/Src/mpu9250.c:1111-1112 | three int16 axes, axis i from bytes 2i (high) and 2i+1 (low) |
| Mpu9250.GyroResolution | projControl_2_LL/Src/mpu9250.c:841-858 | the gyro resolution is one of the four table values (131.0 for any code outside the table) and positive |
| Mpu9250.AccelResolution | projControl_2_LL/Src/mpu9250.c:860-877 | the accel resolution is one of the four table values (16384 for any code outside the table) and positive |
| Mpu9250.ResolutionSpansFullScale | projControl_2_LL/Src/mpu9250.c:841-877 | for each defined scale the int16 range spans the full-scale range (exactly for the accelerometer, within 0.1 % for the gyro); undefined codes fall back to scale 0 |
| Mpu9250.GyroConfigByte | projControl_2_LL/Src/mpu9250.c:819-821 | bits 2 and 5-7 of the byte read are kept, bits 0-1 are cleared, bits 3-4 hold the scale |
| Mpu9250.AccelConfigByte | projControl_2_LL/Src/mpu9250.c:828-829 | the byte written is exactly scale << 3; nothing of the byte read survives |
| Mpu9250.AccelConfig2Byte | projControl_2_LL/Src/mpu9250.c:836-837 | the high nibble of the byte read is kept and the low nibble is the low-pass code; the code −1 sets every bit |
| Mpu9250.SampleRateDivider | projControl_2_LL/Src/mpu9250.c:901-903 | the divider is between 3 and 255 for every non-zero rate |
| Mpu9250.SampleRateDividerValues | projControl_2_LL/Src/mpu9250.c:901-903 | 4..250 Hz give 1000/rate − 1, 251..1000 Hz give 3, rates above 1000 Hz wrap to 255, and 100 Hz gives 9 |
| Mpu9250.BurstStatusIffSomeAck | projControl_2_LL/Src/mpu9250.c:1283-1285 | readBytes returns OK iff at least one of its single reads was acknowledged |
| Mpu9250.BurstDataSlots | projControl_2_LL/Src/mpu9250.c:1283-1285 | slot i < count holds the byte of register reg + i (wrapping) if that read succeeded and keeps its old content otherwise; later slots are untouched |
| Mpu9250.DataReadInt16 | projControl_2_LL/Src/mpu9250.c:1120-1134 | when the data-ready bit is clear the read returns OK, leaves both buffers as they were and costs one transaction; otherwise it refills both buffers with int16 values |
| Mpu9250.DataReadFloat | projControl_2_LL/Src/mpu9250.c:1197-1211 | the same status and buffer rules for the float read |
| Mpu9250.BiasStepBounded | projControl_2_LL/Src/mpu9250.c:956-963 | one iteration keeps the buffers int16 and grows each sum by at most one int16 value |
| Mpu9250.BiasAfterBounded | projControl_2_LL/Src/mpu9250.c:954-966 | after k iterations each sum lies within k times the int16 range |
| Mpu9250.AverageFitsInt16 | projControl_2_LL/Src/mpu9250.c:970-971 | the truncated average of at most n int16 values over n is an int16 |
| Mpu9250.BiasAverageExact | projControl_2_LL/Src/mpu9250.c:968-972 | the (int16_t) cast of each average is exact: the bias is the truncated mean of the accepted samples |
| Mpu9250.BiasErrorIffSomeReadFails | projControl_2_LL/Src/mpu9250.c:954-966 | the bias status is ERROR iff one of the data reads of the loop failed |
| Mpu9250.StoreAverages | projControl_2_LL/Src/mpu9250.c:968-972 | each output slot is the sum over samples with C's truncating division, cast to int16 |
| Mpu9250.Driver.constructor | projControl_2_LL/Src/mpu9250.c:780-782 | the device address and both resolutions start at zero, and no transaction has happened |
| Mpu9250.Driver.WriteReg | projControl_2_LL/Src/mpu9250.c:1249-1260 | one write transaction to the current device address; OK iff acknowledged |
| Mpu9250.Driver.ReadReg | projControl_2_LL/Src/mpu9250.c:1262-1273 | one read transaction; OK iff acknowledged; the value is the byte received, or the prior byte when the read failed |
| Mpu9250.Driver.IsReady | projControl_2_LL/Src/mpu9250.c:1214-1231 | probes the primary address, then the alternate one; the first to answer becomes the device address; ERROR and the address kept when neither answers |
| Mpu9250.Driver.ReadBytes | projControl_2_LL/Src/mpu9250.c:1275-1288 | count single reads of consecutive registers; the status and buffer are the burst functions of the bus |
| Mpu9250.Driver.GetStatus | projControl_2_LL/Src/mpu9250.c:1233-1247 | OK iff bit 0 of the status byte is set, whatever the read's own success (a failed read leaves 0) |
| Mpu9250.Driver.ReadAxesInt16 | projControl_2_LL/Src/mpu9250.c:1081-1096 | a six-byte burst into a zeroed buffer, decoded into three axes whatever the burst's status |
| Mpu9250.DecodeInto | projControl_2_LL/Src/mpu9250.c:1091-1093 | the decode loop: each axis is the big-endian signed 16-bit value of its byte pair |
| Mpu9250.Driver.ReadTemperatureInt16 | projControl_2_LL/Src/mpu9250.c:1063-1076 | a two-byte burst decoded as one int16, whatever the status |
| Mpu9250.Driver.ReadDataInt16 | projControl_2_LL/Src/mpu9250.c:1120-1134 | status, buffers and transaction count are those of the data-read function, and the new transactions are exactly the data-read transcript: the INT_STATUS read, then the accelerometer and gyro bursts only when data was ready |
| Mpu9250.DataReadOnlyReads | projControl_2_LL/Src/mpu9250.c:1120-1134 | the data-read transcript issues only reads from the device, starts with the INT_STATUS read, has 13 transactions iff data was ready, and then reads the accelerometer and gyro registers in order |
| Mpu9250.Driver.ReadAxesFloat | projControl_2_LL/Src/mpu9250.c:1159-1173 | the int16 axes divided by the resolution |
| Mpu9250.Driver.ReadDataFloat | projControl_2_LL/Src/mpu9250.c:1197-1211 | status, buffers and transaction count are those of the float data-read function, and the new transactions are exactly the data-read transcript |
| Mpu9250.Driver.SampleStep | projControl_2_LL/Src/mpu9250.c:956-965 | one iteration of the bias loop: the sums grow only when the read returned OK; a failed read turns the status to ERROR; the new transactions are the data-read transcript |
| Mpu9250.Driver.SampleSums | projControl_2_LL/Src/mpu9250.c:946-966 | the sampling loop's sums and status are those of `samples` iterations of the loop function, and the new transactions are the `samples` data-read transcripts in order |
| Mpu9250.Driver.GetBiasInt16 | projControl_2_LL/Src/mpu9250.c:941-975 | the outputs are the truncated averages of the sums over `samples` (always that divisor), and the status is ERROR iff some read failed; the new transactions are the `samples` data-read transcripts in order; only the first three slots of each output buffer change |
| Mpu9250.BiasOnlyReads | projControl_2_LL/Src/mpu9250.c:953-966 | the bias loop's transcript issues only reads from the device, and its length is how far the loop moves the bus position |
| Mpu9250.Driver.GetResolutionInt16 | projControl_2_LL/Src/mpu9250.c:1019-1027 | slot 0 is the accel resolution, slot 1 the gyro resolution truncated, and the status is OK |
| Mpu9250.Driver.GetResolutionFloat | projControl_2_LL/Src/mpu9250.c:1032-1040 | slots 1 and 2, not 0 and 1, receive the accel and gyro resolutions; slot 0 keeps its content |
| Mpu9250.Driver.ReadID | projControl_2_LL/Src/mpu9250.c:1045-1056 | probes first only if no address is known: then the probe transactions precede the WHO_AM_I read and the address is the one the probe found (kept when none answered); the ID is the WHO_AM_I byte, or 0 when the read fails; the new transactions, the new address and the ID are the ID-read functions of the bus, the position and the old address |
| Mpu9250.Driver.Reset | projControl_2_LL/Src/mpu9250.c:923-936 | writes the reset command, then 0x00, to PWR_MGMT_1; the status is OK iff one of the two writes failed |
| Mpu9250.Driver.ReadModifyWrite | projControl_2_LL/Src/mpu9250.c:816-823 | a failed read writes nothing; otherwise the updated byte is written back; OK iff both transactions were acknowledged |
| Mpu9250.Driver.Configure | projControl_2_LL/Src/mpu9250.c:809-839 | OK iff all eight register transactions of init were acknowledged; on either outcome the trace grows by the transactions issued, which stop at the first one refused |
| Mpu9250.InitIssuedLength | projControl_2_LL/Src/mpu9250.c:809-839 | the issued transactions are the first k (1 ≤ k ≤ 8) of the eight-transaction init transcript, all acknowledged but the last; the last is refused exactly when init fails, and the whole transcript is issued when it succeeds |
| Mpu9250.Driver.Init | projControl_2_LL/Src/mpu9250.c:798-881 | ERROR with only the probe issued when no device answers; otherwise the probe, the two reset writes and the issued init transactions, in that order, and OK iff all init transactions were acknowledged; the address is the one the probe found; on OK both resolutions come from the tables, on ERROR they are kept; the new transactions are the init transcript function and OK iff the init-succeeds predicate holds |
| Mpu9250.Driver.InitInterrupt | projControl_2_LL/Src/mpu9250.c:886-918 | two reads, the divider, the pin configuration and the data-ready enable are always all issued; OK iff all five were acknowledged |
| Estimator.NormalizedIsUnit | projControl_2_LL/Src/estimador.c:88-98 | with an exact inverse-square-root kernel the normalised vector has unit length |
| Estimator.NormalizedKeepsDirection | projControl_2_LL/Src/estimador.c:96-97 | every component is scaled by the same factor, so the direction is kept |
| Estimator.ScaledSumSquares | projControl_2_LL/Src/estimador.c:93-97 | scaling a vector by c multiplies its sum of squares by c² |
| Estimator.FilteredLagsAccelByOneTick | projControl_2_LL/Src/estimador.c:77-82 | the filtered pitch and roll, and the accelerometer filter, do not depend on this tick's accelerometer reading |
| Estimator.FilteredStoresAccelAngles | projControl_2_LL/Src/estimador.c:79-82 | this tick's accelerometer pitch and roll are stored for the next tick, slot 2 is never written, and the third output is this tick's tilt |
| Estimator.FilteredIgnoresIntegrator | projControl_2_LL/Src/estimador.c:165-170 | the gyro filter uses the raw rate times dt, so the outputs and the gyro filter do not depend on the integrator |
| Estimator.FilteredCrossesAxes | projControl_2_LL/Src/estimador.c:172-173 | pitch is estAccel[0] + estGyro[1] and roll is estAccel[1] + estGyro[0]; the gyro lane is w·old + (1−w)·rate·dt |
| Estimator.FilteredTickIntegrates | projControl_2_LL/Src/estimador.c:140-144 | a filtered tick advances the integrator by rate times dt on every lane |
| Estimator.IntegratorAccumulates | projControl_2_LL/Src/estimador.c:140-144 | over any run of ticks each integrator lane is its start value plus the sum of its rates times dt; it never resets |
| Estimator.SmoothRunGeometric | projControl_2_LL/Src/estimador.c:158-163 | a filter lane fed a constant value closes its distance to it by the factor w per tick |
| Estimator.UnfilteredKeepsFilters | projControl_2_LL/Src/estimador.c:38-53 | the unfiltered path leaves both filters and the stored accelerometer angles unchanged, and outputs the advanced integrator in slots 3-5 |
| Estimator.NormalizeMeasure | projControl_2_LL/Src/estimador.c:88-98 | the first len slots become the normalised vector; later slots are unchanged |
| Estimator.WriteAccelAngles | projControl_2_LL/Src/estimador.c:128-138 | result[0..2] are the accelerometer pitch, roll and tilt; later slots are unchanged |
| Estimator.Estimator.constructor | projControl_2_LL/Src/estimador.c:6-16 | dt, the weight and every memory start at zero |
| Estimator.Estimator.Init | projControl_2_LL/Src/estimador.c:25-36 | dt = 1/SampleRate and the weight are always stored; OK iff the device ID read is 0x71; the driver's new transactions and address are those of the ID read (with the probe first when no address was known) |
| Estimator.Estimator.AdvanceIntegrator | projControl_2_LL/Src/estimador.c:140-144 | every lane adds rate times dt and is copied into result[3 + lane]; the other slots are unchanged |
| Estimator.Estimator.Angles | projControl_2_LL/Src/estimador.c:122-145 | normalises the accelerometer buffer in place, writes the accelerometer angles and the advanced integrator |
| Estimator.Estimator.SmoothAccel | projControl_2_LL/Src/estimador.c:158-163 | each accelerometer lane becomes w·old + (1−w)·pastAccel |
| Estimator.Estimator.SmoothGyro | projControl_2_LL/Src/estimador.c:165-170 | each gyro lane becomes w·old + (1−w)·rate·dt |
| Estimator.Estimator.ComplementaryFilter | projControl_2_LL/Src/estimador.c:153-174 | both filters advance and the outputs cross the axes; slots past 1 are unchanged |
| Estimator.Estimator.StoreAccelAngles | projControl_2_LL/Src/estimador.c:81-82 | slots 0 and 1 take this tick's pitch and roll; slot 2 keeps its value |
| Estimator.Estimator.FilterAngles | projControl_2_LL/Src/estimador.c:77-79 | the angles are computed, the filters advanced on the previous tick's accelerometer angles, and the tilt copied into slot 2 |
| Estimator.Estimator.FilterTick | projControl_2_LL/Src/estimador.c:77-82 | the new memories and the three angles written are exactly those of the filtered-tick function of the old memories and the readings |
| Estimator.Estimator.FilteredAngles | projControl_2_LL/Src/estimador.c:62-85 | the status is the data read's, and every memory update happens even after a failed read; the driver's new transactions are exactly the data-read transcript |
| Estimator.Estimator.NotFilterAngles | projControl_2_LL/Src/estimador.c:38-53 | the status is the data read's; only the integrator moves; the six angles are written to the caller's buffer; the driver's new transactions are exactly the data-read transcript |
| Servo.ToU32 | projControl_2_LL/Src/servomotor.c:99 | truncation toward zero, saturated to the uint32_t range; negative values give 0 |
| Servo.ToU32Monotone | projControl_2_LL/Src/servomotor.c:99 | the conversion is monotone |
| Servo.Clamped | projControl_2_LL/Src/servomotor.c:96-97 | the angle used is never below the minimum and equals the input at or above it |
| Servo.AngleToPwm | projControl_2_LL/Src/servomotor.c:91-102 | the compare value is a uint32_t value |
| Servo.BelowMinIsMin | projControl_2_LL/Src/servomotor.c:97-99 | an angle below the minimum is commanded as the minimum, i.e. posZero + 10·minAngle when that fits |
| Servo.AboveMaxUnclamped | projControl_2_LL/Src/servomotor.c:96-99 | an angle above the maximum is not clamped: it maps to posZero + step·angle |
| Servo.AngleToPwmMonotone | projControl_2_LL/Src/servomotor.c:97-99 | with a non-negative step the mapping is monotone non-decreasing |
| Servo.ZeroIsNeutral | projControl_2_LL/Src/servomotor.c:58-62 | angle 0 gives posZero whenever the minimum is at most 0 and posZero is a uint32_t value |
| Servo.TargetsExactly | projControl_2_LL/Src/servomotor.c:69-87 | CH1, CH2 and CH3 select exactly their own register, ALL selects all three, any other value none |
| Servo.CheckStep | projControl_2_LL/Src/servomotor.c:28 | the step is (max − min)/4 truncated and stored in a uint16_t |
| Servo.SweepCommandsPositions | projControl_2_LL/Src/servomotor.c:46-52 | the u-th command of a sweep is min + u·step on that channel |
| Servo.SweepAngleStep | projControl_2_LL/Src/servomotor.c:50 | successive sweep positions are one step apart |
| Servo.CheckCommandsShape | projControl_2_LL/Src/servomotor.c:25-56 | ALL sweeps the three servos in order, four positions each, and every check ends with angle 0 on the channel given |
| Servo.DeployedServo | projControl_2_LL/Src/initHardware.c:303-307 | with −90..90 and Pos_Zero 90: neutral 1500, step 45, sweep 600/1050/1500/1950, and 100° commanded as 2500 rather than clamped |
| Servo.Driver.constructor | projControl_2_LL/Src/servomotor.c:7-10 | the globals and the compare registers start at zero |
| Servo.Driver.Init | projControl_2_LL/Src/servomotor.c:16-23 | stores the limits, the step 10 and posZero = 600 + 10·Pos_Zero in uint32_t arithmetic |
| Servo.Driver.UpdatePosition | projControl_2_LL/Src/servomotor.c:64-88 | the converted angle goes into every register the channel selects; the others keep their values |
| Servo.Driver.ZeroPosition | projControl_2_LL/Src/servomotor.c:58-62 | the selected registers take the compare value of angle 0 |
| Servo.Driver.Sweep | projControl_2_LL/Src/servomotor.c:46-52 | four commands min, min+s, min+2s, min+3s on the channel; the registers the channel selects end at the pulse width of the last position, the others keep their values |
| Servo.Driver.SweepAll | projControl_2_LL/Src/servomotor.c:30-43 | one sweep per servo, in the order of the servo table; all three registers end at the pulse width of the last sweep position |
| Servo.Driver.Check | projControl_2_LL/Src/servomotor.c:25-56 | the commands are the check sequence; the selected registers end at the value of angle 0 and the others keep their values |
| Uart.Emitted | projControl_2_LL/Src/cnc_ll_uart.c:100-107 | a prefix of the string, at most count bytes, with no NUL, stopping only at count, the end or a NUL |
| Uart.EmittedStopsAt | projControl_2_LL/Src/cnc_ll_uart.c:100-107 | the emitted bytes are exactly the prefix before the stopping point |
| Uart.Successes | projControl_2_LL/Src/cnc_ll_uart.c:102-103 | the success count is at most the number of bytes sent |
| Uart.Decimal | projControl_2_LL/Src/cnc_ll_uart.c:231 | the decimal text of a value is non-empty and NUL-free |
| Uart.DigitsRoundTrip | projControl_2_LL/Src/cnc_ll_uart.c:160 | the digits of a natural read back as the number |
| Uart.DecimalRoundTrip | projControl_2_LL/Src/cnc_ll_uart.c:231 | the decimal text of an integer, sign included, reads back as the integer |
| Uart.DecimalFits | projControl_2_LL/Src/cnc_ll_uart.c:230-232 | an int16's text takes at most 6 bytes, so it fits the 10-byte buffer with its terminator |
| Uart.ByteDigitsFit | projControl_2_LL/Src/cnc_ll_uart.c:159-161 | a uint8_t's text takes at most 3 bytes |
| Uart.SeparatorChoice | projControl_2_LL/Src/cnc_ll_uart.c:210-224 | the LOG bit never changes the separator; with it clear exactly TAB, SPACE, LF and BS select "\t", " ", "\n" and "/"; every other mode leaves it unset |
| Uart.SeparatorBytes | projControl_2_LL/Src/cnc_ll_uart.c:233 | the separator bytes are what putString(pSeparator, 1) sends from the selected buffer |
| Uart.ToInt16 | projControl_2_LL/Src/cnc_ll_uart.c:156 | the (int16_t) cast of a float is an int16 value |
| Uart.FloatFieldParts | projControl_2_LL/Src/cnc_ll_uart.c:155-161 | a float field is the int16 text, a dot, and the Dec2Int value modulo 256 in at most three digits; the integer part reads back as the cast |
| Uart.DisplayIsJoin | projControl_2_LL/Src/cnc_ll_uart.c:244-260 | the displayed items are joined by the separator: separators come only between items, never after the last |
| Uart.MemSet | projControl_2_LL/Src/cnc_ll_uart.c:230 | every byte of the buffer is NUL |
| Uart.Itoa | projControl_2_LL/Src/cnc_ll_uart.c:231 | the buffer holds the decimal text followed by a NUL; later bytes are unchanged |
| Uart.StrNCat | projControl_2_LL/Src/cnc_ll_uart.c:118-120 | the buffer's string becomes the old string followed by what strncat copies |
| Uart.Port.PutChar | projControl_2_LL/Src/cnc_ll_uart.c:12-36 | the byte is appended and the flag is the transmitter's answer |
| Uart.Port.PutString | projControl_2_LL/Src/cnc_ll_uart.c:86-108 | nothing for a null pointer or zero count; otherwise the bytes before the first NUL, at most count; the result counts the successful putChar calls |
| Uart.Port.Send2Bash | projControl_2_LL/Src/cnc_ll_uart.c:110-127 | sends cmd, str and the reset sequence; returns 0 iff no byte went out |
| Uart.Port.PutText | projControl_2_LL/Src/cnc_ll_uart.c:232 | a number buffer sends exactly its text |
| Uart.Port.PutSeparator | projControl_2_LL/Src/cnc_ll_uart.c:233 | sends the separator bytes |
| Uart.Port.LogInt16Field | projControl_2_LL/Src/cnc_ll_uart.c:230-233 | one loop iteration appends one field and the separator |
| Uart.Port.PutLogEnd | projControl_2_LL/Src/cnc_ll_uart.c:235-236 | "\n\r" unless the separator is "\n" |
| Uart.Port.LogInt16Fields | projControl_2_LL/Src/cnc_ll_uart.c:228-234 | each value's decimal text followed by the separator, in order |
| Uart.Port.LogInt16 | projControl_2_LL/Src/cnc_ll_uart.c:226-237 | the int16 log line: the fields, then the line end |
| Uart.Port.DisplayItem | projControl_2_LL/Src/cnc_ll_uart.c:246-259 | one displayed value in green or red, with a separator unless it is the last |
| Uart.Port.DisplayItems | projControl_2_LL/Src/cnc_ll_uart.c:244-260 | all displayed values with separators between them |
| Uart.Port.DisplayInt16 | projControl_2_LL/Src/cnc_ll_uart.c:238-261 | EraseLine, "\r" and the reset sequence, then the displayed values, with a line-feed separator shown as a tab |
| Uart.Port.SendDataInt16 | projControl_2_LL/Src/cnc_ll_uart.c:204-264 | the LOG bit selects the log format, otherwise the display format; the result is always 1 |
| Uart.Port.FloatFieldOut | projControl_2_LL/Src/cnc_ll_uart.c:155-161 | one float field: the integer text, the dot and the fractional text |
| Uart.Port.LogFloatField | projControl_2_LL/Src/cnc_ll_uart.c:155-162 | one loop iteration appends one float field and the separator |
| Uart.Port.LogFloatFields | projControl_2_LL/Src/cnc_ll_uart.c:153-163 | each value's float field followed by the separator, in order |
| Uart.Port.SendDataFloatLog | projControl_2_LL/Src/cnc_ll_uart.c:129-166 | in log mode the float log line, with the separator the mode selects; the result is 1 |
| App.Deinterleave | projControl_2_LL/Src/main.c:65-69 | the telemetry vector splits back into the angles (even slots) and the outputs (odd slots) |
| App.Interleave | projControl_2_LL/Src/main.c:65-69 | serialData is [angle0, out0, angle1, out1] |
| App.TelemetryFormat | projControl_2_LL/Src/main.c:71 | LOG\|TAB logs with tab separators and ends the line with "\n\r" |
| App.Board.constructor | projControl_2_LL/Src/main.c:5 | state starts at 0 and TIM7 is stopped |
| App.Board.Platform | projControl_2_LL/Src/initHardware.c:285-308 | the deployed configuration: the sensor transcript is the init transcript followed by the ID read at the address init left; sensor OK iff init succeeds, and then 131.0 LSB/dps and 16384 LSB/g, while on ERROR the resolutions are kept; estimator OK iff that ID read gives 0x71; dt = 1/100 and weight 0.9; servo neutral 1500, step 10, limits −90..90 |
| App.Board.InitApp | projControl_2_LL/Src/main.c:29-46 | the ID read's transactions (the probe first when no address was known) and its address; TIM7 is started, with an update forced, iff the ID read is 0x71, and otherwise the timer flags are kept |
| App.Board.ButtonPress | projControl_2_LL/Src/main.c:77-87 | only the first press increments state and runs initApp, with initApp's transactions, address and timer flags; later presses change nothing, so a failed check is never retried |
| App.Board.UpdateData | projControl_2_LL/Src/main.c:48-74 | one tick: the sensor transcript is one data read; the estimator's filtered tick on that read; angle 0 to axis 0 and angle 1 to axis 1; channels 1 and 2 get output 0 and channel 3 output 1; the float log of [angle0, out0, angle1, out1], whatever the read's status |
| App.Board.Estimate | projControl_2_LL/Src/main.c:54-57 | the sensor transcript is one data read, and the angles and memories are those of one filtered tick on it |
| App.Board.Compensate | projControl_2_LL/Src/main.c:58-59 | the first angle drives axis 0 and the second axis 1 |
| App.Board.Drive | projControl_2_LL/Src/main.c:61-63 | channels 1 and 2 receive output 0, channel 3 output 1 |
| App.Board.Report | projControl_2_LL/Src/main.c:65-71 | the telemetry line is the float log of the interleaved vector in LOG\|TAB mode |
| App.Board.Actuate | projControl_2_LL/Src/main.c:58-71 | compensators, servos and telemetry as in updateData |
| App.Board.TimerIrq | projControl_2_LL/Src/main.c:89-95 | the update flag ends cleared and the tick runs unconditionally: the sensor transcript (one data read), the estimator memories, the compensators, the servos and the log change exactly as one updateData does |

## Left out

- The I2C driver `cnc_ll_i2c.c` is not part of this model. Its transactions are the bus oracle, including the busy-waits and the SysTick timeouts.
- The UART registers and `cncUSART_init` are left out. `putChar` always appends its byte, and a timeout only shows as the returned flag.
- `cncUSART_receiveData` and `mpu9250_getBias_float` are left out: the first is a stub that returns 1, and the second is float arithmetic outside the modelled core.
- The float kernels are function-valued parameters rather than definitions: the fast inverse square root, `sqrtf`, `atan2f` and `Dec2Int`. No rounding, convergence or closed-loop stability claim is made. `0.90f` is taken as 0.9.
- Integer conversions of floats are modelled as truncation toward zero, saturated as the Cortex-M4 FPU does.
- The temperature conversion of `mpu9250_readTemperature_float` is left out.
- Hardware and timing are left out:
  - `LL_mDelay` (including the delays of `cncServo_check`);
  - `__WFI`;
  - DWT cycle counting;
  - interrupt priorities;
  - the clock, GPIO, timer and PWM bring-up of `initHardware.c`.

  Only its configuration constants are used, in `App.Board.Platform`.
- The banner and status messages `initApp` sends with `send2Bash` are left out.
- The register-address tables of `mpu9250.c` are left out except for the addresses the modelled functions use.
- Uart.Port.SendDataFloatLog: models the log branch only; the display branch of `cncUSART_sendData_float` is left out.
- Uart.Port.Send2Bash: requires cmd, str and the reset sequence to fit the 80-byte buffer and to contain no NUL. Longer text would be cut by `strncat` and is not modelled.
- Uart.Port.PutString: requires the string to be terminated or at least count bytes long. Reading past the buffer is undefined behaviour in C.
- Mpu9250.Driver.ReadDataFloat: requires non-zero resolutions, because the model has no infinities. Before a successful init the source divides by zero. The same requirement appears on `Estimator.Estimator.FilteredAngles`, `Estimator.Estimator.NotFilterAngles`, `App.Board.UpdateData` and `App.Board.TimerIrq`.
- Estimator.Estimator.Init: requires a non-zero sample rate; the upper bound is the range of the `uint16_t` field. The source computes `1.0f/SampleRate` at estimador.c:30, which is +inf for a zero rate; the model has no infinities. The only caller passes `SAMPLER_FREQ` (initHardware.c:299).
- Mpu9250.Driver.GetBiasInt16: requires at least one sample; the upper bound is the range of the `uint8_t` parameter. The averages at mpu9250.c:970-971 divide by `samples`, which is undefined behaviour for zero.
- Uart.Port.PutLogEnd: compares the separator with the `"\n"` literal as a value. The source compares pointers (cnc_ll_uart.c:164, 169, 235, 240), which match only when the compiler merges identical string literals. The same holds for the display-mode separator swap in `Uart.DisplaySeparator`.
- Mpu9250.Driver.InitInterrupt: requires a non-zero rate below 65536, because the source divides by the `uint16_t` rate.
- App.Board.UpdateData: uses a three-slot `filteredAngles` buffer. The source declares two slots, and `estimator_filteredAngles` writes slot 2 past its end. The model does not capture that out-of-bounds write or its effect on the neighbouring stack variables.
- Controller.Compensator.Plant: requires the axis index to be 0 or 1. The source does not check it, and any other index writes outside `h`.
