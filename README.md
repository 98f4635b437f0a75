# MPU9250 driver core, modelled and verified in Dafny

This project models the integer and register-level behaviour of the MPU9250 9-axis IMU driver in `src/MPU9250.cpp`. Its parts:

- The device is modelled as a register file: a map from register name to byte. The driver object (`Driver.Mpu9250`) keeps these registers together with a log of every register write it issues. Its class invariant is that the registers are the power-up contents with the log replayed onto them.
- Every driver operation then appends a fixed write sequence to the log. For read-modify-write steps, the sequence depends on what the registers held. Each such sequence is a specification function in `Commands`. Lemmas state its effect register by register, including which registers are left alone.
- Sensor data that the driver reads in a loop are inputs to the model:
  - the accelerometer and gyroscope blocks of the self test;
  - the AK8963 frames of the magnetometer sweep.

Modules:

- `Bits`: byte and int16_t/int32_t ranges, two's-complement narrowing, and C++ truncating division. Dafny's `/` is Euclidean, so `TruncDiv` defines the C++ rule separately.
- `Decode`: big-endian signed samples, the unsigned factory-offset word, and their inverses.
- `Registers`: register names, write replay, and the bit-field updates of configuration registers.
- `Commands`: the write sequences of `reset`, `pushGyroBiases`, `initMPU6500`, `selfTest`, `initAK8963`, `gyroMagSleep`, `gyroMagWake` and `accelWakeOnMotion`, and their effects.
- `Magnetometer`: `readMagData`, and the integer part of `calibrateMagnetometer` (sample count, running extremes, hard-iron midpoint, half-swing).
- `SelfTesting`: the two 200-sample averaging loops, the factory trim, the percent deviations and the pass rule of `selfTest`. The trim and deviations are computed in exact reals.
- `Driver`: the driver class and `runTests`. `runTests` checks the chip id, then resets and self-tests, then configures the MPU, then checks the magnetometer id and configures the magnetometer.

The decision order of `runTests` is stated both as a pure function (`Driver.TestsOutcome`) and as the behaviour of the method. So is the write log up to the step that decided the outcome. `Driver.RunTestsConfigures` then states what a successful `runTests` leaves in the configuration registers.

## Model

| member | source | states |
|---|---|---|
| Bits.WrapInt16 | src/MPU9250.cpp:311-318 | the conversion to int16_t lies in [-32768, 32767], differs from its argument by a multiple of 2^16, and is the identity on int16_t values |
| Bits.WrapInt16Unique | src/MPU9250.cpp:311-318 | the int16_t value congruent to x modulo 2^16 is unique, so it is WrapInt16(x) |
| Bits.TruncDiv | src/MPU9250.cpp:321-324 | C++ division by a positive divisor truncates toward zero: the quotient has the sign of the dividend and the remainder's magnitude is below the divisor |
| Bits.TruncDivUnique | src/MPU9250.cpp:321-324 | any quotient meeting the truncation rule is TruncDiv's |
| Bits.TruncDivNegate | src/MPU9250.cpp:270-272 | negating the dividend negates the truncated quotient |
| Bits.TruncDivDiffersFromEuclidean | src/MPU9250.cpp:270-272 | -3 / 2 is -1 in C++ and -2 under Dafny's Euclidean division |
| Decode.Assemble | src/MPU9250.cpp:54-58 | the word assembled from a high and a low byte lies in [0, 65535] |
| Decode.AssembleIsBitwise | src/MPU9250.cpp:54-58 | that word is `(hi << 8) \| lo` on zero-extended bytes |
| Decode.SplitAssemble | src/MPU9250.cpp:54-58 | splitting an assembled word gives back its high and low bytes |
| Decode.AssembleSplit | src/MPU9250.cpp:54-58 | assembling the two bytes of a 16-bit word gives back the word |
| Decode.OffsetNotSignExtended | src/MPU9250.cpp:54-58 | the offset word is never sign-extended: with bit 7 of the high byte set it is the signed reading plus 2^16, otherwise equal to it |
| Decode.DecodeBE | src/MPU9250.cpp:311-318 | a big-endian sample is an int16_t, negative exactly when the high byte is at least 0x80 |
| Decode.DecodeBEIsCast | src/MPU9250.cpp:311-318 | the sample is `hi * 256 + lo` narrowed to int16_t |
| Decode.DecodeEncode | src/MPU9250.cpp:311-318 | decoding the two bytes of an int16_t value gives back the value |
| Decode.EncodeDecode | src/MPU9250.cpp:311-318 | encoding a decoded sample gives back its high and low bytes |
| Registers.Lookup | src/MPU9250.cpp:114 | reference definition: readMPURegister / readAK8963Register on the register map, a never-written register reading 0 |
| Registers.Replay | src/MPU9250.cpp:41-49 | reference definition: the register map after a sequence of writeMPURegister / writeAK8963Register calls, applied in order |
| Registers.GyroConfigUpdate | src/MPU9250.cpp:202-208 | the new GYRO_CONFIG has bit 1 clear and bits 0 and 2 kept; for gscale <= 3 it also keeps bits 7:5 and has gscale in bits 4:3 |
| Registers.AccelConfigUpdate | src/MPU9250.cpp:211-215 | the new ACCEL_CONFIG keeps bits 2:0; for ascale <= 3 it also keeps bits 7:5 and has ascale in bits 4:3 |
| Registers.LowNibbleUpdate | src/MPU9250.cpp:220-223 | the new ACCEL_CONFIG2 has the requested low nibble and, for a nibble-sized request, keeps the high nibble |
| Registers.CntlValue | src/MPU9250.cpp:476 | the AK8963 CNTL value has the mode in bits 3:0 and, for mscale <= 1, the resolution bit above it |
| Registers.CntlPowerDown | src/MPU9250.cpp:410-411 | sleeping clears the mode bits of CNTL and keeps its upper nibble |
| Registers.PwrGyroStandby | src/MPU9250.cpp:412-413 | sleeping sets GYRO_STANDBY (bit 4) of PWR_MGMT_1 and keeps every other bit |
| Registers.CntlWake | src/MPU9250.cpp:420-421 | waking keeps every CNTL bit that was set, sets every mode bit, and sets no other bit |
| Registers.PwrAccelCycle | src/MPU9250.cpp:138-139 | wake-on-motion sets ACCEL_CYCLE (bit 5) of PWR_MGMT_1 and keeps every other bit |
| Registers.WakeAfterSleep | src/MPU9250.cpp:407-425 | a wake after a sleep selects exactly the requested mode and keeps the upper nibble of CNTL |
| Registers.CntlExamples | src/MPU9250.cpp:473-476 | CntlValue is 0x12 and 0x16 for the 8 Hz and 100 Hz modes at 16-bit output, and 0x02 and 0x06 for them at 14-bit output. |
| Commands.GyroOffsetReg | src/MPU9250.cpp:43-48 | reference definition: the six gyro offset registers in the order pushGyroBiases writes them |
| Commands.GyroBiasWrites | src/MPU9250.cpp:41-49 | pushGyroBiases issues six writes, the k-th of data[k] to the k-th gyro offset register |
| Commands.GyroBiasEffect | src/MPU9250.cpp:41-49 | afterwards XG/YG/ZG_OFFSET_H/L hold data[0..5] in order, and every other register is unchanged |
| Commands.ResetWrites | src/MPU9250.cpp:146-159 | reference definition: the writes of reset, USER_CTRL 0 and I2C_MST_EN around PWR_MGMT_1 0x80 without passthru, PWR_MGMT_1 0x80 alone with it |
| Commands.InitMpuClock | src/MPU9250.cpp:177-197 | reference definition: the first writes of initMPU6500, PWR_MGMT_1 0x80 then 0x01, CONFIG 0x03 only under passthru, then SMPLRT_DIV the divisor |
| Commands.RangeWrites | src/MPU9250.cpp:200-223 | reference definition: the three read-modify-write range writes of initMPU6500 from the values read |
| Commands.InitMpuInterrupts | src/MPU9250.cpp:228-243 | reference definition: the interrupt writes of initMPU6500, INT_PIN_CFG 0x12 with passthru or USER_CTRL I2C_MST_EN without it, then INT_ENABLE 0x01 |
| Commands.InitMpuWrites | src/MPU9250.cpp:175-245 | reference definition: the writes of initMPU6500, clock phase, then range phase, then interrupt phase |
| Commands.SelfTestSetup | src/MPU9250.cpp:302-306 | reference definition: the five configuration writes at the start of selfTest |
| Commands.SelfTestEnable | src/MPU9250.cpp:327-328 | reference definition: the writes that enable self-test on both sensors |
| Commands.SelfTestRestore | src/MPU9250.cpp:350-351 | reference definition: the writes that return both sensors to normal operation |
| Commands.SelfTestWrites | src/MPU9250.cpp:302-351 | reference definition: the writes of selfTest, set-up, enable and restore in that order |
| Commands.Codes | src/MPU9250.cpp:355-360 | reference definition: the six factory self-test codes selfTest reads, accelerometer X, Y, Z then gyro X, Y, Z |
| Commands.InitAkWrites | src/MPU9250.cpp:459-476 | reference definition: the four CNTL writes of initAK8963, ending with `mscale << 4 \| Mmode` |
| Commands.SleepWrites | src/MPU9250.cpp:407-415 | reference definition: the two read-modify-write writes of gyroMagSleep from the values read |
| Commands.WakeWrites | src/MPU9250.cpp:417-425 | reference definition: the two writes of gyroMagWake, CNTL with the mode ORed in and PWR_MGMT_1 0x01 |
| Commands.MotionSetup | src/MPU9250.cpp:123-136 | reference definition: the five constant interrupt and threshold writes of accelWakeOnMotion |
| Commands.MotionWrites | src/MPU9250.cpp:114-139 | reference definition: the writes of accelWakeOnMotion before gyroMagSleep, read-modify-write ACCEL_CONFIG2, the set-up, then read-modify-write PWR_MGMT_1 |
| Commands.WakeOnMotionWrites | src/MPU9250.cpp:109-144 | reference definition: the writes of accelWakeOnMotion, its own writes followed by those of gyroMagSleep |
| Commands.ResetEffect | src/MPU9250.cpp:146-159 | reset writes only USER_CTRL and PWR_MGMT_1: PWR_MGMT_1 becomes 0x80, and USER_CTRL becomes I2C_MST_EN without passthru and is untouched with it |
| Commands.ClockEffect | src/MPU9250.cpp:177-197 | initMPU6500's clock phase leaves PWR_MGMT_1 at 0x01 and SMPLRT_DIV at the divisor; it sets CONFIG to 0x03 only with passthru |
| Commands.RangeEffect | src/MPU9250.cpp:200-223 | the range phase writes only the three range registers, each with its read-modify-write update of the value read |
| Commands.InterruptEffect | src/MPU9250.cpp:228-243 | the interrupt phase enables the data-ready interrupt; with passthru it sets INT_PIN_CFG to 0x12, otherwise it enables the I2C master in USER_CTRL |
| Commands.ClockKeepsRanges | src/MPU9250.cpp:179-223 | the clock phase does not change the range registers initMPU6500 reads next |
| Commands.InitMpuEffect | src/MPU9250.cpp:175-245 | after initMPU6500: PWR_MGMT_1 0x01, SMPLRT_DIV the divisor, INT_ENABLE 0x01, the range updates of the registers as they were, and CONFIG / INT_PIN_CFG / USER_CTRL by the passthru choice |
| Commands.InitMpuFrame | src/MPU9250.cpp:175-245 | initMPU6500 writes only its nine configuration registers and leaves every other register unchanged |
| Commands.SelfTestEffect | src/MPU9250.cpp:302-351 | selfTest leaves SMPLRT_DIV 0, CONFIG 2, ACCEL_CONFIG2 2, and both range registers 0 (self-test bits cleared); it writes nothing else |
| Commands.SelfTestKeepsCodes | src/MPU9250.cpp:302-360 | selfTest's writes do not disturb the factory self-test codes it reads afterwards |
| Commands.ResetKeepsCodes | src/MPU9250.cpp:146-159 | reset's writes do not disturb the factory self-test codes |
| Commands.InitAkEffect | src/MPU9250.cpp:459-476 | initAK8963 leaves CNTL at `mscale << 4 \| Mmode` and every other register unchanged |
| Commands.SleepEffect | src/MPU9250.cpp:407-415 | gyroMagSleep powers down the magnetometer and sets gyro standby, from the values read; nothing else changes |
| Commands.WakeEffect | src/MPU9250.cpp:417-425 | gyroMagWake ORs the mode into CNTL and sets PWR_MGMT_1 to 0x01; nothing else changes |
| Commands.SleepThenWake | src/MPU9250.cpp:407-425 | a sleep followed by a wake selects exactly the requested mode, keeps CNTL's upper nibble, and leaves PWR_MGMT_1 at 0x01 |
| Commands.SetupEffect | src/MPU9250.cpp:123-136 | the interrupt and threshold writes set INT_PIN_CFG 0x12, INT_ENABLE 0x41, MOT_DETECT_CTRL 0xC0, MOT_THR 0x19 and LP_ACCEL_ODR 0x02, and nothing else |
| Commands.MotionShape | src/MPU9250.cpp:114-139 | the motion set-up log lands each of its seven values in its register and touches nothing else |
| Commands.MotionEffect | src/MPU9250.cpp:114-139 | the motion set-up selects the 184 Hz accelerometer filter, the motion interrupt settings and accelerometer cycling; nothing else changes |
| Commands.WakeOnMotionEffect | src/MPU9250.cpp:109-144 | after accelWakeOnMotion the accelerometer cycles while the gyro stands by, the other PWR_MGMT_1 bits are kept, the magnetometer is powered down with CNTL's upper nibble kept, the 184 Hz accelerometer filter is selected, and the motion interrupt is armed (INT_PIN_CFG 0x12, INT_ENABLE 0x41, MOT_DETECT_CTRL 0xC0, MOT_THR 0x19, LP_ACCEL_ODR 0x02); every other register is unchanged |
| Commands.SleepAfterMotion | src/MPU9250.cpp:141 | the gyroMagSleep at the end of accelWakeOnMotion changes only CNTL and PWR_MGMT_1: CNTL is powered down from its value before the motion set-up, which never touches it, and PWR_MGMT_1 gets its standby bit |
| Magnetometer.Overflow | src/MPU9250.cpp:448 | reference definition: ST2 bit 3 (0x08) of the frame is set |
| Magnetometer.IsSample | src/MPU9250.cpp:449-451 | reference definition: a triple of int16_t values |
| Magnetometer.MagUpdate | src/MPU9250.cpp:443-453 | on overflow the buffer keeps its contents; otherwise it holds three int16_t values |
| Magnetometer.MagUpdateLittleEndian | src/MPU9250.cpp:449-451 | without overflow axis i is the little-endian two's-complement value of bytes 2i, 2i+1, and re-encodes to them |
| Magnetometer.ReadMagData | src/MPU9250.cpp:443-453 | the caller's buffer after readMagData is MagUpdate of its old contents and the frame |
| Magnetometer.SampleCount | src/MPU9250.cpp:253-254 | 128 samples exactly for the 8 Hz mode, 1500 exactly for 100 Hz, 0 exactly otherwise |
| Magnetometer.LastHeld | src/MPU9250.cpp:256-258 | the buffer after a prefix of reads always holds an int16_t triple |
| Magnetometer.Held | src/MPU9250.cpp:256-258 | reference definition: the buffer contents each sweep iteration sees, one per frame |
| Magnetometer.AxisMax | src/MPU9250.cpp:251-263 | reference definition: mag_max[j] after the samples, starting from -32767 |
| Magnetometer.AxisMin | src/MPU9250.cpp:251-263 | reference definition: mag_min[j] after the samples, starting from 32767 |
| Magnetometer.Maxes | src/MPU9250.cpp:260-263 | reference definition: the three mag_max entries |
| Magnetometer.Mins | src/MPU9250.cpp:260-263 | reference definition: the three mag_min entries |
| Magnetometer.Raise | src/MPU9250.cpp:261 | reference definition: each maximum raised to the sample where the sample is greater |
| Magnetometer.Lower | src/MPU9250.cpp:262 | reference definition: each minimum lowered to the sample where the sample is smaller |
| Magnetometer.HeldAt | src/MPU9250.cpp:256-258 | the sample each sweep iteration sees is the buffer after that iteration's own read |
| Magnetometer.HeldSamples | src/MPU9250.cpp:256-258 | every sample the sweep sees is an int16_t triple |
| Magnetometer.OverflowRepeats | src/MPU9250.cpp:448 | an overflowed frame repeats the previous sample (0, 0, 0 before the first) |
| Magnetometer.AxisMaxIsMax | src/MPU9250.cpp:251-263 | mag_max is at least -32767 and every sample, and equals -32767 or one of the samples |
| Magnetometer.AxisMinIsMin | src/MPU9250.cpp:251-263 | mag_min is at most 32767 and every sample, and equals 32767 or one of the samples |
| Magnetometer.HardIron | src/MPU9250.cpp:270-272 | the bias is (max + min) / 2 rounded toward zero |
| Magnetometer.HalfSwing | src/MPU9250.cpp:279-281 | the half-swing is (max - min) / 2 rounded toward zero |
| Magnetometer.CalibrateMagnetometer | src/MPU9250.cpp:247-281 | for each axis, bias and scale are the midpoint and half-swing of the extremes over the samples the sweep saw |
| Magnetometer.Sweep | src/MPU9250.cpp:256-267 | the sampling loop ends with the per-axis extremes of the held samples |
| Magnetometer.SweepStep | src/MPU9250.cpp:256-258 | one more iteration reads one more frame into the buffer and appends the new buffer to the samples seen |
| Magnetometer.ExtremesStep | src/MPU9250.cpp:260-263 | one more sample widens each extreme to that sample and no further |
| Magnetometer.TrackExtremes | src/MPU9250.cpp:260-263 | the inner loop widens mag_max and mag_min to the sample, axis by axis |
| Magnetometer.SweepBounds | src/MPU9250.cpp:256-281 | after a non-empty sweep every sample lies between mag_min and mag_max, and the half-swing is non-negative |
| Magnetometer.EmptySweep | src/MPU9250.cpp:253-281 | with an unsupported mode no sample is taken: the bias is 0 and the half-swing is -32767 |
| Magnetometer.HardIronExamples | src/MPU9250.cpp:270-281 | symmetric range +-100 gives bias 0 and half-swing 100; (150, 50) gives bias 100; (-1, -2) gives bias -1 |
| SelfTesting.Axis | src/MPU9250.cpp:311-318 | each axis of a raw block is an int16_t |
| SelfTesting.Sum | src/MPU9250.cpp:308-319 | reference definition: the accumulated sum of one axis over the readings |
| SelfTesting.Sums | src/MPU9250.cpp:308-319 | reference definition: the three accumulators of one sensor |
| SelfTesting.Added | src/MPU9250.cpp:311-313 | reference definition: the accumulators after adding one block |
| SelfTesting.Mean | src/MPU9250.cpp:321-324 | reference definition: one accumulator divided by 200, rounded toward zero |
| SelfTesting.Means | src/MPU9250.cpp:321-347 | reference definition: the three averages of one sensor |
| SelfTesting.Quotients | src/MPU9250.cpp:321-324 | reference definition: each accumulator divided by 200, rounded toward zero |
| SelfTesting.SumBounds | src/MPU9250.cpp:308-319 | the sum of n int16_t samples lies in [-32768 n, 32767 n] |
| SelfTesting.SumFitsInt32 | src/MPU9250.cpp:298-319 | the sum of up to 200 samples fits the int32_t accumulator |
| SelfTesting.SumsStep | src/MPU9250.cpp:308-319 | one more iteration adds one block to the accumulators, and they still fit int32_t |
| SelfTesting.SumsFitInt32 | src/MPU9250.cpp:308-319 | all three accumulators of up to 200 samples fit int32_t |
| SelfTesting.AddBlock | src/MPU9250.cpp:311-313 | adding one block adds each axis to its accumulator |
| SelfTesting.Accumulate | src/MPU9250.cpp:308-319 | the sampling loop ends with the per-axis sums of all readings |
| SelfTesting.Divide | src/MPU9250.cpp:321-324 | the division loop replaces each accumulator with its sum divided by 200, rounded toward zero |
| SelfTesting.Averages | src/MPU9250.cpp:308-324 | sampling and division give the truncated per-axis means |
| SelfTesting.MeanInRange | src/MPU9250.cpp:321-324 | a truncated mean of 200 int16_t samples is an int16_t |
| SelfTesting.MeansInRange | src/MPU9250.cpp:321-347 | all three means of a block are int16_t |
| SelfTesting.Pow101 | src/MPU9250.cpp:363-368 | 1.01 to any integer power is positive |
| SelfTesting.FactoryTrim | src/MPU9250.cpp:363-368 | the factory trim of any self-test code is positive |
| SelfTesting.FactoryTrimStep | src/MPU9250.cpp:363-368 | the trim grows by exactly one percent per code step |
| SelfTesting.FactoryTrimOne | src/MPU9250.cpp:363-368 | code 1 gives the base trim 2620 |
| SelfTesting.Tolerance | src/MPU9250.cpp:374-375 | reference definition: `100 * response / FT - 100`, in exact reals |
| SelfTesting.Tolerances | src/MPU9250.cpp:372-376 | reference definition: the six tolerances, accelerometer axes against trims 0-2 and gyro axes against trims 3-5 |
| SelfTesting.Response | src/MPU9250.cpp:374-375 | reference definition: the self-test average minus the normal average of an axis |
| SelfTesting.AllWithin | src/MPU9250.cpp:379-386 | reference definition: every tolerance is below 14 |
| SelfTesting.Passes | src/MPU9250.cpp:379-386 | reference definition: the selfTest verdict from the four averages and the six codes |
| SelfTesting.SelfTestPasses | src/MPU9250.cpp:294-387 | reference definition: the selfTest verdict from the normal and self-test readings and the six codes |
| SelfTesting.ToleranceBelowLimit | src/MPU9250.cpp:372-383 | an axis's deviation is below 14 percent exactly when 100 times its response is below 114 times its trim |
| SelfTesting.ComputeTolerances | src/MPU9250.cpp:372-376 | the tolerance loop gives the percent deviation of accelerometer axes from trims 0-2 and of gyro axes from trims 3-5 |
| SelfTesting.CheckTolerances | src/MPU9250.cpp:379-386 | the check passes exactly when every deviation is below 14; the check is one-sided |
| SelfTesting.PassesIff | src/MPU9250.cpp:294-387 | selfTest passes exactly when every axis's response is below 114 percent of its factory trim |
| SelfTesting.NoResponsePasses | src/MPU9250.cpp:370-386 | when no axis responds to the self test (every response 0 or below), selfTest passes |
| SelfTesting.NoResponseAxis | src/MPU9250.cpp:370-386 | an axis whose self-test response is 0 or below has a deviation of -100 percent or lower, which is below the limit: the check is one-sided, not the +/- 14 the comment at line 293 describes |
| Driver.TestsOutcome | src/MPU9250.cpp:61-89 | ERROR_IMU_ID iff the chip id is not 0x71; ERROR_SELFTEST iff the id is right and the self test fails; ERROR_MAG_ID iff both pass and the AK8963 id is not 0x48; ERROR_NONE iff all three pass |
| Driver.CheckWrites | src/MPU9250.cpp:68-72 | reference definition: the writes of reset followed by those of selfTest |
| Driver.ConfigureWrites | src/MPU9250.cpp:78-86 | reference definition: the writes of initMPU6500, followed by those of initAK8963 when the magnetometer answered |
| Driver.RunTestsWrites | src/MPU9250.cpp:61-89 | reference definition: the writes of runTests up to the step that decided its result, none for a wrong chip id |
| Driver.Mpu9250.constructor | src/MPU9250.cpp:27-38 | the driver records the ranges, mode, divisor and bus choice, with an empty write log |
| Driver.Mpu9250.Read | src/MPU9250.cpp:114 | reference definition: readMPURegister / readAK8963Register on the driver's registers |
| Driver.Mpu9250.WriteRegister | src/MPU9250.cpp:153 | one register write is appended to the log and applied to exactly that register |
| Driver.Mpu9250.WriteAll | src/MPU9250.cpp:41-49 | a sequence of register writes issued in order is appended to the log and replayed onto the registers |
| Driver.Mpu9250.Reset | src/MPU9250.cpp:146-159 | reset appends the reset write sequence for the bus choice and applies it |
| Driver.Mpu9250.PushGyroBiases | src/MPU9250.cpp:41-49 | pushGyroBiases appends and applies the six gyro offset writes |
| Driver.Mpu9250.ReadAccelOffsets | src/MPU9250.cpp:51-59 | each accel_bias_reg entry is the unsigned word of its offset-register pair, in [0, 65535]; data[0..2] end holding the Z pair and the rest of data is untouched |
| Driver.Mpu9250.InitMPU6500 | src/MPU9250.cpp:175-245 | initMPU6500 appends and applies its write sequence, built from the register values it reads |
| Driver.Mpu9250.SetRanges | src/MPU9250.cpp:202-223 | the three read-modify-write updates are computed from the registers as they were read |
| Driver.Mpu9250.InitAK8963 | src/MPU9250.cpp:455-478 | initAK8963 issues its CNTL writes and records the new mode |
| Driver.Mpu9250.GyroMagSleep | src/MPU9250.cpp:407-415 | gyroMagSleep appends and applies its two read-modify-write updates |
| Driver.Mpu9250.GyroMagWake | src/MPU9250.cpp:417-425 | gyroMagWake appends and applies its two writes |
| Driver.Mpu9250.ArmMotion | src/MPU9250.cpp:114-139 | the motion set-up of accelWakeOnMotion appends and applies its seven writes |
| Driver.Mpu9250.AccelWakeOnMotion | src/MPU9250.cpp:109-144 | accelWakeOnMotion is the motion set-up followed by gyroMagSleep |
| Driver.Mpu9250.SelfTest | src/MPU9250.cpp:294-387 | selfTest issues its fixed writes and passes exactly when the sampled averages meet the rule for the factory codes in the registers |
| Driver.Mpu9250.CheckDevice | src/MPU9250.cpp:68-72 | reset then selfTest, with the self-test verdict for the codes the device held |
| Driver.Mpu9250.Configure | src/MPU9250.cpp:78-86 | initMPU6500, then initAK8963 exactly when the magnetometer's WHO_AM_I is 0x48; the mode is unchanged |
| Driver.Mpu9250.RunTests | src/MPU9250.cpp:61-89 | the result is the runTests decision on the chip id, the self-test verdict and the magnetometer id; the log grows by the writes of the steps up to that decision |
| Driver.CheckEffect | src/MPU9250.cpp:68-72 | after reset and selfTest both ranges are cleared, the 92 Hz filters are selected, and the magnetometer id is untouched |
| Driver.CheckKeepsMagId | src/MPU9250.cpp:68-81 | the magnetometer's WHO_AM_I seen by runTests is the one the device had |
| Driver.ConfigureEffect | src/MPU9250.cpp:78-86 | initMPU6500 then initAK8963 leave the clock, divisor, range updates, filter, interrupt and CNTL settings |
| Driver.RunTestsConfigures | src/MPU9250.cpp:61-89 | in the register-file model, a successful runTests leaves GYRO_CONFIG = gscale << 3 and ACCEL_CONFIG = ascale << 3 exactly, ACCEL_CONFIG2 3, CONFIG 3 or 2 by passthru, the divisor, PWR_MGMT_1 1, INT_ENABLE 1 and CNTL = `mscale << 4 \| Mmode` |

## Left out

- Floating point is not modelled:
  - `getMres`, `readTemperature` and the `readMagnetometer` conversion;
  - the float `magCalibration`, `magBias` and `magScale` of `calibrateMagnetometer`, including its unguarded division by a zero half-swing;
  - the sensitivity adjustment `initAK8963` reads from the fuse ROM.
- The model covers the integer bias and half-swing, and computes the factory trim and tolerances of `selfTest` in exact reals, not float.
- SelfTesting.FactoryTrim: exact `2620 * 1.01^(code - 1)`, without float rounding or the `pow` library.
- SelfTesting.Tolerances: exact real deviations, without float rounding; its own contract only fixes their number, and their meaning is stated by ToleranceBelowLimit and PassesIff.
- C++ `int` is taken to be at least 32 bits wide. Decode.OffsetNotSignExtended depends on it: the promoted offset word is never sign-extended. So do the overflow-free sums `max + min` and `max - min` in Magnetometer.HardIron and Magnetometer.HalfSwing.
- `delay()` calls have no logical effect and are left out.
- `src/MPU9250_SPI.cpp` is not part of this model. It is transport plumbing.
- `getAK8963CID` (src/MPU9250.cpp:402-405) is defined in the driver itself. It is one read of AK8963_WHO_AM_I through `readAK8963Register`, modelled by the register read in Driver.Mpu9250.Configure.
- `MPUIMU` base class calls:
  - `calibrate()` in `runTests` is not part of this model. Driver.Mpu9250.RunTests therefore leaves out whatever that call writes.
  - `getId` is a read of WHO_AM_I.
  - `readMPURegister(s)`, `readAK8963Registers` and `writeMPURegister`/`writeAK8963Register` become map lookups and logged map updates.
  - `readGyrometer` and `readRawTemperature` are left out.
- Sensor data arrive as input sequences: the accelerometer and gyro blocks of both self-test phases, and the magnetometer frames of the sweep. The model does not capture registers that change on the device by themselves, or the register contents that a device reset (`PWR_MGMT_1 = 0x80`) restores.
- `checkWakeOnMotion` is a single register read of INT_STATUS bit 6 and is left out.
- The numeric register addresses of `MPU9250.h` are not part of this model. Registers are named symbolically, and the magnetometer's registers are kept apart from the MPU's.
- Magnetometer.CalibrateMagnetometer takes the current magnetometer mode as a parameter and returns the integer bias and half-swing rather than storing float results in the driver.
- Driver.Mpu9250.ReadAccelOffsets reads all six offset registers directly; the two-byte burst read through `data` is modelled as two assignments per pair.
