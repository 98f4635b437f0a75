/** The register writes each driver operation issues, as sequences computed from the
    register contents the operation starts from, and what each sequence leaves in the
    registers. */
module Commands {
  import opened Bits
  import opened Registers

  /** reset: disable the internal I2C master, set PWR_MGMT_1 bit 7, re-enable the master;
      over the auxiliary bus ("passthru") the master is left alone. */
  function ResetWrites(passthru: bool): seq<Write>
  {
    (if passthru then [] else [Write(USER_CTRL, 0)])
    + [Write(PWR_MGMT_1, 0x80)]
    + (if passthru then [] else [Write(USER_CTRL, I2C_MST_EN)])
  }

  /** The six gyroscope offset registers, in the order pushGyroBiases writes them. */
  function GyroOffsetReg(k: nat): Reg
    requires k < 6
  {
    [XG_OFFSET_H, XG_OFFSET_L, YG_OFFSET_H, YG_OFFSET_L, ZG_OFFSET_H, ZG_OFFSET_L][k]
  }

  /** pushGyroBiases: data[0..6] into XG_OFFSET_H .. ZG_OFFSET_L. */
  function GyroBiasWrites(data: seq<byte>): (ws: seq<Write>)
    requires |data| >= 6
    ensures |ws| == 6
    ensures forall k :: 0 <= k < 6 ==> ws[k] == Write(GyroOffsetReg(k), data[k])
  {
    [Write(XG_OFFSET_H, data[0]), Write(XG_OFFSET_L, data[1]), Write(YG_OFFSET_H, data[2]),
     Write(YG_OFFSET_L, data[3]), Write(ZG_OFFSET_H, data[4]), Write(ZG_OFFSET_L, data[5])]
  }

  /** initMPU6500 from the register contents `m` it starts from. In the register-file model the
      three read-modify-write registers are read after writes that never touch them, so their
      values are those of `m`. */
  function InitMpuWrites(m: map<Reg, byte>, ascale: byte, gscale: byte, srd: byte, passthru: bool): seq<Write>
  {
    InitMpuClock(srd, passthru) + RangeWrites(m, ascale, gscale) + InitMpuInterrupts(passthru)
  }

  /** The read-modify-write of the gyroscope range, the accelerometer range and the
      accelerometer filter (41 Hz), from the register contents `m`. */
  function RangeWrites(m: map<Reg, byte>, ascale: byte, gscale: byte): seq<Write>
  {
    [Write(GYRO_CONFIG, GyroConfigUpdate(Lookup(m, GYRO_CONFIG), gscale)),
     Write(ACCEL_CONFIG, AccelConfigUpdate(Lookup(m, ACCEL_CONFIG), ascale)),
     Write(ACCEL_CONFIG2, LowNibbleUpdate(Lookup(m, ACCEL_CONFIG2), 0x03))]
  }

  /** initMPU6500 up to the range settings: reset, PLL clock, the gyro filter over the
      auxiliary bus, and the sample-rate divisor. */
  function InitMpuClock(srd: byte, passthru: bool): seq<Write>
  {
    [Write(PWR_MGMT_1, 0x80), Write(PWR_MGMT_1, 0x01)]
    + (if passthru then [Write(CONFIG, 0x03)] else [])
    + [Write(SMPLRT_DIV, srd)]
  }

  /** initMPU6500 after the range settings: bypass interrupt pin or I2C master, data-ready. */
  function InitMpuInterrupts(passthru: bool): seq<Write>
  {
    (if passthru then [Write(INT_PIN_CFG, 0x12)] else [Write(USER_CTRL, I2C_MST_EN)])
    + [Write(INT_ENABLE, 0x01)]
  }

  /** selfTest, first phase: 1 kHz sampling with the 92 Hz filters at the smallest ranges
      (`1<<FS` with FS = 0). */
  function SelfTestSetup(): seq<Write>
  {
    [Write(SMPLRT_DIV, 0x00), Write(CONFIG, 0x02), Write(GYRO_CONFIG, 0x01),
     Write(ACCEL_CONFIG2, 0x02), Write(ACCEL_CONFIG, 0x01)]
  }

  /** selfTest, second phase: self test enabled on all axes, bits 7:5. */
  function SelfTestEnable(): seq<Write>
  {
    [Write(ACCEL_CONFIG, 0xE0), Write(GYRO_CONFIG, 0xE0)]
  }

  /** selfTest, last phase: both ranges and self-test bits cleared. */
  function SelfTestRestore(): seq<Write>
  {
    [Write(ACCEL_CONFIG, 0x00), Write(GYRO_CONFIG, 0x00)]
  }

  function SelfTestWrites(): seq<Write>
  {
    SelfTestSetup() + SelfTestEnable() + SelfTestRestore()
  }

  /** initAK8963: power down, fuse-ROM access, power down, then resolution and mode. */
  function InitAkWrites(mscale: byte, mmode: byte): seq<Write>
  {
    [Write(AK8963_CNTL, 0x00), Write(AK8963_CNTL, 0x0F), Write(AK8963_CNTL, 0x00),
     Write(AK8963_CNTL, CntlValue(mscale, mmode))]
  }

  /** gyroMagSleep from the register contents `m`. */
  function SleepWrites(m: map<Reg, byte>): seq<Write>
  {
    [Write(AK8963_CNTL, CntlPowerDown(Lookup(m, AK8963_CNTL))),
     Write(PWR_MGMT_1, PwrGyroStandby(Lookup(m, PWR_MGMT_1)))]
  }

  /** gyroMagWake from the register contents `m`: PWR_MGMT_1 is read but overwritten with 0x01. */
  function WakeWrites(m: map<Reg, byte>, mmode: byte): seq<Write>
  {
    [Write(AK8963_CNTL, CntlWake(Lookup(m, AK8963_CNTL), mmode)), Write(PWR_MGMT_1, 0x01)]
  }

  /** The writes of accelWakeOnMotion before its call to gyroMagSleep. */
  function MotionWrites(m: map<Reg, byte>): seq<Write>
  {
    [Write(ACCEL_CONFIG2, LowNibbleUpdate(Lookup(m, ACCEL_CONFIG2), 0x01))]
    + MotionSetup()
    + [Write(PWR_MGMT_1, PwrAccelCycle(Lookup(m, PWR_MGMT_1)))]
  }

  /** Interrupt pin, wake-on-motion interrupt and logic, a 25 mg threshold and a 0.98 Hz
      low-power sample rate. */
  function MotionSetup(): seq<Write>
  {
    [Write(INT_PIN_CFG, 0x12), Write(INT_ENABLE, 0x41), Write(MOT_DETECT_CTRL, 0xC0),
     Write(MOT_THR, 0x19), Write(LP_ACCEL_ODR, 0x02)]
  }

  /** accelWakeOnMotion: the motion set-up, then gyroMagSleep on the registers it left. */
  function WakeOnMotionWrites(m: map<Reg, byte>): seq<Write>
  {
    MotionWrites(m) + SleepWrites(Replay(m, MotionWrites(m)))
  }

  /** The factory self-test codes selfTest reads: X, Y, Z accelerometer, then X, Y, Z gyroscope. */
  function Codes(m: map<Reg, byte>): seq<byte>
  {
    [Lookup(m, SELF_TEST_X_ACCEL), Lookup(m, SELF_TEST_Y_ACCEL), Lookup(m, SELF_TEST_Z_ACCEL),
     Lookup(m, SELF_TEST_X_GYRO), Lookup(m, SELF_TEST_Y_GYRO), Lookup(m, SELF_TEST_Z_GYRO)]
  }

  /** The writes before the range settings leave the three range registers alone. */
  lemma ClockKeepsRanges(m: map<Reg, byte>, ascale: byte, gscale: byte, srd: byte, passthru: bool)
    ensures RangeWrites(Replay(m, InitMpuClock(srd, passthru)), ascale, gscale) == RangeWrites(m, ascale, gscale)
  {
    ReplayOutside(m, InitMpuClock(srd, passthru), {PWR_MGMT_1, CONFIG, SMPLRT_DIV});
  }

  /** selfTest writes only configuration registers, never the factory codes it reads. */
  lemma SelfTestKeepsCodes(m: map<Reg, byte>)
    ensures Codes(Replay(m, SelfTestWrites())) == Codes(m)
  {
    SelfTestEffect(m);
  }
  // ---- What each write sequence leaves in the registers ----

  /** reset sets PWR_MGMT_1 to H_RESET and, with the internal master in use, leaves it
      enabled in USER_CTRL; nothing else is written. */
  lemma ResetEffect(m: map<Reg, byte>, passthru: bool)
    ensures WritesOnly(ResetWrites(passthru), {USER_CTRL, PWR_MGMT_1})
    ensures Lookup(Replay(m, ResetWrites(passthru)), PWR_MGMT_1) == 0x80
    ensures Lookup(Replay(m, ResetWrites(passthru)), USER_CTRL)
            == (if passthru then Lookup(m, USER_CTRL) else I2C_MST_EN)
    ensures forall r :: r != USER_CTRL && r != PWR_MGMT_1 ==>
              Lookup(Replay(m, ResetWrites(passthru)), r) == Lookup(m, r)
  {
    var ws := ResetWrites(passthru);
    if passthru {
      assert ws == [Write(PWR_MGMT_1, 0x80)];
      ReplayLastWrite(m, ws, 0);
      ReplayOutside(m, ws, {PWR_MGMT_1});
    } else {
      assert ws == [Write(USER_CTRL, 0), Write(PWR_MGMT_1, 0x80), Write(USER_CTRL, I2C_MST_EN)];
      ReplayLastWrite(m, ws, 1);
      ReplayLastWrite(m, ws, 2);
    }
    ReplayOutside(m, ws, {USER_CTRL, PWR_MGMT_1});
  }

  /** The gyroscope offset registers. */
  const GyroOffsetRegs: set<Reg> := {XG_OFFSET_H, XG_OFFSET_L, YG_OFFSET_H, YG_OFFSET_L, ZG_OFFSET_H, ZG_OFFSET_L}

  /** pushGyroBiases loads the six gyroscope offset registers from data[0..6] and writes
      nothing else. */
  lemma GyroBiasEffect(m: map<Reg, byte>, data: seq<byte>)
    requires |data| >= 6
    ensures var f := Replay(m, GyroBiasWrites(data));
      && Lookup(f, XG_OFFSET_H) == data[0] && Lookup(f, XG_OFFSET_L) == data[1]
      && Lookup(f, YG_OFFSET_H) == data[2] && Lookup(f, YG_OFFSET_L) == data[3]
      && Lookup(f, ZG_OFFSET_H) == data[4] && Lookup(f, ZG_OFFSET_L) == data[5]
    ensures forall r :: r !in GyroOffsetRegs ==> Lookup(Replay(m, GyroBiasWrites(data)), r) == Lookup(m, r)
  {
    var x := [Write(XG_OFFSET_H, data[0]), Write(XG_OFFSET_L, data[1]), Write(YG_OFFSET_H, data[2])];
    var y := [Write(YG_OFFSET_L, data[3]), Write(ZG_OFFSET_H, data[4]), Write(ZG_OFFSET_L, data[5])];
    assert GyroBiasWrites(data) == x + y;
    ReplayAppend(m, x, y);
    ReplayThree(m, x[0], x[1], x[2]);
    ReplayThree(Replay(m, x), y[0], y[1], y[2]);
  }

  /** The first part of initMPU6500: PWR_MGMT_1 ends at the PLL clock source, SMPLRT_DIV holds
      the divisor, and CONFIG is set to the 41 Hz filter only over the auxiliary bus. */
  lemma ClockEffect(m: map<Reg, byte>, srd: byte, passthru: bool)
    ensures WritesOnly(InitMpuClock(srd, passthru), {PWR_MGMT_1, CONFIG, SMPLRT_DIV})
    ensures Lookup(Replay(m, InitMpuClock(srd, passthru)), PWR_MGMT_1) == 0x01
    ensures Lookup(Replay(m, InitMpuClock(srd, passthru)), SMPLRT_DIV) == srd
    ensures Lookup(Replay(m, InitMpuClock(srd, passthru)), CONFIG) == (if passthru then 0x03 else Lookup(m, CONFIG))
  {
    var ws := InitMpuClock(srd, passthru);
    if passthru {
      assert ws == [Write(PWR_MGMT_1, 0x80), Write(PWR_MGMT_1, 0x01), Write(CONFIG, 0x03), Write(SMPLRT_DIV, srd)];
      ReplayLastWrite(m, ws, 1);
      ReplayLastWrite(m, ws, 2);
      ReplayLastWrite(m, ws, 3);
    } else {
      assert ws == [Write(PWR_MGMT_1, 0x80), Write(PWR_MGMT_1, 0x01), Write(SMPLRT_DIV, srd)];
      ReplayLastWrite(m, ws, 1);
      ReplayLastWrite(m, ws, 2);
      ReplayOutside(m, ws, {PWR_MGMT_1, SMPLRT_DIV});
    }
  }

  /** The read-modify-write part of initMPU6500 leaves the updated values in the three range
      registers. */
  lemma RangeEffect(m: map<Reg, byte>, ascale: byte, gscale: byte)
    ensures WritesOnly(RangeWrites(m, ascale, gscale), {GYRO_CONFIG, ACCEL_CONFIG, ACCEL_CONFIG2})
    ensures Lookup(Replay(m, RangeWrites(m, ascale, gscale)), GYRO_CONFIG) == GyroConfigUpdate(Lookup(m, GYRO_CONFIG), gscale)
    ensures Lookup(Replay(m, RangeWrites(m, ascale, gscale)), ACCEL_CONFIG) == AccelConfigUpdate(Lookup(m, ACCEL_CONFIG), ascale)
    ensures Lookup(Replay(m, RangeWrites(m, ascale, gscale)), ACCEL_CONFIG2) == LowNibbleUpdate(Lookup(m, ACCEL_CONFIG2), 0x03)
  {
    var ws := RangeWrites(m, ascale, gscale);
    ReplayLastWrite(m, ws, 0);
    ReplayLastWrite(m, ws, 1);
    ReplayLastWrite(m, ws, 2);
  }

  /** The last part of initMPU6500: the data-ready interrupt, and either the bypass pin
      configuration or the internal I2C master. */
  lemma InterruptEffect(m: map<Reg, byte>, passthru: bool)
    ensures WritesOnly(InitMpuInterrupts(passthru), {INT_PIN_CFG, USER_CTRL, INT_ENABLE})
    ensures Lookup(Replay(m, InitMpuInterrupts(passthru)), INT_ENABLE) == 0x01
    ensures Lookup(Replay(m, InitMpuInterrupts(passthru)), INT_PIN_CFG) == (if passthru then 0x12 else Lookup(m, INT_PIN_CFG))
    ensures Lookup(Replay(m, InitMpuInterrupts(passthru)), USER_CTRL) == (if passthru then Lookup(m, USER_CTRL) else I2C_MST_EN)
  {
    var ws := InitMpuInterrupts(passthru);
    ReplayLastWrite(m, ws, 0);
    ReplayLastWrite(m, ws, 1);
    if passthru {
      ReplayOutside(m, ws, {INT_PIN_CFG, INT_ENABLE});
    } else {
      ReplayOutside(m, ws, {USER_CTRL, INT_ENABLE});
    }
  }

  /** One register that a log does not write keeps its value. */
  lemma Keeps(m: map<Reg, byte>, ws: seq<Write>, s: set<Reg>, r: Reg)
    requires WritesOnly(ws, s) && r !in s
    ensures Lookup(Replay(m, ws), r) == Lookup(m, r)
  {
    ReplayOutside(m, ws, s);
  }

  /** The registers initMPU6500 may write. */
  const InitMpuRegs: set<Reg> :=
    {PWR_MGMT_1, CONFIG, SMPLRT_DIV, GYRO_CONFIG, ACCEL_CONFIG, ACCEL_CONFIG2, INT_PIN_CFG, USER_CTRL, INT_ENABLE}

  /** initMPU6500 as a whole: the clock, divisor, ranges, filters and interrupt settings. */
  lemma InitMpuEffect(m: map<Reg, byte>, ascale: byte, gscale: byte, srd: byte, passthru: bool)
    ensures var f := Replay(m, InitMpuWrites(m, ascale, gscale, srd, passthru));
      && Lookup(f, PWR_MGMT_1) == 0x01
      && Lookup(f, SMPLRT_DIV) == srd
      && Lookup(f, CONFIG) == (if passthru then 0x03 else Lookup(m, CONFIG))
      && Lookup(f, GYRO_CONFIG) == GyroConfigUpdate(Lookup(m, GYRO_CONFIG), gscale)
      && Lookup(f, ACCEL_CONFIG) == AccelConfigUpdate(Lookup(m, ACCEL_CONFIG), ascale)
      && Lookup(f, ACCEL_CONFIG2) == LowNibbleUpdate(Lookup(m, ACCEL_CONFIG2), 0x03)
      && Lookup(f, INT_ENABLE) == 0x01
      && Lookup(f, INT_PIN_CFG) == (if passthru then 0x12 else Lookup(m, INT_PIN_CFG))
      && Lookup(f, USER_CTRL) == (if passthru then Lookup(m, USER_CTRL) else I2C_MST_EN)
  {
    InitMpuStages(m, ascale, gscale, srd, passthru);
    ClockThrough(m, ascale, gscale, srd, passthru);
    RangesThrough(m, ascale, gscale, srd, passthru);
    InterruptsThrough(m, ascale, gscale, srd, passthru);
  }

  /** The clock registers of initMPU6500 survive its later stages. */
  lemma ClockThrough(m: map<Reg, byte>, ascale: byte, gscale: byte, srd: byte, passthru: bool)
    ensures var m1 := Replay(m, InitMpuClock(srd, passthru));
      var f := Replay(Replay(m1, RangeWrites(m1, ascale, gscale)), InitMpuInterrupts(passthru));
      && Lookup(f, PWR_MGMT_1) == 0x01
      && Lookup(f, SMPLRT_DIV) == srd
      && Lookup(f, CONFIG) == (if passthru then 0x03 else Lookup(m, CONFIG))
  {
    var sg, si := {GYRO_CONFIG, ACCEL_CONFIG, ACCEL_CONFIG2}, {INT_PIN_CFG, USER_CTRL, INT_ENABLE};
    var m1 := Replay(m, InitMpuClock(srd, passthru));
    var g := RangeWrites(m1, ascale, gscale);
    var m2 := Replay(m1, g);
    ClockEffect(m, srd, passthru);
    RangeEffect(m1, ascale, gscale);
    InterruptEffect(m2, passthru);
    Keeps(m1, g, sg, PWR_MGMT_1);  Keeps(m2, InitMpuInterrupts(passthru), si, PWR_MGMT_1);
    Keeps(m1, g, sg, SMPLRT_DIV);  Keeps(m2, InitMpuInterrupts(passthru), si, SMPLRT_DIV);
    Keeps(m1, g, sg, CONFIG);      Keeps(m2, InitMpuInterrupts(passthru), si, CONFIG);
  }

  /** The range registers of initMPU6500 are updated from their values before its first stage
      and survive its last one. */
  lemma RangesThrough(m: map<Reg, byte>, ascale: byte, gscale: byte, srd: byte, passthru: bool)
    ensures var m1 := Replay(m, InitMpuClock(srd, passthru));
      var f := Replay(Replay(m1, RangeWrites(m1, ascale, gscale)), InitMpuInterrupts(passthru));
      && Lookup(f, GYRO_CONFIG) == GyroConfigUpdate(Lookup(m, GYRO_CONFIG), gscale)
      && Lookup(f, ACCEL_CONFIG) == AccelConfigUpdate(Lookup(m, ACCEL_CONFIG), ascale)
      && Lookup(f, ACCEL_CONFIG2) == LowNibbleUpdate(Lookup(m, ACCEL_CONFIG2), 0x03)
  {
    var si := {INT_PIN_CFG, USER_CTRL, INT_ENABLE};
    var m1 := Replay(m, InitMpuClock(srd, passthru));
    var m2 := Replay(m1, RangeWrites(m1, ascale, gscale));
    ClockKeepsRanges(m, ascale, gscale, srd, passthru);
    RangeEffect(m1, ascale, gscale);
    InterruptEffect(m2, passthru);
    Keeps(m2, InitMpuInterrupts(passthru), si, GYRO_CONFIG);
    Keeps(m2, InitMpuInterrupts(passthru), si, ACCEL_CONFIG);
    Keeps(m2, InitMpuInterrupts(passthru), si, ACCEL_CONFIG2);
  }

  /** The interrupt registers of initMPU6500 are set by its last stage only. */
  lemma InterruptsThrough(m: map<Reg, byte>, ascale: byte, gscale: byte, srd: byte, passthru: bool)
    ensures var m1 := Replay(m, InitMpuClock(srd, passthru));
      var f := Replay(Replay(m1, RangeWrites(m1, ascale, gscale)), InitMpuInterrupts(passthru));
      && Lookup(f, INT_ENABLE) == 0x01
      && Lookup(f, INT_PIN_CFG) == (if passthru then 0x12 else Lookup(m, INT_PIN_CFG))
      && Lookup(f, USER_CTRL) == (if passthru then Lookup(m, USER_CTRL) else I2C_MST_EN)
  {
    var sc, sg := {PWR_MGMT_1, CONFIG, SMPLRT_DIV}, {GYRO_CONFIG, ACCEL_CONFIG, ACCEL_CONFIG2};
    var c := InitMpuClock(srd, passthru);
    var m1 := Replay(m, c);
    var g := RangeWrites(m1, ascale, gscale);
    var m2 := Replay(m1, g);
    ClockEffect(m, srd, passthru);
    RangeEffect(m1, ascale, gscale);
    InterruptEffect(m2, passthru);
    Keeps(m, c, sc, INT_PIN_CFG);  Keeps(m1, g, sg, INT_PIN_CFG);
    Keeps(m, c, sc, USER_CTRL);    Keeps(m1, g, sg, USER_CTRL);
  }

  /** initMPU6500 replayed as its three stages, each from the registers the previous one left. */
  lemma InitMpuStages(m: map<Reg, byte>, ascale: byte, gscale: byte, srd: byte, passthru: bool)
    ensures var m1 := Replay(m, InitMpuClock(srd, passthru));
      Replay(m, InitMpuWrites(m, ascale, gscale, srd, passthru))
      == Replay(Replay(m1, RangeWrites(m1, ascale, gscale)), InitMpuInterrupts(passthru))
  {
    var c, g, i := InitMpuClock(srd, passthru), RangeWrites(m, ascale, gscale), InitMpuInterrupts(passthru);
    ReplayAppend(m, c, g);
    ReplayAppend(m, c + g, i);
    ClockKeepsRanges(m, ascale, gscale, srd, passthru);
  }

  /** initMPU6500 writes only the registers it configures; every other register keeps its value. */
  lemma InitMpuFrame(m: map<Reg, byte>, ascale: byte, gscale: byte, srd: byte, passthru: bool)
    ensures WritesOnly(InitMpuWrites(m, ascale, gscale, srd, passthru), InitMpuRegs)
    ensures forall r :: r !in InitMpuRegs ==> Lookup(Replay(m, InitMpuWrites(m, ascale, gscale, srd, passthru)), r) == Lookup(m, r)
  {
    var c, g, i := InitMpuClock(srd, passthru), RangeWrites(m, ascale, gscale), InitMpuInterrupts(passthru);
    ClockEffect(m, srd, passthru);
    RangeEffect(m, ascale, gscale);
    InterruptEffect(m, passthru);
    WritesOnlyAppend(c, g, {PWR_MGMT_1, CONFIG, SMPLRT_DIV}, {GYRO_CONFIG, ACCEL_CONFIG, ACCEL_CONFIG2});
    WritesOnlyAppend(c + g, i, {PWR_MGMT_1, CONFIG, SMPLRT_DIV} + {GYRO_CONFIG, ACCEL_CONFIG, ACCEL_CONFIG2},
                     {INT_PIN_CFG, USER_CTRL, INT_ENABLE});
    ReplayOutside(m, c + g + i, InitMpuRegs);
  }

  /** reset leaves the factory self-test codes alone. */
  lemma ResetKeepsCodes(m: map<Reg, byte>, passthru: bool)
    ensures Codes(Replay(m, ResetWrites(passthru))) == Codes(m)
  {
    ResetEffect(m, passthru);
  }

  /** The registers selfTest writes. */
  const SelfTestRegs: set<Reg> := {SMPLRT_DIV, CONFIG, GYRO_CONFIG, ACCEL_CONFIG, ACCEL_CONFIG2}

  /** selfTest leaves the device at a 1 kHz sample rate with the 92 Hz filters, and with both
      ranges and all self-test bits cleared; it writes nothing else. */
  lemma SelfTestEffect(m: map<Reg, byte>)
    ensures var f := Replay(m, SelfTestWrites());
      && Lookup(f, SMPLRT_DIV) == 0x00 && Lookup(f, CONFIG) == 0x02 && Lookup(f, ACCEL_CONFIG2) == 0x02
      && Lookup(f, ACCEL_CONFIG) == 0x00 && Lookup(f, GYRO_CONFIG) == 0x00
    ensures forall r :: r !in SelfTestRegs ==> Lookup(Replay(m, SelfTestWrites()), r) == Lookup(m, r)
  {
    var a := [Write(SMPLRT_DIV, 0x00), Write(CONFIG, 0x02), Write(GYRO_CONFIG, 0x01)];
    var b := [Write(ACCEL_CONFIG2, 0x02), Write(ACCEL_CONFIG, 0x01)];
    var e, r := SelfTestEnable(), SelfTestRestore();
    assert SelfTestSetup() == a + b;
    ReplayAppend(m, a, b);
    ReplayAppend(m, a + b, e);
    ReplayAppend(m, a + b + e, r);
    ReplayThree(m, a[0], a[1], a[2]);
    ReplayTwo(Replay(m, a), b[0], b[1]);
    ReplayTwo(Replay(m, a + b), e[0], e[1]);
    ReplayTwo(Replay(m, a + b + e), r[0], r[1]);
  }

  /** initAK8963 leaves CNTL at the requested resolution and mode and writes nothing else. */
  lemma InitAkEffect(m: map<Reg, byte>, mscale: byte, mmode: byte)
    ensures Lookup(Replay(m, InitAkWrites(mscale, mmode)), AK8963_CNTL) == CntlValue(mscale, mmode)
    ensures forall r :: r != AK8963_CNTL ==> Lookup(Replay(m, InitAkWrites(mscale, mmode)), r) == Lookup(m, r)
  {
    ReplayLastWrite(m, InitAkWrites(mscale, mmode), 3);
    ReplayOutside(m, InitAkWrites(mscale, mmode), {AK8963_CNTL});
  }

  /** gyroMagSleep powers the magnetometer down and puts the gyroscope in standby, leaving the
      other bits of both registers and every other register as they were. */
  lemma SleepEffect(m: map<Reg, byte>)
    ensures Lookup(Replay(m, SleepWrites(m)), AK8963_CNTL) == CntlPowerDown(Lookup(m, AK8963_CNTL))
    ensures Lookup(Replay(m, SleepWrites(m)), PWR_MGMT_1) == PwrGyroStandby(Lookup(m, PWR_MGMT_1))
    ensures forall r :: r != AK8963_CNTL && r != PWR_MGMT_1 ==> Lookup(Replay(m, SleepWrites(m)), r) == Lookup(m, r)
  {
    ReplayLastWrite(m, SleepWrites(m), 0);
    ReplayLastWrite(m, SleepWrites(m), 1);
    ReplayOutside(m, SleepWrites(m), {AK8963_CNTL, PWR_MGMT_1});
  }

  /** gyroMagWake ORs the mode into CNTL and selects the PLL clock with the gyroscope awake. */
  lemma WakeEffect(m: map<Reg, byte>, mmode: byte)
    ensures Lookup(Replay(m, WakeWrites(m, mmode)), AK8963_CNTL) == CntlWake(Lookup(m, AK8963_CNTL), mmode)
    ensures Lookup(Replay(m, WakeWrites(m, mmode)), PWR_MGMT_1) == 0x01
    ensures forall r :: r != AK8963_CNTL && r != PWR_MGMT_1 ==> Lookup(Replay(m, WakeWrites(m, mmode)), r) == Lookup(m, r)
  {
    ReplayLastWrite(m, WakeWrites(m, mmode), 0);
    ReplayLastWrite(m, WakeWrites(m, mmode), 1);
    ReplayOutside(m, WakeWrites(m, mmode), {AK8963_CNTL, PWR_MGMT_1});
  }

  /** Waking after a sleep runs the magnetometer in exactly the requested mode, and restores
      PWR_MGMT_1 to the PLL clock with the standby bit cleared. */
  lemma SleepThenWake(m: map<Reg, byte>, mmode: byte)
    requires mmode <= 0x0F
    ensures var s := Replay(m, SleepWrites(m));
      var w := Replay(s, WakeWrites(s, mmode));
      && Lookup(w, AK8963_CNTL) & 0x0F == mmode
      && Lookup(w, AK8963_CNTL) & 0xF0 == Lookup(m, AK8963_CNTL) & 0xF0
      && Lookup(w, PWR_MGMT_1) == 0x01
  {
    var s := Replay(m, SleepWrites(m));
    SleepEffect(m);
    WakeEffect(s, mmode);
    WakeAfterSleep(Lookup(m, AK8963_CNTL), mmode);
  }

  /** The registers accelWakeOnMotion configures before it sleeps. */
  const MotionRegs: set<Reg> := {ACCEL_CONFIG2, INT_PIN_CFG, INT_ENABLE, MOT_DETECT_CTRL, MOT_THR, LP_ACCEL_ODR, PWR_MGMT_1}

  /** The motion set-up of accelWakeOnMotion: the 1 kHz, 184 Hz accelerometer filter, the
      motion interrupt with a 25 mg threshold, 0.98 Hz wake-ups, and the accelerometer cycling;
      nothing else is written. */
  lemma MotionEffect(m: map<Reg, byte>)
    ensures var f := Replay(m, MotionWrites(m));
      && Lookup(f, ACCEL_CONFIG2) == LowNibbleUpdate(Lookup(m, ACCEL_CONFIG2), 0x01)
      && Lookup(f, INT_PIN_CFG) == 0x12 && Lookup(f, INT_ENABLE) == 0x41
      && Lookup(f, MOT_DETECT_CTRL) == 0xC0 && Lookup(f, MOT_THR) == 0x19 && Lookup(f, LP_ACCEL_ODR) == 0x02
      && Lookup(f, PWR_MGMT_1) == PwrAccelCycle(Lookup(m, PWR_MGMT_1))
      && forall r :: r !in MotionRegs ==> Lookup(f, r) == Lookup(m, r)
  {
    MotionShape(m, LowNibbleUpdate(Lookup(m, ACCEL_CONFIG2), 0x01), PwrAccelCycle(Lookup(m, PWR_MGMT_1)));
  }

  /** The writes of accelWakeOnMotion before its sleep, for any filter and power values. */
  lemma MotionShape(m: map<Reg, byte>, filter: byte, power: byte)
    ensures var f := Replay(m, [Write(ACCEL_CONFIG2, filter)] + MotionSetup() + [Write(PWR_MGMT_1, power)]);
      && Lookup(f, ACCEL_CONFIG2) == filter
      && Lookup(f, INT_PIN_CFG) == 0x12 && Lookup(f, INT_ENABLE) == 0x41
      && Lookup(f, MOT_DETECT_CTRL) == 0xC0 && Lookup(f, MOT_THR) == 0x19 && Lookup(f, LP_ACCEL_ODR) == 0x02
      && Lookup(f, PWR_MGMT_1) == power
      && forall r :: r !in MotionRegs ==> Lookup(f, r) == Lookup(m, r)
  {
    var w := [Write(ACCEL_CONFIG2, filter)];
    var m0 := Replay(m, w);
    var m1 := Replay(m0, MotionSetup());
    ReplayOne(m, w[0]);
    ReplayAppend(m, w, MotionSetup());
    ReplaySnoc(m, w + MotionSetup(), Write(PWR_MGMT_1, power));
    assert Replay(m, w + MotionSetup() + [Write(PWR_MGMT_1, power)]) == m1[PWR_MGMT_1 := power];
    SetupEffect(m0);
    assert Lookup(m1, ACCEL_CONFIG2) == filter;
    forall r | r !in MotionRegs ensures Lookup(m1[PWR_MGMT_1 := power], r) == Lookup(m, r) {
      assert r !in SetupRegs && r != ACCEL_CONFIG2;
    }
  }

  /** The registers of the interrupt and motion-threshold writes of accelWakeOnMotion. */
  const SetupRegs: set<Reg> := {INT_PIN_CFG, INT_ENABLE, MOT_DETECT_CTRL, MOT_THR, LP_ACCEL_ODR}

  /** The interrupt and motion-threshold writes of accelWakeOnMotion, each to its own register. */
  lemma SetupEffect(m: map<Reg, byte>)
    ensures var f := Replay(m, MotionSetup());
      && Lookup(f, INT_PIN_CFG) == 0x12 && Lookup(f, INT_ENABLE) == 0x41
      && Lookup(f, MOT_DETECT_CTRL) == 0xC0 && Lookup(f, MOT_THR) == 0x19 && Lookup(f, LP_ACCEL_ODR) == 0x02
    ensures forall r :: r !in SetupRegs ==> Lookup(Replay(m, MotionSetup()), r) == Lookup(m, r)
  {
    var a := [Write(INT_PIN_CFG, 0x12), Write(INT_ENABLE, 0x41), Write(MOT_DETECT_CTRL, 0xC0)];
    var b := [Write(MOT_THR, 0x19), Write(LP_ACCEL_ODR, 0x02)];
    assert MotionSetup() == a + b;
    ReplayAppend(m, a, b);
    ReplayThree(m, a[0], a[1], a[2]);
    ReplayTwo(Replay(m, a), b[0], b[1]);
  }

  /** accelWakeOnMotion ends with the accelerometer cycling, the gyroscope in standby, the
      magnetometer powered down with its upper CNTL nibble kept, and the motion interrupt armed
      (wake-on-motion logic enabled, threshold, wake-up rate and interrupt configuration set);
      no other register changes. */
  lemma WakeOnMotionEffect(m: map<Reg, byte>)
    ensures var f := Replay(m, WakeOnMotionWrites(m));
      && Lookup(f, PWR_MGMT_1) & 0x30 == 0x30
      && Lookup(f, PWR_MGMT_1) & 0xCF == Lookup(m, PWR_MGMT_1) & 0xCF
      && Lookup(f, AK8963_CNTL) == CntlPowerDown(Lookup(m, AK8963_CNTL))
      && Lookup(f, AK8963_CNTL) & 0x0F == 0
      && Lookup(f, ACCEL_CONFIG2) == LowNibbleUpdate(Lookup(m, ACCEL_CONFIG2), 0x01)
      && Lookup(f, INT_PIN_CFG) == 0x12 && Lookup(f, MOT_DETECT_CTRL) == 0xC0
      && Lookup(f, INT_ENABLE) == 0x41 && Lookup(f, MOT_THR) == 0x19 && Lookup(f, LP_ACCEL_ODR) == 0x02
      && forall r :: r !in MotionRegs && r != AK8963_CNTL ==> Lookup(f, r) == Lookup(m, r)
  {
    var m1 := Replay(m, MotionWrites(m));
    ReplayAppend(m, MotionWrites(m), SleepWrites(m1));
    MotionEffect(m);
    SleepAfterMotion(m, m1);
    var p := Lookup(m, PWR_MGMT_1);
    assert PwrGyroStandby(PwrAccelCycle(p)) == p | 0x30;
  }

  /** The sleep at the end of accelWakeOnMotion, from registers `m1` that differ from `m` only
      in the motion registers: it touches CNTL and PWR_MGMT_1 and keeps the motion set-up. */
  lemma SleepAfterMotion(m: map<Reg, byte>, m1: map<Reg, byte>)
    requires forall r :: r !in MotionRegs ==> Lookup(m1, r) == Lookup(m, r)
    ensures var f := Replay(m1, SleepWrites(m1));
      && Lookup(f, PWR_MGMT_1) == PwrGyroStandby(Lookup(m1, PWR_MGMT_1))
      && Lookup(f, AK8963_CNTL) == CntlPowerDown(Lookup(m, AK8963_CNTL))
      && (forall r :: r != AK8963_CNTL && r != PWR_MGMT_1 ==> Lookup(f, r) == Lookup(m1, r))
      && (forall r :: r !in MotionRegs && r != AK8963_CNTL ==> Lookup(f, r) == Lookup(m, r))
  {
    SleepEffect(m1);
    assert Lookup(m1, AK8963_CNTL) == Lookup(m, AK8963_CNTL);
  }

}
