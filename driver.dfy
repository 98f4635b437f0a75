/** The MPU9250 driver object: the configuration it was constructed with, the device's
    registers as seen through the driver, and the log of every register write it issues. Each
    operation of the driver appends a fixed, or register-dependent, sequence of writes. */
module Driver {
  import opened Bits
  import opened Decode
  import opened Registers
  import opened Commands
  import opened SelfTesting

  /** WHO_AM_I of an MPU9250 and of its AK8963 magnetometer. */
  const IMU_ID: byte := 0x71
  const MAG_ID: byte := 0x48

  /** MPUIMU::Error_t as returned by runTests. */
  datatype Error = ErrorNone | ErrorImuId | ErrorMagId | ErrorSelfTest

  /** runTests' decision order: chip id first, then the self test, then the magnetometer id. */
  function TestsOutcome(id: byte, selfTestPassed: bool, magId: byte): (e: Error)
    ensures e == ErrorImuId <==> id != IMU_ID
    ensures e == ErrorSelfTest <==> id == IMU_ID && !selfTestPassed
    ensures e == ErrorMagId <==> id == IMU_ID && selfTestPassed && magId != MAG_ID
    ensures e == ErrorNone <==> id == IMU_ID && selfTestPassed && magId == MAG_ID
  {
    if id != IMU_ID then ErrorImuId
    else if !selfTestPassed then ErrorSelfTest
    else if magId != MAG_ID then ErrorMagId
    else ErrorNone
  }

  /** The writes of reset followed by selfTest. */
  function CheckWrites(passthru: bool): seq<Write>
  {
    ResetWrites(passthru) + SelfTestWrites()
  }

  /** The writes of runTests after the self test passed, from the register contents `m`:
      initMPU6500, then initAK8963 when the magnetometer answered. */
  function ConfigureWrites(m: map<Reg, byte>, ascale: byte, gscale: byte, mscale: byte, mmode: byte, srd: byte,
                           passthru: bool, magFound: bool): seq<Write>
  {
    InitMpuWrites(m, ascale, gscale, srd, passthru) + (if magFound then InitAkWrites(mscale, mmode) else [])
  }

  /** The writes of runTests from the register contents `m`, up to the step that produced `e`. */
  function RunTestsWrites(m: map<Reg, byte>, ascale: byte, gscale: byte, mscale: byte, mmode: byte, srd: byte,
                          passthru: bool, e: Error): seq<Write>
  {
    if e == ErrorImuId then []
    else if e == ErrorSelfTest then CheckWrites(passthru)
    else CheckWrites(passthru) + ConfigureWrites(Replay(m, CheckWrites(passthru)), ascale, gscale, mscale, mmode, srd,
                                                 passthru, e == ErrorNone)
  }

  // ---- The driver object ----

  class Mpu9250 {
    /** Ascale_t, Gscale_t, Mscale_t, the sample-rate divisor and the bus choice. */
    const aScale: byte
    const gScale: byte
    const mScale: byte
    const sampleRateDivisor: byte
    const passthru: bool
    /** Mmode_t, reassigned by initAK8963. */
    var mMode: byte

    /** The registers as the driver last left them, and the writes it issued, oldest first. */
    var regs: map<Reg, byte>
    var log: seq<Write>
    ghost var initial: map<Reg, byte>

    /** The registers are the power-up contents with the logged writes applied. */
    ghost predicate Valid()
      reads this
    {
      regs == Replay(initial, log)
    }

    /** readMPURegister / readAK8963Register. */
    function Read(r: Reg): byte
      reads this
    {
      Lookup(regs, r)
    }

    /** The constructor, on a device whose registers hold `power`. */
    constructor (ascale: byte, gscale: byte, mscale: byte, mmode: byte, srd: byte, bypass: bool,
                 power: map<Reg, byte>)
      ensures Valid() && log == [] && regs == power
      ensures aScale == ascale && gScale == gscale && mScale == mscale && mMode == mmode
      ensures sampleRateDivisor == srd && passthru == bypass
    {
      aScale, gScale, mScale, mMode := ascale, gscale, mscale, mmode;
      sampleRateDivisor, passthru := srd, bypass;
      regs, log, initial := power, [], power;
    }

    /** writeMPURegister / writeAK8963Register: one register write, logged. */
    method WriteRegister(r: Reg, v: byte)
      requires Valid()
      modifies this`regs, this`log
      ensures Valid()
      ensures log == old(log) + [Write(r, v)] && regs == old(regs)[r := v]
    {
      ReplaySnoc(initial, log, Write(r, v));
      regs := regs[r := v];
      log := log + [Write(r, v)];
    }

    /** After appending `ws` to a valid state's log, the registers are `ws` replayed. */
    lemma Appended(ws: seq<Write>, before: seq<Write>, start: map<Reg, byte>)
      requires Valid() && log == before + ws && start == Replay(initial, before)
      ensures regs == Replay(start, ws)
    {
      ReplayAppend(initial, before, ws);
    }

    method Reset()
      requires Valid()
      modifies this`regs, this`log
      ensures Valid()
      ensures log == old(log) + ResetWrites(passthru) && regs == Replay(old(regs), ResetWrites(passthru))
    {
      if !passthru {
        WriteRegister(USER_CTRL, 0);
      }
      WriteRegister(PWR_MGMT_1, 0x80);
      if !passthru {
        WriteRegister(USER_CTRL, I2C_MST_EN);
      }
      Appended(ResetWrites(passthru), old(log), old(regs));
    }

    method PushGyroBiases(data: seq<byte>)
      requires Valid() && |data| >= 6
      modifies this`regs, this`log
      ensures Valid()
      ensures log == old(log) + GyroBiasWrites(data) && regs == Replay(old(regs), GyroBiasWrites(data))
    {
      WriteAll(GyroBiasWrites(data));
    }

    /** readAccelOffsets: each pair of factory offset registers passes through data[0..2] and is
        assembled without sign extension; data[0..2] end up holding the Z pair. */
    method ReadAccelOffsets(data: array<byte>) returns (accelBiasReg: seq<int>)
      requires data.Length >= 2
      modifies data
      ensures |accelBiasReg| == 3
      ensures accelBiasReg[0] == Read(XA_OFFSET_H) as int * 0x100 + Read(XA_OFFSET_L) as int
      ensures accelBiasReg[1] == Read(YA_OFFSET_H) as int * 0x100 + Read(YA_OFFSET_L) as int
      ensures accelBiasReg[2] == Read(ZA_OFFSET_H) as int * 0x100 + Read(ZA_OFFSET_L) as int
      ensures forall i :: 0 <= i < 3 ==> 0 <= accelBiasReg[i] < 0x1_0000
      ensures data[0] == Read(ZA_OFFSET_H) && data[1] == Read(ZA_OFFSET_L)
      ensures data[2..] == old(data[2..])
    {
      var hi, lo := Read(XA_OFFSET_H), Read(XA_OFFSET_L);
      data[0], data[1] := hi, lo;
      var x := Assemble(data[0], data[1]);
      hi, lo := Read(YA_OFFSET_H), Read(YA_OFFSET_L);
      data[0], data[1] := hi, lo;
      var y := Assemble(data[0], data[1]);
      hi, lo := Read(ZA_OFFSET_H), Read(ZA_OFFSET_L);
      data[0], data[1] := hi, lo;
      var z := Assemble(data[0], data[1]);
      accelBiasReg := [x, y, z];
    }

    method InitMPU6500(ascale: byte, gscale: byte, srd: byte, bypass: bool)
      requires Valid()
      modifies this`regs, this`log
      ensures Valid()
      ensures log == old(log) + InitMpuWrites(old(regs), ascale, gscale, srd, bypass)
      ensures regs == Replay(old(regs), InitMpuWrites(old(regs), ascale, gscale, srd, bypass))
    {
      WriteAll(InitMpuClock(srd, bypass));
      SetRanges(ascale, gscale);
      WriteAll(InitMpuInterrupts(bypass));
      ClockKeepsRanges(old(regs), ascale, gscale, srd, bypass);
      assert log == old(log) + InitMpuWrites(old(regs), ascale, gscale, srd, bypass);
      Appended(InitMpuWrites(old(regs), ascale, gscale, srd, bypass), old(log), old(regs));
    }

    /** The read-modify-write part of initMPU6500. */
    method SetRanges(ascale: byte, gscale: byte)
      requires Valid()
      modifies this`regs, this`log
      ensures Valid()
      ensures log == old(log) + RangeWrites(old(regs), ascale, gscale)
      ensures regs == Replay(old(regs), RangeWrites(old(regs), ascale, gscale))
    {
      var c := Read(GYRO_CONFIG);
      WriteRegister(GYRO_CONFIG, GyroConfigUpdate(c, gscale));
      ghost var first := Write(GYRO_CONFIG, GyroConfigUpdate(c, gscale));
      c := Read(ACCEL_CONFIG);
      assert c == Lookup(old(regs), ACCEL_CONFIG);
      WriteRegister(ACCEL_CONFIG, AccelConfigUpdate(c, ascale));
      ghost var second := Write(ACCEL_CONFIG, AccelConfigUpdate(c, ascale));
      c := Read(ACCEL_CONFIG2);
      assert c == Lookup(old(regs), ACCEL_CONFIG2);
      WriteRegister(ACCEL_CONFIG2, LowNibbleUpdate(c, 0x03));
      assert RangeWrites(old(regs), ascale, gscale) == [first, second, Write(ACCEL_CONFIG2, LowNibbleUpdate(c, 0x03))];
      Appended(RangeWrites(old(regs), ascale, gscale), old(log), old(regs));
    }

    /** initAK8963, except the float sensitivity adjustment it reads from the fuse ROM. */
    method InitAK8963(mscale: byte, mmode: byte)
      requires Valid()
      modifies this`regs, this`log, this`mMode
      ensures Valid() && mMode == mmode
      ensures log == old(log) + InitAkWrites(mscale, mmode) && regs == Replay(old(regs), InitAkWrites(mscale, mmode))
    {
      WriteRegister(AK8963_CNTL, 0x00);
      WriteRegister(AK8963_CNTL, 0x0F);
      mMode := mmode;
      WriteRegister(AK8963_CNTL, 0x00);
      WriteRegister(AK8963_CNTL, CntlValue(mscale, mmode));
      Appended(InitAkWrites(mscale, mmode), old(log), old(regs));
    }

    method GyroMagSleep()
      requires Valid()
      modifies this`regs, this`log
      ensures Valid()
      ensures log == old(log) + SleepWrites(old(regs)) && regs == Replay(old(regs), SleepWrites(old(regs)))
    {
      var temp := Read(AK8963_CNTL);
      WriteRegister(AK8963_CNTL, CntlPowerDown(temp));
      temp := Read(PWR_MGMT_1);
      WriteRegister(PWR_MGMT_1, PwrGyroStandby(temp));
      Appended(SleepWrites(old(regs)), old(log), old(regs));
    }

    method GyroMagWake(mmode: byte)
      requires Valid()
      modifies this`regs, this`log
      ensures Valid()
      ensures log == old(log) + WakeWrites(old(regs), mmode) && regs == Replay(old(regs), WakeWrites(old(regs), mmode))
    {
      var temp := Read(AK8963_CNTL);
      WriteRegister(AK8963_CNTL, CntlWake(temp, mmode));
      temp := Read(PWR_MGMT_1);
      WriteRegister(PWR_MGMT_1, 0x01);
      Appended(WakeWrites(old(regs), mmode), old(log), old(regs));
    }

    method AccelWakeOnMotion()
      requires Valid()
      modifies this`regs, this`log
      ensures Valid()
      ensures log == old(log) + WakeOnMotionWrites(old(regs))
      ensures regs == Replay(old(regs), WakeOnMotionWrites(old(regs)))
    {
      ArmMotion();
      GyroMagSleep();
      LogAssoc(old(log), MotionWrites(old(regs)), SleepWrites(Replay(old(regs), MotionWrites(old(regs)))));
      Appended(WakeOnMotionWrites(old(regs)), old(log), old(regs));
    }

    /** The part of accelWakeOnMotion before its call to gyroMagSleep. */
    method ArmMotion()
      requires Valid()
      modifies this`regs, this`log
      ensures Valid()
      ensures log == old(log) + MotionWrites(old(regs)) && regs == Replay(old(regs), MotionWrites(old(regs)))
    {
      var c := Read(ACCEL_CONFIG2);
      WriteRegister(ACCEL_CONFIG2, LowNibbleUpdate(c, 0x01));
      ghost var filtered := regs;
      WriteAll(MotionSetup());
      SetupEffect(filtered);
      c := Read(PWR_MGMT_1);
      assert c == Lookup(old(regs), PWR_MGMT_1);
      WriteRegister(PWR_MGMT_1, PwrAccelCycle(c));
      assert log == old(log) + MotionWrites(old(regs));
      Appended(MotionWrites(old(regs)), old(log), old(regs));
    }

    /** Register writes issued one after the other, in order. */
    method WriteAll(ws: seq<Write>)
      requires Valid()
      modifies this`regs, this`log
      ensures Valid()
      ensures log == old(log) + ws && regs == Replay(old(regs), ws)
    {
      for i := 0 to |ws|
        invariant Valid() && log == old(log) + ws[..i]
      {
        WriteRegister(ws[i].reg, ws[i].value);
        assert ws[..i + 1] == ws[..i] + [ws[i]];
      }
      assert ws[..|ws|] == ws;
      Appended(ws, old(log), old(regs));
    }

    /** selfTest on the normal readings `normal` and the self-test readings `test`. */
    method SelfTest(normal: seq<Reading>, test: seq<Reading>) returns (pass: bool)
      requires Valid() && |normal| == SAMPLES && |test| == SAMPLES
      modifies this`regs, this`log
      ensures Valid()
      ensures log == old(log) + SelfTestWrites() && regs == Replay(old(regs), SelfTestWrites())
      ensures pass == SelfTestPasses(normal, test, Codes(old(regs)))
    {
      WriteAll(SelfTestSetup());
      var aAvg, gAvg := Averages(normal);
      WriteAll(SelfTestEnable());
      var aSTAvg, gSTAvg := Averages(test);
      WriteAll(SelfTestRestore());
      Appended(SelfTestWrites(), old(log), old(regs));
      var codes := [Read(SELF_TEST_X_ACCEL), Read(SELF_TEST_Y_ACCEL), Read(SELF_TEST_Z_ACCEL),
                    Read(SELF_TEST_X_GYRO), Read(SELF_TEST_Y_GYRO), Read(SELF_TEST_Z_GYRO)];
      SelfTestKeepsCodes(old(regs));
      var tolerances := ComputeTolerances(aAvg, gAvg, aSTAvg, gSTAvg, codes);
      pass := CheckTolerances(tolerances);
    }

    /** runTests on the normal and self-test readings. calibrate() is not part of this model. */
    method RunTests(normal: seq<Reading>, test: seq<Reading>) returns (e: Error)
      requires Valid() && |normal| == SAMPLES && |test| == SAMPLES
      modifies this`regs, this`log, this`mMode
      ensures Valid() && mMode == old(mMode)
      ensures e == TestsOutcome(Lookup(old(regs), WHO_AM_I), SelfTestPasses(normal, test, Codes(old(regs))),
                                Lookup(old(regs), AK8963_WHO_AM_I))
      ensures log == old(log) + RunTestsWrites(old(regs), aScale, gScale, mScale, old(mMode), sampleRateDivisor, passthru, e)
      ensures regs == Replay(old(regs), RunTestsWrites(old(regs), aScale, gScale, mScale, old(mMode), sampleRateDivisor, passthru, e))
    {
      if Read(WHO_AM_I) != IMU_ID {
        return ErrorImuId;
      }
      var passed := CheckDevice(normal, test);
      if !passed {
        return ErrorSelfTest;
      }
      ghost var checked := regs;
      CheckKeepsMagId(old(regs), passthru);
      var magFound := Configure();
      e := if magFound then ErrorNone else ErrorMagId;
      ghost var ws := CheckWrites(passthru)
        + ConfigureWrites(checked, aScale, gScale, mScale, mMode, sampleRateDivisor, passthru, magFound);
      LogAssoc(old(log), CheckWrites(passthru),
               ConfigureWrites(checked, aScale, gScale, mScale, mMode, sampleRateDivisor, passthru, magFound));
      Appended(ws, old(log), old(regs));
    }

    /** The part of runTests that resets the device and runs its self test. */
    method CheckDevice(normal: seq<Reading>, test: seq<Reading>) returns (passed: bool)
      requires Valid() && |normal| == SAMPLES && |test| == SAMPLES
      modifies this`regs, this`log
      ensures Valid()
      ensures passed == SelfTestPasses(normal, test, Codes(old(regs)))
      ensures log == old(log) + CheckWrites(passthru) && regs == Replay(old(regs), CheckWrites(passthru))
    {
      Reset();
      ResetKeepsCodes(old(regs), passthru);
      passed := SelfTest(normal, test);
      LogAssoc(old(log), ResetWrites(passthru), SelfTestWrites());
      Appended(CheckWrites(passthru), old(log), old(regs));
    }

    /** The part of runTests after a passed self test: initMPU6500, the magnetometer's
        WHO_AM_I check, and initAK8963 with the configured resolution and mode. */
    method Configure() returns (magFound: bool)
      requires Valid()
      modifies this`regs, this`log, this`mMode
      ensures Valid() && mMode == old(mMode)
      ensures magFound <==> Lookup(old(regs), AK8963_WHO_AM_I) == MAG_ID
      ensures log == old(log) + ConfigureWrites(old(regs), aScale, gScale, mScale, mMode, sampleRateDivisor, passthru, magFound)
      ensures regs == Replay(old(regs), ConfigureWrites(old(regs), aScale, gScale, mScale, mMode, sampleRateDivisor, passthru, magFound))
    {
      InitMPU6500(aScale, gScale, sampleRateDivisor, passthru);
      InitMpuFrame(old(regs), aScale, gScale, sampleRateDivisor, passthru);
      magFound := Read(AK8963_WHO_AM_I) == MAG_ID;
      if magFound {
        InitAK8963(mScale, mMode);
      }
      Appended(ConfigureWrites(old(regs), aScale, gScale, mScale, mMode, sampleRateDivisor, passthru, magFound),
               old(log), old(regs));
    }
  }

  /** reset and selfTest together leave both ranges cleared, the 92 Hz filters selected, and
      the magnetometer's WHO_AM_I, which is not a register of the MPU, alone. */
  lemma CheckEffect(m: map<Reg, byte>, passthru: bool)
    ensures var f := Replay(m, CheckWrites(passthru));
      && Lookup(f, GYRO_CONFIG) == 0x00 && Lookup(f, ACCEL_CONFIG) == 0x00
      && Lookup(f, ACCEL_CONFIG2) == 0x02 && Lookup(f, CONFIG) == 0x02
      && Lookup(f, AK8963_WHO_AM_I) == Lookup(m, AK8963_WHO_AM_I)
  {
    var m1 := Replay(m, ResetWrites(passthru));
    ReplayAppend(m, ResetWrites(passthru), SelfTestWrites());
    ResetEffect(m, passthru);
    SelfTestEffect(m1);
  }

  /** The magnetometer's WHO_AM_I survives reset and selfTest. */
  lemma CheckKeepsMagId(m: map<Reg, byte>, passthru: bool)
    ensures Lookup(Replay(m, CheckWrites(passthru)), AK8963_WHO_AM_I) == Lookup(m, AK8963_WHO_AM_I)
  {
    CheckEffect(m, passthru);
  }

  /** In the register-file model, where the reset write of PWR_MGMT_1 is a plain write, a
      runTests that found no error leaves the configured divisor, exactly the configured
      full-scale ranges (the self test cleared both range registers), the 41 Hz accelerometer
      filter, the PLL clock, the data-ready interrupt, and the magnetometer at the configured
      resolution and mode. */
  lemma RunTestsConfigures(m: map<Reg, byte>, ascale: byte, gscale: byte, mscale: byte, mmode: byte, srd: byte,
                           passthru: bool)
    ensures var f := Replay(m, RunTestsWrites(m, ascale, gscale, mscale, mmode, srd, passthru, ErrorNone));
      && Lookup(f, GYRO_CONFIG) == gscale << 3
      && Lookup(f, ACCEL_CONFIG) == ascale << 3
      && Lookup(f, ACCEL_CONFIG2) == 0x03
      && Lookup(f, CONFIG) == (if passthru then 0x03 else 0x02)
      && Lookup(f, SMPLRT_DIV) == srd
      && Lookup(f, PWR_MGMT_1) == 0x01
      && Lookup(f, INT_ENABLE) == 0x01
      && Lookup(f, AK8963_CNTL) == CntlValue(mscale, mmode)
  {
    var m1 := Replay(m, CheckWrites(passthru));
    ReplayAppend(m, CheckWrites(passthru), ConfigureWrites(m1, ascale, gscale, mscale, mmode, srd, passthru, true));
    CheckEffect(m, passthru);
    ConfigureEffect(m1, ascale, gscale, mscale, mmode, srd, passthru);
    assert GyroConfigUpdate(0x00, gscale) == gscale << 3;
    assert AccelConfigUpdate(0x00, ascale) == ascale << 3;
    assert LowNibbleUpdate(0x02, 0x03) == 0x03;
  }

  /** initMPU6500 followed by initAK8963, as runTests issues them after the self test. */
  lemma ConfigureEffect(m: map<Reg, byte>, ascale: byte, gscale: byte, mscale: byte, mmode: byte, srd: byte,
                        passthru: bool)
    ensures var f := Replay(m, ConfigureWrites(m, ascale, gscale, mscale, mmode, srd, passthru, true));
      && Lookup(f, GYRO_CONFIG) == GyroConfigUpdate(Lookup(m, GYRO_CONFIG), gscale)
      && Lookup(f, ACCEL_CONFIG) == AccelConfigUpdate(Lookup(m, ACCEL_CONFIG), ascale)
      && Lookup(f, ACCEL_CONFIG2) == LowNibbleUpdate(Lookup(m, ACCEL_CONFIG2), 0x03)
      && Lookup(f, CONFIG) == (if passthru then 0x03 else Lookup(m, CONFIG))
      && Lookup(f, SMPLRT_DIV) == srd
      && Lookup(f, PWR_MGMT_1) == 0x01
      && Lookup(f, INT_ENABLE) == 0x01
      && Lookup(f, AK8963_CNTL) == CntlValue(mscale, mmode)
  {
    var init := InitMpuWrites(m, ascale, gscale, srd, passthru);
    ReplayAppend(m, init, InitAkWrites(mscale, mmode));
    InitMpuEffect(m, ascale, gscale, srd, passthru);
    InitAkEffect(Replay(m, init), mscale, mmode);
  }
}
