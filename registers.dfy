/** The device as a register file: the registers the driver touches on the MPU-6500 core and
    on its AK8963 magnetometer, a log of register writes and its replay onto a register map,
    and the read-modify-write bit-field updates the driver applies to configuration registers. */
module Registers {
  import opened Bits

  /** Register names of MPU9250.h. Their numeric addresses are not part of this model; the
      AK8963 registers live in the magnetometer's own address space. */
  datatype Reg =
    | SELF_TEST_X_GYRO | SELF_TEST_Y_GYRO | SELF_TEST_Z_GYRO
    | SELF_TEST_X_ACCEL | SELF_TEST_Y_ACCEL | SELF_TEST_Z_ACCEL
    | XG_OFFSET_H | XG_OFFSET_L | YG_OFFSET_H | YG_OFFSET_L | ZG_OFFSET_H | ZG_OFFSET_L
    | SMPLRT_DIV | CONFIG | GYRO_CONFIG | ACCEL_CONFIG | ACCEL_CONFIG2 | LP_ACCEL_ODR
    | MOT_THR | INT_PIN_CFG | INT_ENABLE | MOT_DETECT_CTRL
    | USER_CTRL | PWR_MGMT_1 | WHO_AM_I
    | XA_OFFSET_H | XA_OFFSET_L | YA_OFFSET_H | YA_OFFSET_L | ZA_OFFSET_H | ZA_OFFSET_L
    | AK8963_WHO_AM_I | AK8963_CNTL

  /** One register write of the driver, in the order it was issued. */
  datatype Write = Write(reg: Reg, value: byte)

  /** I2C_MST_EN, bit 5 of USER_CTRL: the MPU's internal I2C master. */
  const I2C_MST_EN: byte := 0x20

  /** Reading a register of a register map; a register never written reads as 0. */
  function Lookup(m: map<Reg, byte>, r: Reg): byte
  {
    if r in m then m[r] else 0
  }

  /** The register map after the writes `ws`, in order, starting from `m`. */
  function Replay(m: map<Reg, byte>, ws: seq<Write>): map<Reg, byte>
  {
    if ws == [] then m
    else
      var last := ws[|ws| - 1];
      Replay(m, ws[..|ws| - 1])[last.reg := last.value]
  }

  predicate Writes(ws: seq<Write>, r: Reg)
  {
    exists i :: 0 <= i < |ws| && ws[i].reg == r
  }

  /** One more write updates exactly one register. */
  lemma ReplaySnoc(m: map<Reg, byte>, ws: seq<Write>, w: Write)
    ensures Replay(m, ws + [w]) == Replay(m, ws)[w.reg := w.value]
  {
    assert (ws + [w])[..|ws|] == ws;
  }

  /** Short logs replay to explicit updates. */
  lemma ReplayOne(m: map<Reg, byte>, w: Write)
    ensures Replay(m, [w]) == m[w.reg := w.value]
  {
    assert [w][..0] == [];
  }

  lemma ReplayTwo(m: map<Reg, byte>, w1: Write, w2: Write)
    ensures Replay(m, [w1, w2]) == m[w1.reg := w1.value][w2.reg := w2.value]
  {
    assert [w1, w2][..1] == [w1];
    ReplayOne(m, w1);
  }

  lemma ReplayThree(m: map<Reg, byte>, w1: Write, w2: Write, w3: Write)
    ensures Replay(m, [w1, w2, w3]) == m[w1.reg := w1.value][w2.reg := w2.value][w3.reg := w3.value]
  {
    assert [w1, w2, w3][..2] == [w1, w2];
    ReplayTwo(m, w1, w2);
  }

  /** Replaying two logs one after the other is replaying their concatenation. */
  lemma {:induction false} ReplayAppend(m: map<Reg, byte>, a: seq<Write>, b: seq<Write>)
    ensures Replay(m, a + b) == Replay(Replay(m, a), b)
    decreases |b|
  {
    if b == [] {
      assert a + b == a;
    } else {
      var b' := b[..|b| - 1];
      var w := b[|b| - 1];
      assert b == b' + [w];
      assert a + b == (a + b') + [w];
      ReplaySnoc(m, a + b', w);
      ReplayAppend(m, a, b');
      ReplaySnoc(Replay(m, a), b', w);
    }
  }

  /** A register the log never writes keeps its value. */
  lemma {:induction false} ReplayUntouched(m: map<Reg, byte>, ws: seq<Write>, r: Reg)
    requires !Writes(ws, r)
    ensures Lookup(Replay(m, ws), r) == Lookup(m, r)
    decreases |ws|
  {
    if ws != [] {
      var ws' := ws[..|ws| - 1];
      assert !Writes(ws', r) by {
        forall i | 0 <= i < |ws'| ensures ws'[i].reg != r {
          assert ws'[i] == ws[i];
        }
      }
      ReplayUntouched(m, ws', r);
    }
  }

  /** A register holds the value of the last write to it. */
  lemma {:induction false} ReplayLastWrite(m: map<Reg, byte>, ws: seq<Write>, i: nat)
    requires i < |ws|
    requires forall k :: i < k < |ws| ==> ws[k].reg != ws[i].reg
    ensures Lookup(Replay(m, ws), ws[i].reg) == ws[i].value
    decreases |ws|
  {
    if i < |ws| - 1 {
      var ws' := ws[..|ws| - 1];
      assert ws'[i] == ws[i];
      forall k | i < k < |ws'| ensures ws'[k].reg != ws'[i].reg {
        assert ws'[k] == ws[k];
      }
      ReplayLastWrite(m, ws', i);
    }
  }

  /** A log extended twice is the log extended by both extensions at once. */
  lemma LogAssoc(l: seq<Write>, a: seq<Write>, b: seq<Write>)
    ensures l + a + b == l + (a + b)
  {
  }

  /** Every write of `ws` goes to a register of `s`. */
  predicate WritesOnly(ws: seq<Write>, s: set<Reg>)
  {
    forall i :: 0 <= i < |ws| ==> ws[i].reg in s
  }

  /** Registers outside the ones a log writes keep their values. */
  lemma ReplayOutside(m: map<Reg, byte>, ws: seq<Write>, s: set<Reg>)
    requires WritesOnly(ws, s)
    ensures forall r :: r !in s ==> Lookup(Replay(m, ws), r) == Lookup(m, r)
  {
    forall r | r !in s ensures Lookup(Replay(m, ws), r) == Lookup(m, r) {
      ReplayUntouched(m, ws, r);
    }
  }

  lemma WritesOnlyAppend(a: seq<Write>, b: seq<Write>, s: set<Reg>, t: set<Reg>)
    requires WritesOnly(a, s) && WritesOnly(b, t)
    ensures WritesOnly(a + b, s + t)
  {
    forall i | 0 <= i < |a + b| ensures (a + b)[i].reg in s + t {
      if i < |a| { assert (a + b)[i] == a[i]; } else { assert (a + b)[i] == b[i - |a|]; }
    }
  }

  // ---- Read-modify-write bit-field updates ----

  /** GYRO_CONFIG in initMPU6500: clear bit 1 (`~0x02`) and GYRO_FS_SEL, bits 4:3 (`~0x18`),
      then OR in `gscale << 3`; the uint8_t store drops what is shifted past bit 7. */
  function GyroConfigUpdate(c: byte, gscale: byte): (r: byte)
    ensures r & 0x02 == 0
    ensures r & 0x05 == c & 0x05
    ensures gscale <= 3 ==> r & 0xE5 == c & 0xE5 && (r >> 3) & 0x03 == gscale
  {
    (c & !0x02 & !0x18) | (gscale << 3)
  }

  /** ACCEL_CONFIG in initMPU6500: clear ACCEL_FS_SEL, bits 4:3, then OR in `ascale << 3`. */
  function AccelConfigUpdate(c: byte, ascale: byte): (r: byte)
    ensures r & 0x07 == c & 0x07
    ensures ascale <= 3 ==> r & 0xE7 == c & 0xE7 && (r >> 3) & 0x03 == ascale
  {
    (c & !0x18) | (ascale << 3)
  }

  /** ACCEL_CONFIG2 in initMPU6500 (`k` = 0x03) and accelWakeOnMotion (`k` = 0x01): clear
      accel_fchoice_b and A_DLPFCFG, bits 3:0, then OR in `k`. */
  function LowNibbleUpdate(c: byte, k: byte): (r: byte)
    ensures r & 0x0F == k & 0x0F
    ensures k <= 0x0F ==> r & 0xF0 == c & 0xF0
  {
    (c & !0x0F) | k
  }

  /** AK8963 CNTL in initAK8963: `mscale << 4 | Mmode`, the output bit width in bit 4 and the
      operating mode in bits 3:0. */
  function CntlValue(mscale: byte, mmode: byte): (r: byte)
    ensures mmode <= 0x0F ==> r & 0x0F == mmode
    ensures mmode <= 0x0F && mscale <= 1 ==> r >> 4 == mscale
  {
    (mscale << 4) | mmode
  }

  /** AK8963 CNTL in gyroMagSleep: clear the mode bits 3:0, which selects power-down. */
  function CntlPowerDown(c: byte): (r: byte)
    ensures r & 0x0F == 0
    ensures r & 0xF0 == c & 0xF0
  {
    c & !0x0F
  }

  /** PWR_MGMT_1 in gyroMagSleep: set GYRO_STANDBY, bit 4. */
  function PwrGyroStandby(t: byte): (r: byte)
    ensures r & 0x10 == 0x10
    ensures r & 0xEF == t & 0xEF
  {
    t | 0x10
  }

  /** AK8963 CNTL in gyroMagWake: OR the mode into the register. */
  function CntlWake(c: byte, mmode: byte): (r: byte)
    ensures r & c == c && r & mmode == mmode
    ensures r & !(c | mmode) == 0
  {
    c | mmode
  }

  /** PWR_MGMT_1 in accelWakeOnMotion: set ACCEL_CYCLE, bit 5. */
  function PwrAccelCycle(t: byte): (r: byte)
    ensures r & 0x20 == 0x20
    ensures r & 0xDF == t & 0xDF
  {
    t | 0x20
  }

  /** Waking after a sleep selects exactly the requested mode and keeps the upper nibble. */
  lemma WakeAfterSleep(c: byte, mmode: byte)
    requires mmode <= 0x0F
    ensures CntlWake(CntlPowerDown(c), mmode) & 0x0F == mmode
    ensures CntlWake(CntlPowerDown(c), mmode) & 0xF0 == c & 0xF0
  {
  }

  /** The two continuous-measurement settings the driver supports, at 16-bit output. */
  lemma CntlExamples()
    ensures CntlValue(1, 0x02) == 0x12 && CntlValue(1, 0x06) == 0x16
    ensures CntlValue(0, 0x02) == 0x02 && CntlValue(0, 0x06) == 0x06
  {
  }
}
