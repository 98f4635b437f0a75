/** The arithmetic of MPU9250::selfTest: 200-sample averages of the accelerometer and gyroscope
    axes in int32_t accumulators, the factory trim derived from the self-test codes, the
    percent deviation of the self-test response from that trim, and the pass rule. The C++
    code computes the trim and the deviations in float; here they are exact reals. */
module SelfTesting {
  import opened Bits
  import opened Decode

  /** Samples averaged per phase of the self test. */
  const SAMPLES: int := 200

  /** An axis fails once its deviation reaches this many percent. */
  const LIMIT: real := 14.0

  /** `2620/1<<FS` with FS = 0: the factory-trim base of the +-2 g and +-250 dps ranges. */
  const TRIM_BASE: real := 2620.0

  /** Six bytes read from ACCEL_XOUT_H or GYRO_XOUT_H on: X, Y and Z, big-endian. */
  type Block = s: seq<byte> | |s| == 6 witness [0, 0, 0, 0, 0, 0]

  /** One iteration of a sampling loop reads an accelerometer block, then a gyroscope block. */
  datatype Reading = Reading(accel: Block, gyro: Block)

  datatype Sensor = Accel | Gyro

  /** Axis `j` of the block of `sensor` in one reading, as an int16_t. */
  function Axis(r: Reading, sensor: Sensor, j: nat): (v: int)
    requires j < 3
    ensures IsInt16(v)
  {
    var b := if sensor == Accel then r.accel else r.gyro;
    DecodeBE(b[2 * j], b[2 * j + 1])
  }

  /** The accumulator of axis `j` of `sensor` after the readings `rs`. */
  function Sum(rs: seq<Reading>, sensor: Sensor, j: nat): int
    requires j < 3
  {
    if rs == [] then 0 else Sum(rs[..|rs| - 1], sensor, j) + Axis(rs[|rs| - 1], sensor, j)
  }

  /** The three accumulators of `sensor`. */
  function Sums(rs: seq<Reading>, sensor: Sensor): seq<int>
  {
    [Sum(rs, sensor, 0), Sum(rs, sensor, 1), Sum(rs, sensor, 2)]
  }

  /** A sum of n int16_t values lies between -32768 n and 32767 n. */
  lemma {:induction false} SumBounds(rs: seq<Reading>, sensor: Sensor, j: nat)
    requires j < 3
    ensures -0x8000 * |rs| <= Sum(rs, sensor, j) <= 0x7FFF * |rs|
    decreases |rs|
  {
    if rs != [] {
      SumBounds(rs[..|rs| - 1], sensor, j);
    }
  }

  /** Over 200 samples the accumulators stay far inside int32_t: `+=` never overflows. */
  lemma SumFitsInt32(rs: seq<Reading>, sensor: Sensor, j: nat)
    requires j < 3 && |rs| <= SAMPLES
    ensures IsInt32(Sum(rs, sensor, j))
  {
    SumBounds(rs, sensor, j);
  }

  /** `avg /= 200` on the accumulator: the C++ quotient, truncated toward zero. */
  function Mean(rs: seq<Reading>, sensor: Sensor, j: nat): int
    requires j < 3
  {
    TruncDiv(Sum(rs, sensor, j), SAMPLES)
  }

  /** The average of 200 int16_t samples is an int16_t value. */
  lemma MeanInRange(rs: seq<Reading>, sensor: Sensor, j: nat)
    requires j < 3 && |rs| == SAMPLES
    ensures IsInt16(Mean(rs, sensor, j))
  {
    SumBounds(rs, sensor, j);
  }

  /** One sampling loop and the division loop after it: the averages of the three accelerometer
      and the three gyroscope axes over the 200 readings. */
  method Averages(rs: seq<Reading>) returns (aAvg: seq<int>, gAvg: seq<int>)
    requires |rs| == SAMPLES
    ensures aAvg == Means(rs, Accel) && gAvg == Means(rs, Gyro)
  {
    var a, g := Accumulate(rs);
    var aa := new int[3](i requires 0 <= i < 3 => a[i]);
    var ga := new int[3](i requires 0 <= i < 3 => g[i]);
    assert aa[..] == a && ga[..] == g;
    Divide(aa, ga);
    aAvg, gAvg := aa[..], ga[..];
  }

  /** The division loop: `aAvg[ii] /= 200; gAvg[ii] /= 200;` for every axis. */
  method Divide(aa: array<int>, ga: array<int>)
    requires aa.Length == 3 && ga.Length == 3 && aa != ga
    modifies aa, ga
    ensures aa[..] == Quotients(old(aa[..])) && ga[..] == Quotients(old(ga[..]))
  {
    for ii := 0 to 3
      invariant forall j :: 0 <= j < ii ==> aa[j] == TruncDiv(old(aa[j]), SAMPLES) && ga[j] == TruncDiv(old(ga[j]), SAMPLES)
      invariant forall j :: ii <= j < 3 ==> aa[j] == old(aa[j]) && ga[j] == old(ga[j])
    {
      aa[ii] := TruncDiv(aa[ii], SAMPLES);
      ga[ii] := TruncDiv(ga[ii], SAMPLES);
    }
  }

  /** Each of three accumulators divided by the sample count, as C++ divides. */
  function Quotients(acc: seq<int>): seq<int>
    requires |acc| == 3
  {
    [TruncDiv(acc[0], SAMPLES), TruncDiv(acc[1], SAMPLES), TruncDiv(acc[2], SAMPLES)]
  }

  /** The sampling loop: add the six axes of every reading to the int32_t accumulators. */
  method Accumulate(rs: seq<Reading>) returns (aSum: seq<int>, gSum: seq<int>)
    requires |rs| <= SAMPLES
    ensures aSum == Sums(rs, Accel) && gSum == Sums(rs, Gyro)
  {
    var a := new int[3](_ => 0);
    var g := new int[3](_ => 0);
    for ii := 0 to |rs|
      invariant a[..] == Sums(rs[..ii], Accel) && g[..] == Sums(rs[..ii], Gyro)
    {
      SumsStep(rs, ii, Accel);
      SumsStep(rs, ii, Gyro);
      AddBlock(a, rs[ii], Accel);
      AddBlock(g, rs[ii], Gyro);
    }
    assert rs[..|rs|] == rs;
    aSum, gSum := a[..], g[..];
  }

  /** The three accumulators after adding the axes of `sensor` in `r`. */
  function Added(acc: seq<int>, r: Reading, sensor: Sensor): seq<int>
    requires |acc| == 3
  {
    [acc[0] + Axis(r, sensor, 0), acc[1] + Axis(r, sensor, 1), acc[2] + Axis(r, sensor, 2)]
  }

  predicate AllInt32(s: seq<int>)
  {
    forall j :: 0 <= j < |s| ==> IsInt32(s[j])
  }

  /** `avg[0] += x; avg[1] += y; avg[2] += z;` on int32_t accumulators, which must not overflow. */
  method AddBlock(acc: array<int>, r: Reading, sensor: Sensor)
    requires acc.Length == 3
    requires AllInt32(Added(acc[..], r, sensor))
    modifies acc
    ensures acc[..] == Added(old(acc[..]), r, sensor)
  {
    acc[0] := acc[0] + Axis(r, sensor, 0);
    acc[1] := acc[1] + Axis(r, sensor, 1);
    acc[2] := acc[2] + Axis(r, sensor, 2);
  }

  /** One more reading adds its axes to the sums, and the new sums are int32_t values. */
  lemma SumsStep(rs: seq<Reading>, n: nat, sensor: Sensor)
    requires n < |rs| <= SAMPLES
    ensures Sums(rs[..n + 1], sensor) == Added(Sums(rs[..n], sensor), rs[n], sensor)
    ensures AllInt32(Sums(rs[..n + 1], sensor))
  {
    var p := rs[..n + 1];
    assert p[..|p| - 1] == rs[..n] && p[|p| - 1] == rs[n];
    SumsFitInt32(p, sensor);
  }

  lemma SumsFitInt32(rs: seq<Reading>, sensor: Sensor)
    requires |rs| <= SAMPLES
    ensures AllInt32(Sums(rs, sensor))
  {
    SumFitsInt32(rs, sensor, 0);
    SumFitsInt32(rs, sensor, 1);
    SumFitsInt32(rs, sensor, 2);
  }

  /** `pow(1.01, k)`, exactly. */
  function Pow101(k: int): (p: real)
    ensures p > 0.0
    decreases if k < 0 then -k else k
  {
    if k == 0 then 1.0
    else if k > 0 then 1.01 * Pow101(k - 1)
    else Pow101(k + 1) / 1.01
  }

  /** FT, the factory trim of an axis, from its self-test code: `2620 * 1.01^(code - 1)`. */
  function FactoryTrim(code: byte): (ft: real)
    ensures ft > 0.0
  {
    TRIM_BASE * Pow101(code as int - 1)
  }

  /** The trim grows by one percent per code step. */
  lemma FactoryTrimStep(code: byte)
    requires code < 0xFF
    ensures FactoryTrim(code + 1) == 1.01 * FactoryTrim(code)
  {
    assert (code + 1) as int - 1 == code as int;
  }

  /** Code 1 selects the base trim exactly. */
  lemma FactoryTrimOne()
    ensures FactoryTrim(1) == TRIM_BASE
  {
  }

  /** `100 * (stAvg - avg) / FT - 100`: the percent by which the self-test response
      `response` exceeds the factory trim `ft`. */
  function Tolerance(response: int, ft: real): real
    requires ft > 0.0
  {
    100.0 * (response as real) / ft - 100.0
  }

  /** An axis is within the limit exactly when its response is below 114 percent of its trim. */
  lemma ToleranceBelowLimit(response: int, ft: real)
    requires ft > 0.0
    ensures Tolerance(response, ft) < LIMIT <==> 100.0 * (response as real) < 114.0 * ft
  {
    var x := 100.0 * (response as real);
    assert Tolerance(response, ft) == x / ft - 100.0;
    assert x / ft * ft == x;
    if x / ft < 114.0 {
      assert x / ft * ft < 114.0 * ft;
    } else {
      assert x / ft * ft >= 114.0 * ft;
    }
  }

  /** The tolerance loop of selfTest: axes 0-2 are the accelerometer, 3-5 the gyroscope. */
  method ComputeTolerances(aAvg: seq<int>, gAvg: seq<int>, aSTAvg: seq<int>, gSTAvg: seq<int>, codes: seq<byte>)
    returns (tolerances: seq<real>)
    requires |aAvg| == 3 && |gAvg| == 3 && |aSTAvg| == 3 && |gSTAvg| == 3 && |codes| == 6
    ensures tolerances == Tolerances(aAvg, gAvg, aSTAvg, gSTAvg, codes)
  {
    var t := new real[6](_ => 0.0);
    for i := 0 to 3
      invariant forall k :: 0 <= k < i ==>
        t[k] == Tolerance(aSTAvg[k] - aAvg[k], FactoryTrim(codes[k])) &&
        t[k + 3] == Tolerance(gSTAvg[k] - gAvg[k], FactoryTrim(codes[k + 3]))
    {
      t[i] := Tolerance(aSTAvg[i] - aAvg[i], FactoryTrim(codes[i]));
      t[i + 3] := Tolerance(gSTAvg[i] - gAvg[i], FactoryTrim(codes[i + 3]));
    }
    tolerances := t[..];
  }

  /** The six deviations: self-test response of each axis against the trim of its code. */
  function Tolerances(aAvg: seq<int>, gAvg: seq<int>, aSTAvg: seq<int>, gSTAvg: seq<int>, codes: seq<byte>): (t: seq<real>)
    requires |aAvg| == 3 && |gAvg| == 3 && |aSTAvg| == 3 && |gSTAvg| == 3 && |codes| == 6
    ensures |t| == 6
  {
    seq(6, k requires 0 <= k < 6 =>
      if k < 3 then Tolerance(aSTAvg[k] - aAvg[k], FactoryTrim(codes[k]))
      else Tolerance(gSTAvg[k - 3] - gAvg[k - 3], FactoryTrim(codes[k])))
  }

  /** The pass rule: every deviation stays below 14 percent. */
  predicate AllWithin(tolerances: seq<real>)
  {
    forall k :: 0 <= k < |tolerances| ==> tolerances[k] < LIMIT
  }

  /** The check loop of selfTest: fail at the first deviation of 14 percent or more. */
  method CheckTolerances(tolerances: seq<real>) returns (pass: bool)
    requires |tolerances| == 6
    ensures pass <==> forall k :: 0 <= k < 6 ==> tolerances[k] < LIMIT
  {
    var k := 0;
    while k < 6
      invariant 0 <= k <= 6
      invariant forall i :: 0 <= i < k ==> tolerances[i] < LIMIT
    {
      if tolerances[k] >= LIMIT {
        return false;
      }
      k := k + 1;
    }
    return true;
  }

  /** The three averages of `sensor`. */
  function Means(rs: seq<Reading>, sensor: Sensor): seq<int>
  {
    [Mean(rs, sensor, 0), Mean(rs, sensor, 1), Mean(rs, sensor, 2)]
  }

  /** The averages selfTest compares are int16_t values. */
  lemma MeansInRange(rs: seq<Reading>, sensor: Sensor)
    requires |rs| == SAMPLES
    ensures forall j :: 0 <= j < 3 ==> IsInt16(Means(rs, sensor)[j])
  {
    MeanInRange(rs, sensor, 0);
    MeanInRange(rs, sensor, 1);
    MeanInRange(rs, sensor, 2);
  }

  /** The self-test response of axis `k` (0-2 accelerometer, 3-5 gyroscope): how far the
      self-test average moved from the normal average. */
  function Response(aAvg: seq<int>, gAvg: seq<int>, aSTAvg: seq<int>, gSTAvg: seq<int>, k: nat): int
    requires |aAvg| == 3 && |gAvg| == 3 && |aSTAvg| == 3 && |gSTAvg| == 3 && k < 6
  {
    if k < 3 then aSTAvg[k] - aAvg[k] else gSTAvg[k - 3] - gAvg[k - 3]
  }

  /** The verdict of selfTest from the four averages and the self-test codes (X, Y, Z
      accelerometer, then X, Y, Z gyroscope). */
  predicate Passes(aAvg: seq<int>, gAvg: seq<int>, aSTAvg: seq<int>, gSTAvg: seq<int>, codes: seq<byte>)
    requires |aAvg| == 3 && |gAvg| == 3 && |aSTAvg| == 3 && |gSTAvg| == 3 && |codes| == 6
  {
    AllWithin(Tolerances(aAvg, gAvg, aSTAvg, gSTAvg, codes))
  }

  /** The verdict of selfTest for the normal readings `normal` and the self-test readings `test`. */
  predicate SelfTestPasses(normal: seq<Reading>, test: seq<Reading>, codes: seq<byte>)
    requires |codes| == 6
  {
    Passes(Means(normal, Accel), Means(normal, Gyro), Means(test, Accel), Means(test, Gyro), codes)
  }

  /** selfTest passes exactly when every axis' response is below 114 percent of its trim. */
  lemma PassesIff(aAvg: seq<int>, gAvg: seq<int>, aSTAvg: seq<int>, gSTAvg: seq<int>, codes: seq<byte>)
    requires |aAvg| == 3 && |gAvg| == 3 && |aSTAvg| == 3 && |gSTAvg| == 3 && |codes| == 6
    ensures Passes(aAvg, gAvg, aSTAvg, gSTAvg, codes) <==>
      forall k :: 0 <= k < 6 ==>
        100.0 * (Response(aAvg, gAvg, aSTAvg, gSTAvg, k) as real) < 114.0 * FactoryTrim(codes[k])
  {
    var t := Tolerances(aAvg, gAvg, aSTAvg, gSTAvg, codes);
    forall k | 0 <= k < 6
      ensures t[k] < LIMIT <==>
        100.0 * (Response(aAvg, gAvg, aSTAvg, gSTAvg, k) as real) < 114.0 * FactoryTrim(codes[k])
    {
      assert t[k] == Tolerance(Response(aAvg, gAvg, aSTAvg, gSTAvg, k), FactoryTrim(codes[k]));
      ToleranceBelowLimit(Response(aAvg, gAvg, aSTAvg, gSTAvg, k), FactoryTrim(codes[k]));
    }
  }

  /** The rule is one-sided: axes whose self-test response is absent or negative always
      pass, however far they are from the factory trim. */
  lemma NoResponsePasses(aAvg: seq<int>, gAvg: seq<int>, aSTAvg: seq<int>, gSTAvg: seq<int>, codes: seq<byte>)
    requires |aAvg| == 3 && |gAvg| == 3 && |aSTAvg| == 3 && |gSTAvg| == 3 && |codes| == 6
    requires forall k :: 0 <= k < 6 ==> Response(aAvg, gAvg, aSTAvg, gSTAvg, k) <= 0
    ensures Passes(aAvg, gAvg, aSTAvg, gSTAvg, codes)
  {
    PassesIff(aAvg, gAvg, aSTAvg, gSTAvg, codes);
  }

  /** Axis by axis: a self-test response of zero or less puts the axis' deviation at -100
      percent or lower, which is below the limit, so the axis passes. */
  lemma NoResponseAxis(aAvg: seq<int>, gAvg: seq<int>, aSTAvg: seq<int>, gSTAvg: seq<int>, codes: seq<byte>, k: nat)
    requires |aAvg| == 3 && |gAvg| == 3 && |aSTAvg| == 3 && |gSTAvg| == 3 && |codes| == 6
    requires k < 6 && Response(aAvg, gAvg, aSTAvg, gSTAvg, k) <= 0
    ensures Tolerances(aAvg, gAvg, aSTAvg, gSTAvg, codes)[k] <= -100.0
    ensures Tolerances(aAvg, gAvg, aSTAvg, gSTAvg, codes)[k] < LIMIT
  {
    var r := Response(aAvg, gAvg, aSTAvg, gSTAvg, k);
    var ft := FactoryTrim(codes[k]);
    assert Tolerances(aAvg, gAvg, aSTAvg, gSTAvg, codes)[k] == Tolerance(r, ft);
    assert 100.0 * (r as real) <= 0.0;
    assert 100.0 * (r as real) / ft <= 0.0;
  }
}
