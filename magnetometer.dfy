/** Magnetometer side of the driver: readMagData, which decodes an AK8963 frame into the
    caller's buffer unless the sensor reports an overflow, and the integer part of
    calibrateMagnetometer, which tracks per-axis extremes over a sweep and derives the
    hard-iron midpoint and the half-swing of every axis. */
module Magnetometer {
  import opened Bits
  import opened Decode

  /** AK8963 CNTL operating-mode codes, bits 3:0: continuous measurement at 8 Hz and 100 Hz. */
  const M_8HZ: byte := 0x02
  const M_100HZ: byte := 0x06

  /** Initial extremes of the calibration sweep: ±32767, not ±32768. */
  const MAX_START: int := -32767
  const MIN_START: int := 32767

  /** The seven bytes read from AK8963_XOUT_L on: X, Y and Z little-endian, then ST2. */
  type Frame = s: seq<byte> | |s| == 7 witness [0, 0, 0, 0, 0, 0, 0]

  /** ST2 bit 3, HOFL: the magnetic sensor overflowed and the frame must be discarded. */
  predicate Overflow(frame: Frame)
  {
    frame[6] & 0x08 != 0
  }

  /** One value per axis, in the order X, Y, Z. */
  type Axes = s: seq<int> | |s| == 3 witness [0, 0, 0]

  predicate IsSample(t: Axes)
  {
    IsInt16(t[0]) && IsInt16(t[1]) && IsInt16(t[2])
  }

  /** The contents of readMagData's destination buffer after reading `frame`. */
  function MagUpdate(prev: Axes, frame: Frame): (r: Axes)
    ensures Overflow(frame) ==> r == prev
    ensures !Overflow(frame) ==> IsSample(r)
  {
    if Overflow(frame) then prev
    else
      [DecodeBE(frame[1], frame[0]), DecodeBE(frame[3], frame[2]), DecodeBE(frame[5], frame[4])]
  }

  /** Without overflow, axis `i` of the buffer is the little-endian two's-complement value of
      frame bytes 2i (low) and 2i+1 (high), and re-encoding it gives those bytes back. */
  lemma MagUpdateLittleEndian(prev: Axes, frame: Frame, i: nat)
    requires !Overflow(frame) && i < 3
    ensures MagUpdate(prev, frame)[i] ==
      frame[2 * i + 1] as int * 0x100 + frame[2 * i] as int - (if frame[2 * i + 1] & 0x80 != 0 then 0x1_0000 else 0)
    ensures EncodeBE(MagUpdate(prev, frame)[i]) == (frame[2 * i + 1], frame[2 * i])
  {
    var hi, lo := frame[2 * i + 1], frame[2 * i];
    assert MagUpdate(prev, frame)[i] == DecodeBE(hi, lo);
    SignBit(hi);
    EncodeDecode(hi, lo);
  }

  /** readMagData: the buffer is overwritten only when ST2 reports no overflow. */
  method ReadMagData(destination: array<int>, frame: Frame)
    requires destination.Length == 3
    modifies destination
    ensures destination[..] == MagUpdate(old(destination[..]), frame)
  {
    var c := frame[6];
    if c & 0x08 == 0 {
      destination[0] := DecodeBE(frame[1], frame[0]);
      destination[1] := DecodeBE(frame[3], frame[2]);
      destination[2] := DecodeBE(frame[5], frame[4]);
    }
  }

  /** The number of sweep samples for the configured mode. */
  function SampleCount(mMode: byte): (n: nat)
    ensures n == 128 <==> mMode == M_8HZ
    ensures n == 1500 <==> mMode == M_100HZ
    ensures n == 0 <==> mMode != M_8HZ && mMode != M_100HZ
  {
    if mMode == M_8HZ then 128 else if mMode == M_100HZ then 1500 else 0
  }

  /** The buffer calibrateMagnetometer passes to readMagData, {0, 0, 0} before the first read,
      after reading `frames`. */
  function LastHeld(frames: seq<Frame>): (t: Axes)
    ensures IsSample(t)
  {
    if frames == [] then [0, 0, 0]
    else MagUpdate(LastHeld(frames[..|frames| - 1]), frames[|frames| - 1])
  }

  /** The sample each iteration of the sweep sees: the buffer after its own read. */
  function Held(frames: seq<Frame>): (s: seq<Axes>)
    ensures |s| == |frames|
  {
    if frames == [] then [] else Held(frames[..|frames| - 1]) + [LastHeld(frames)]
  }

  lemma {:induction false} HeldAt(frames: seq<Frame>, i: nat)
    requires i < |frames|
    ensures Held(frames)[i] == LastHeld(frames[..i + 1])
    decreases |frames|
  {
    if i < |frames| - 1 {
      var p := frames[..|frames| - 1];
      HeldAt(p, i);
      assert p[..i + 1] == frames[..i + 1];
    } else {
      assert frames[..i + 1] == frames;
    }
  }

  /** Every sample the sweep sees is an int16_t triple. */
  lemma HeldSamples(frames: seq<Frame>, i: nat)
    requires i < |frames|
    ensures IsSample(Held(frames)[i])
  {
    HeldAt(frames, i);
  }

  /** An overflowed frame contributes no new sample: its iteration sees the previous
      iteration's sample again, or {0, 0, 0} on the first. */
  lemma OverflowRepeats(frames: seq<Frame>, i: nat)
    requires i < |frames| && Overflow(frames[i])
    ensures Held(frames)[i] == if i == 0 then [0, 0, 0] else Held(frames)[i - 1]
  {
    HeldAt(frames, i);
    assert frames[..i + 1][..i] == frames[..i];
    if i > 0 {
      HeldAt(frames, i - 1);
      assert frames[..i] == frames[..i - 1 + 1];
    }
  }

  /** mag_max[j] after the samples `xs`. */
  function AxisMax(xs: seq<Axes>, j: nat): int
    requires j < 3
  {
    if xs == [] then MAX_START
    else
      var m := AxisMax(xs[..|xs| - 1], j);
      var v := xs[|xs| - 1][j];
      if v > m then v else m
  }

  /** mag_min[j] after the samples `xs`. */
  function AxisMin(xs: seq<Axes>, j: nat): int
    requires j < 3
  {
    if xs == [] then MIN_START
    else
      var m := AxisMin(xs[..|xs| - 1], j);
      var v := xs[|xs| - 1][j];
      if v < m then v else m
  }

  /** The tracked maximum is the largest of the start value and the samples, and is one of them. */
  lemma {:induction false} AxisMaxIsMax(xs: seq<Axes>, j: nat)
    requires j < 3
    ensures MAX_START <= AxisMax(xs, j)
    ensures forall i :: 0 <= i < |xs| ==> xs[i][j] <= AxisMax(xs, j)
    ensures AxisMax(xs, j) == MAX_START || exists i :: 0 <= i < |xs| && xs[i][j] == AxisMax(xs, j)
    decreases |xs|
  {
    if xs != [] {
      var p := xs[..|xs| - 1];
      AxisMaxIsMax(p, j);
      forall i | 0 <= i < |p| ensures xs[i] == p[i] { }
      if AxisMax(xs, j) != MAX_START && AxisMax(xs, j) != xs[|xs| - 1][j] {
        var k :| 0 <= k < |p| && p[k][j] == AxisMax(p, j);
        assert xs[k][j] == AxisMax(xs, j);
      }
    }
  }

  /** The tracked minimum is the smallest of the start value and the samples, and is one of them. */
  lemma {:induction false} AxisMinIsMin(xs: seq<Axes>, j: nat)
    requires j < 3
    ensures AxisMin(xs, j) <= MIN_START
    ensures forall i :: 0 <= i < |xs| ==> AxisMin(xs, j) <= xs[i][j]
    ensures AxisMin(xs, j) == MIN_START || exists i :: 0 <= i < |xs| && xs[i][j] == AxisMin(xs, j)
    decreases |xs|
  {
    if xs != [] {
      var p := xs[..|xs| - 1];
      AxisMinIsMin(p, j);
      forall i | 0 <= i < |p| ensures xs[i] == p[i] { }
      if AxisMin(xs, j) != MIN_START && AxisMin(xs, j) != xs[|xs| - 1][j] {
        var k :| 0 <= k < |p| && p[k][j] == AxisMin(p, j);
        assert xs[k][j] == AxisMin(xs, j);
      }
    }
  }

  /** The hard-iron bias of an axis in counts, `(mag_max + mag_min) / 2` in C++: the midpoint,
      rounded toward zero. */
  function HardIron(max: int, min: int): (b: int)
    ensures 0 <= max + min ==> 0 <= 2 * b <= max + min <= 2 * b + 1
    ensures max + min < 0 ==> 2 * b - 1 <= max + min <= 2 * b <= 0
  {
    TruncDiv(max + min, 2)
  }

  /** The half-swing of an axis in counts, `(mag_max - mag_min) / 2` in C++. */
  function HalfSwing(max: int, min: int): (s: int)
    ensures min <= max ==> 0 <= 2 * s <= max - min <= 2 * s + 1
    ensures max < min ==> 2 * s - 1 <= max - min <= 2 * s <= 0
  {
    TruncDiv(max - min, 2)
  }

  /** The three per-axis maxima and minima after the samples `xs`. */
  function Maxes(xs: seq<Axes>): Axes
  {
    [AxisMax(xs, 0), AxisMax(xs, 1), AxisMax(xs, 2)]
  }

  function Mins(xs: seq<Axes>): Axes
  {
    [AxisMin(xs, 0), AxisMin(xs, 1), AxisMin(xs, 2)]
  }

  /** Each extreme widened to the sample `t`, axis by axis. */
  function Raise(m: Axes, t: Axes): Axes
  {
    [if t[0] > m[0] then t[0] else m[0], if t[1] > m[1] then t[1] else m[1], if t[2] > m[2] then t[2] else m[2]]
  }

  function Lower(m: Axes, t: Axes): Axes
  {
    [if t[0] < m[0] then t[0] else m[0], if t[1] < m[1] then t[1] else m[1], if t[2] < m[2] then t[2] else m[2]]
  }

  /** calibrateMagnetometer, integer part: the sweep of `frames` (one per sample, as many as
      the mode asks for) and the per-axis bias and half-swing in counts. */
  method CalibrateMagnetometer(mMode: byte, frames: seq<Frame>) returns (bias: seq<int>, scale: seq<int>)
    requires |frames| == SampleCount(mMode)
    ensures |bias| == 3 && |scale| == 3
    ensures forall j :: 0 <= j < 3 ==>
      bias[j] == HardIron(AxisMax(Held(frames), j), AxisMin(Held(frames), j)) &&
      scale[j] == HalfSwing(AxisMax(Held(frames), j), AxisMin(Held(frames), j))
  {
    var mx, mn := Sweep(frames);
    bias := [HardIron(mx[0], mn[0]), HardIron(mx[1], mn[1]), HardIron(mx[2], mn[2])];
    scale := [HalfSwing(mx[0], mn[0]), HalfSwing(mx[1], mn[1]), HalfSwing(mx[2], mn[2])];
  }

  /** The sampling loop of calibrateMagnetometer: read every frame into the buffer and widen
      mag_max and mag_min to it, axis by axis. */
  method Sweep(frames: seq<Frame>) returns (mx: Axes, mn: Axes)
    ensures mx == Maxes(Held(frames)) && mn == Mins(Held(frames))
  {
    var magMax := new int[3](_ => MAX_START);
    var magMin := new int[3](_ => MIN_START);
    var magTemp := new int[3](_ => 0);
    var sampleCount := |frames|;
    ghost var seen: seq<Axes> := [];
    var ii := 0;
    while ii < sampleCount
      invariant 0 <= ii <= sampleCount
      invariant seen == Held(frames[..ii])
      invariant magTemp[..] == LastHeld(frames[..ii])
      invariant magMax[..] == Maxes(seen) && magMin[..] == Mins(seen)
    {
      ReadMagData(magTemp, frames[ii]);
      SweepStep(frames, ii);
      TrackExtremes(magTemp, magMax, magMin);
      ExtremesStep(seen, magTemp[..]);
      seen := seen + [magTemp[..]];
      ii := ii + 1;
    }
    assert frames[..ii] == frames;
    mx, mn := magMax[..], magMin[..];
  }

  lemma SweepStep(frames: seq<Frame>, n: nat)
    requires n < |frames|
    ensures LastHeld(frames[..n + 1]) == MagUpdate(LastHeld(frames[..n]), frames[n])
    ensures Held(frames[..n + 1]) == Held(frames[..n]) + [LastHeld(frames[..n + 1])]
  {
    assert frames[..n + 1][..n] == frames[..n];
  }

  /** One more sample widens each extreme to that sample and no further. */
  lemma ExtremesStep(xs: seq<Axes>, t: Axes)
    ensures Maxes(xs + [t]) == Raise(Maxes(xs), t)
    ensures Mins(xs + [t]) == Lower(Mins(xs), t)
  {
    assert (xs + [t])[..|xs|] == xs;
  }

  /** The inner loop of calibrateMagnetometer: widen each axis' extremes to the sample. */
  method TrackExtremes(magTemp: array<int>, magMax: array<int>, magMin: array<int>)
    requires magTemp.Length == 3 && magMax.Length == 3 && magMin.Length == 3
    requires magMax != magTemp && magMin != magTemp && magMax != magMin
    modifies magMax, magMin
    ensures magMax[..] == Raise(old(magMax[..]), magTemp[..])
    ensures magMin[..] == Lower(old(magMin[..]), magTemp[..])
  {
    for jj := 0 to 3
      invariant forall j :: 0 <= j < jj ==>
        magMax[j] == (if magTemp[j] > old(magMax[j]) then magTemp[j] else old(magMax[j])) &&
        magMin[j] == (if magTemp[j] < old(magMin[j]) then magTemp[j] else old(magMin[j]))
      invariant forall j :: jj <= j < 3 ==> magMax[j] == old(magMax[j]) && magMin[j] == old(magMin[j])
    {
      if magTemp[jj] > magMax[jj] { magMax[jj] := magTemp[jj]; }
      if magTemp[jj] < magMin[jj] { magMin[jj] := magTemp[jj]; }
    }
  }

  /** After a sweep every sample lies between the recorded extremes, and with at least one
      sample the half-swing is never negative. */
  lemma SweepBounds(frames: seq<Frame>, j: nat)
    requires j < 3 && 0 < |frames|
    ensures forall i :: 0 <= i < |frames| ==>
      AxisMin(Held(frames), j) <= Held(frames)[i][j] <= AxisMax(Held(frames), j)
    ensures 0 <= HalfSwing(AxisMax(Held(frames), j), AxisMin(Held(frames), j))
  {
    var xs := Held(frames);
    AxisMaxIsMax(xs, j);
    AxisMinIsMin(xs, j);
    assert AxisMin(xs, j) <= xs[0][j] <= AxisMax(xs, j);
  }

  /** With a mode other than 8 Hz or 100 Hz no sample is taken: the bias is 0 and the
      half-swing is -32767 on every axis. */
  lemma EmptySweep(j: nat)
    requires j < 3
    ensures HardIron(AxisMax(Held([]), j), AxisMin(Held([]), j)) == 0
    ensures HalfSwing(AxisMax(Held([]), j), AxisMin(Held([]), j)) == -32767
  {
  }

  /** Worked values: a symmetric range has no bias, (150, 50) has bias 100, and a negative odd
      sum rounds toward zero. */
  lemma HardIronExamples()
    ensures HardIron(100, -100) == 0 && HalfSwing(100, -100) == 100
    ensures HardIron(150, 50) == 100 && HalfSwing(150, 50) == 50
    ensures HardIron(-1, -2) == -1
  {
  }
}
