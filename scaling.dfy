/** The pure arithmetic of a waveform transfer: raw samples to volts, the time axis, and the
    status-register test for a corrupted transfer. All of it is stated over `real`. */
module Scaling {

  /** The constants of the waveform preamble, read after each curve transfer:
      vertical multiplier and zero, sample interval, time of the first sample and the
      pre-trigger offset in samples. */
  datatype Calibration = Calibration(yMult: real, yZero: real, xIncr: real, xZero: real, preTrigger: int)

  /** numpy's `raw_data * y_mult + y_zero`, sample by sample. */
  function Scale(raw: seq<int>, yMult: real, yZero: real): (volts: seq<real>)
    ensures |volts| == |raw|
    ensures forall i :: 0 <= i < |raw| ==> volts[i] == raw[i] as real * yMult + yZero
    decreases |raw|
  {
    if raw == [] then [] else [raw[0] as real * yMult + yZero] + Scale(raw[1..], yMult, yZero)
  }

  /** With a non-zero multiplier the scaling loses nothing: every raw sample is recovered. */
  lemma ScaleInverse(raw: seq<int>, yMult: real, yZero: real)
    requires yMult != 0.0
    ensures forall i :: 0 <= i < |raw| ==> (Scale(raw, yMult, yZero)[i] - yZero) / yMult == raw[i] as real
  {
    Unscale(Scale(raw, yMult, yZero), raw, yMult, yZero);
  }

  lemma Unscale(volts: seq<real>, raw: seq<int>, yMult: real, yZero: real)
    requires yMult != 0.0 && |volts| == |raw|
    requires forall i :: 0 <= i < |raw| ==> volts[i] == raw[i] as real * yMult + yZero
    ensures forall i :: 0 <= i < |raw| ==> (volts[i] - yZero) / yMult == raw[i] as real
  {
    forall i | 0 <= i < |raw|
      ensures (volts[i] - yZero) / yMult == raw[i] as real
    {
      DivideOut(volts[i] - yZero, raw[i] as real, yMult);
    }
  }

  lemma DivideOut(v: real, x: real, m: real)
    requires m != 0.0 && v == x * m
    ensures v / m == x
  {
    var q := v / m;
    assert q * m == x * m;
    assert (q - x) * m == 0.0;
  }

  /** numpy's `linspace(start, stop, n)`: n points from start to stop, both included; the step
      is (stop - start) / (n - 1), the last point is stop itself, and one point is just start. */
  function Linspace(start: real, stop: real, n: nat): seq<real> {
    seq(n, i requires 0 <= i < n =>
      if n == 1 then start
      else if i == n - 1 then stop
      else start + i as real * ((stop - start) / (n - 1) as real))
  }

  /** The time of the first sample: the pre-trigger offset, counted in sample intervals before
      the trigger, taken back from the time the preamble gives for the trigger point. */
  function TimeStart(cal: Calibration): real {
    -(cal.preTrigger as real) * cal.xIncr + cal.xZero
  }

  /** `linspace(t_start, t_start + (n - 1) * x_incr, n)`. */
  function TimeAxis(cal: Calibration, n: nat): seq<real> {
    var t0 := TimeStart(cal);
    Linspace(t0, t0 + (n as real - 1.0) * cal.xIncr, n)
  }

  /** The time axis has one point per sample, starts at `t_start` and is spaced by `x_incr`. */
  lemma TimeAxisEvenlySpaced(cal: Calibration, n: nat)
    ensures |TimeAxis(cal, n)| == n
    ensures forall i :: 0 <= i < n ==> TimeAxis(cal, n)[i] == TimeStart(cal) + i as real * cal.xIncr
  {
    var t0, d := TimeStart(cal), cal.xIncr;
    var axis := TimeAxis(cal, n);
    forall i | 0 <= i < n
      ensures axis[i] == t0 + i as real * d
    {
      if n > 1 && i < n - 1 {
        var m := (n - 1) as real;
        assert (t0 + (n as real - 1.0) * d) - t0 == m * d;
        DivideOut(m * d, d, m);
      }
    }
  }

  /** Consecutive points differ by exactly `x_incr`. */
  lemma TimeAxisStep(cal: Calibration, n: nat, i: nat)
    requires i + 1 < n
    ensures TimeAxis(cal, n)[i + 1] - TimeAxis(cal, n)[i] == cal.xIncr
  {
    TimeAxisEvenlySpaced(cal, n);
  }

  /** With a positive sample interval the time axis strictly increases. */
  lemma TimeAxisIncreasing(cal: Calibration, n: nat)
    requires cal.xIncr > 0.0
    ensures forall i, j :: 0 <= i < j < n ==> TimeAxis(cal, n)[i] < TimeAxis(cal, n)[j]
  {
    TimeAxisEvenlySpaced(cal, n);
    SpacedIncreasing(TimeAxis(cal, n), TimeStart(cal), cal.xIncr);
  }

  /** Points spaced by a positive step strictly increase. */
  lemma SpacedIncreasing(axis: seq<real>, t0: real, d: real)
    requires d > 0.0
    requires forall i :: 0 <= i < |axis| ==> axis[i] == t0 + i as real * d
    ensures forall i, j :: 0 <= i < j < |axis| ==> axis[i] < axis[j]
  {
    forall i, j | 0 <= i < j < |axis|
      ensures axis[i] < axis[j]
    {
      StepsIncrease(t0, d, i, j);
    }
  }

  lemma StepsIncrease(t0: real, d: real, i: nat, j: nat)
    requires d > 0.0 && i < j
    ensures t0 + i as real * d < t0 + j as real * d
  {
    var k := (j - i) as real;
    assert k * d > 0.0;
    assert j as real * d == i as real * d + k * d;
  }

  /** `0b00111100`: the query, device-dependent, execution and command error bits of the
      standard event status register. */
  const TransferErrorMask: nat := 0x3C

  /** Python's `v & 0b00111100`: bits 2 to 5 of v, kept in place. For a negative v these are
      the bits of its two's complement (see `TransferErrorBitsOfLowBits`). */
  function TransferErrorBits(v: int): int {
    (v / 4) % 16 * 4
  }

  /** The check after a curve transfer: one of the four error bits is set. */
  predicate TransferCorrupted(esr: int) {
    TransferErrorBits(esr) != 0
  }

  /** An independent definition of `&` on non-negative integers, bit by bit from the lowest. */
  function BitAnd(a: nat, b: nat): nat
    decreases a
  {
    if a == 0 || b == 0 then 0 else 2 * BitAnd(a / 2, b / 2) + (if a % 2 == 1 && b % 2 == 1 then 1 else 0)
  }

  lemma BitAndStep(a: nat, b: nat)
    requires b > 0
    ensures BitAnd(a, b) == 2 * BitAnd(a / 2, b / 2) + (if a % 2 == 1 && b % 2 == 1 then 1 else 0)
  {
  }

  lemma BitAndFifteen(y: nat)
    ensures BitAnd(y, 15) == y % 16
  {
    var y1 := y / 2;
    var y2 := y1 / 2;
    var y3 := y2 / 2;
    BitAndStep(y3, 1);
    BitAndStep(y2, 3);
    LowBits(y2, 2);
    BitAndStep(y1, 7);
    LowBits(y1, 4);
    BitAndStep(y, 15);
    LowBits(y, 8);
  }

  /** The closed form agrees with bitwise `&` against the mask. */
  lemma TransferErrorBitsIsMask(v: nat)
    ensures BitAnd(v, TransferErrorMask) == TransferErrorBits(v)
  {
    BitAndStep(v, 60);
    BitAndStep(v / 2, 30);
    BitAndFifteen(v / 2 / 2);
    HalveTwice(v, 2);
  }

  /** For every integer, negative ones included, the closed form is the `&` of the mask with the
      six lowest bits, which in two's complement are `v % 64` (the mask has no higher bit). */
  lemma TransferErrorBitsOfLowBits(v: int)
    ensures TransferErrorBits(v) == BitAnd(v % 64, TransferErrorMask)
  {
    var q, r := v / 64, v % 64;
    assert v == 4 * (16 * q + r / 4) + r % 4;
    DivUnique(v, 4, 16 * q + r / 4, r % 4);
    DivUnique(16 * q + r / 4, 16, q, r / 4);
    DivUnique(r / 4, 16, 0, r / 4);
    TransferErrorBitsIsMask(r);
  }

  /** A transfer is flagged exactly when bit 2, 3, 4 or 5 of the status value is set
      (for negative values, in two's complement). */
  lemma TransferCorruptedIffErrorBit(esr: int)
    ensures TransferCorrupted(esr) <==>
      esr / 4 % 2 == 1 || esr / 8 % 2 == 1 || esr / 16 % 2 == 1 || esr / 32 % 2 == 1
  {
    var q := esr / 4;
    HalveTwice(esr, 4);
    HalveTwice(esr, 8);
    HalveTwice(esr, 16);
    LowBits(q, 8);
    LowBits(q / 2, 4);
    LowBits(q / 2 / 2, 2);
  }

  /** Halving after dividing by `m` is dividing by `2 * m`. */
  lemma HalveTwice(x: int, m: nat)
    requires m > 0
    ensures x / m / 2 == x / (2 * m)
  {
    var q, r := x / m, x % m;
    var q2, r2 := q / 2, q % 2;
    Regroup(m, q2, r2);
    assert 0 <= m * r2 + r < 2 * m by {
      if r2 == 1 {
        assert m * r2 == m;
      } else {
        assert m * r2 == 0;
      }
    }
    DivUnique(x, 2 * m, q2, m * r2 + r);
  }

  lemma Regroup(m: int, q: int, r: int)
    ensures m * (2 * q + r) == (2 * m) * q + m * r
  {
  }

  /** The low bits modulo `2 * m`: the lowest bit, then the rest modulo `m`. */
  lemma LowBits(x: int, m: nat)
    requires m > 0
    ensures x % (2 * m) == x % 2 + 2 * (x / 2 % m)
  {
    var h := x / 2;
    assert x == (2 * m) * (h / m) + (2 * (h % m) + x % 2);
    assert 0 <= 2 * (h % m) + x % 2 < 2 * m;
    DivUnique(x, 2 * m, h / m, 2 * (h % m) + x % 2);
  }

  /** Euclidean division has one quotient and remainder. */
  lemma DivUnique(x: int, d: nat, q: int, r: int)
    requires d > 0 && x == d * q + r && 0 <= r < d
    ensures x / d == q && x % d == r
  {
    var q0, r0 := x / d, x % d;
    assert d * (q - q0) == r0 - r;
    if q > q0 {
      AtLeastOnce(d, q - q0);
    } else if q < q0 {
      AtLeastOnce(d, q0 - q);
    }
  }

  lemma AtLeastOnce(d: nat, k: int)
    requires k >= 1
    ensures d * k >= d
  {
    assert d * k == d * (k - 1) + d;
  }
}
