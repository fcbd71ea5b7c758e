/** rtw_mulaw.c: G.711 mu-law companding of 16-bit samples. */
module Mulaw {
  import opened Sequences

  const BIAS: int := 0x84
  const CLIP: int := 32635
  const SILENT_MIN: int := -0x8000

  function Uniform(v: nat): (r: seq<nat>)
    ensures |r| == 16
  {
    seq(16, _ => v)
  }

  /** The 256-entry exponent table, in the sixteen rows of sixteen the program lists it in. */
  const EXP_LUT: seq<seq<nat>> := [
    [0, 0, 1, 1, 2, 2, 2, 2, 3, 3, 3, 3, 3, 3, 3, 3],
    Uniform(4), Uniform(5), Uniform(5), Uniform(6), Uniform(6), Uniform(6), Uniform(6),
    Uniform(7), Uniform(7), Uniform(7), Uniform(7), Uniform(7), Uniform(7), Uniform(7), Uniform(7)
  ]

  /** Arithmetic shifts: the right one rounds towards minus infinity. */
  function Shr(x: int, n: nat): (r: int)
    decreases n
  {
    if n == 0 then x else Shr(x, n - 1) / 2
  }

  function Shl(x: int, n: nat): (r: int)
    decreases n
  {
    if n == 0 then x else 2 * Shl(x, n - 1)
  }

  function Exponent(i: byte): (e: nat)
    ensures e <= 7
  {
    EXP_LUT[i / 16][i % 16]
  }

  function FloorLog2(i: nat): (e: nat)
    requires 0 < i
  {
    if i < 2 then 0 else 1 + FloorLog2(i / 2)
  }

  lemma {:induction false} FloorLog2Bounds(i: nat)
    requires 0 < i
    ensures Shl(1, FloorLog2(i)) <= i < Shl(1, FloorLog2(i) + 1)
    decreases i
  {
    if i >= 2 {
      FloorLog2Bounds(i / 2);
    }
  }

  lemma {:induction false} FloorLog2Unique(i: nat, e: nat)
    requires 0 < i && e <= 7 && Shl(1, e) <= i < Shl(1, e + 1)
    ensures FloorLog2(i) == e
    decreases e
  {
    if e > 0 {
      FloorLog2Unique(i / 2, e - 1);
    }
  }

  /** The table is the floor of the binary logarithm. */
  lemma {:induction false} ExponentIsFloorLog2(i: byte)
    ensures Exponent(i) == FloorLog2(if i == 0 then 1 else i)
  {
    LeftShifts(1);
    FloorLog2Unique(if i == 0 then 1 else i, Exponent(i));
  }

  lemma {:induction false} LeftShifts(x: int)
    ensures Shl(x, 0) == x && Shl(x, 1) == 2 * x && Shl(x, 2) == 4 * x && Shl(x, 3) == 8 * x
    ensures Shl(x, 4) == 16 * x && Shl(x, 5) == 32 * x && Shl(x, 6) == 64 * x && Shl(x, 7) == 128 * x
    ensures Shl(x, 8) == 256 * x
  {
    assert Shl(x, 2) == 2 * Shl(x, 1) && Shl(x, 4) == 2 * Shl(x, 3) && Shl(x, 6) == 2 * Shl(x, 5);
  }

  lemma {:induction false} ShiftIsProduct(x: int, e: nat)
    ensures Shl(x, e) == x * Shl(1, e) && Shl(1, e) > 0
    decreases e
  {
    if e > 0 {
      ShiftIsProduct(x, e - 1);
    }
  }

  /** A right shift is the floor of the quotient by a power of two. */
  lemma {:induction false} ShrIsFloor(x: int, n: nat)
    ensures Shr(x, n) * Shl(1, n) <= x < Shr(x, n) * Shl(1, n) + Shl(1, n)
    decreases n
  {
    if n > 0 {
      ShrIsFloor(x, n - 1);
      ShiftIsProduct(1, n - 1);
      HalfStep(x, Shr(x, n - 1), Shl(1, n - 1));
    }
  }

  lemma HalfStep(x: int, q: int, p: int)
    requires p > 0 && q * p <= x < q * p + p
    ensures (q / 2) * (2 * p) <= x < (q / 2) * (2 * p) + 2 * p
  {
    var h := q / 2;
    assert h * (2 * p) == (2 * h) * p;
    if q == 2 * h {
    } else {
      assert q == 2 * h + 1;
      assert (2 * h + 1) * p == (2 * h) * p + p;
    }
  }

  /** A left shift is undone by a right shift. */
  lemma {:induction false} ShrShl(x: int, e: nat, n: nat)
    ensures Shr(Shl(x, e), e + n) == Shr(x, n)
    decreases e
  {
    if e > 0 {
      ShrDouble(Shl(x, e - 1), e - 1 + n);
      ShrShl(x, e - 1, n);
    }
  }

  lemma {:induction false} ShrDouble(y: int, n: nat)
    ensures Shr(2 * y, n + 1) == Shr(y, n)
    decreases n
  {
    if n > 0 {
      ShrDouble(y, n - 1);
    } else {
      assert Shr(2 * y, 1) == Shr(2 * y, 0) / 2;
    }
  }

  lemma {:induction false} ShrThree(x: int)
    ensures Shr(x, 3) == x / 8
  {
    assert Shr(x, 1) == x / 2;
    assert Shr(x, 2) == x / 2 / 2 == x / 4;
    assert Shr(x, 3) == x / 4 / 2;
  }

  /** Conversion to a 16-bit two's complement integer. */
  function Wrap16(x: int): (r: int16) {
    (x + 0x8000) % 0x1_0000 - 0x8000
  }

  /** Sign, exponent and mantissa of a biased magnitude, complemented. */
  function Pack(negative: bool, biased: int16): (m: byte) {
    var exponent := Exponent((biased / 128) % 256);
    var mantissa := Shr(biased, exponent + 3) % 16;
    255 - ((if negative then 0x80 else 0) + exponent * 16 + mantissa)
  }

  /** Magnitude, clipped and biased, in 16-bit arithmetic. */
  function Prepare(sample: int16): (biased: int16) {
    var magnitude: int := if sample < 0 then Wrap16(0 - sample) else sample;
    Wrap16((if magnitude > CLIP then CLIP else magnitude) + BIAS)
  }

  function Encode(sample: int16): (m: byte) {
    Pack(sample < 0, Prepare(sample))
  }

  function Decode(m: byte): (sample: int16) {
    var u := 255 - m;
    var exponent := (u / 16) % 8;
    var mantissa := u % 16;
    var magnitude := Shl(mantissa * 8 + BIAS, exponent) - BIAS;
    DecodeRange(mantissa * 8 + BIAS, exponent);
    if u >= 128 then -magnitude else magnitude
  }

  lemma {:induction false} DecodeRange(x: int, exponent: nat)
    requires BIAS <= x <= 252 && exponent < 8
    ensures 0 <= Shl(x, exponent) - BIAS <= 32124
  {
    LeftShifts(x);
  }

  // ------------------------------------------------------------------------------------------
  // Magnitudes: the common part of both signs
  // ------------------------------------------------------------------------------------------

  function Biased(a: nat): (s: nat)
    requires a < 0x8000
    ensures 132 <= s <= 32767
  {
    (if a > CLIP then CLIP else a) + BIAS
  }

  lemma {:induction false} LogAtMost7(i: nat)
    requires 0 < i < 256
    ensures FloorLog2(i) <= 7
  {
    ExponentIsFloorLog2(i);
  }

  function Level(s: nat): (e: nat)
    requires 132 <= s <= 32767
    ensures e <= 7
  {
    LogAtMost7(s / 128);
    FloorLog2(s / 128)
  }

  function StepIndex(s: nat): (k: int)
    requires 132 <= s <= 32767
  {
    Shr(s, Level(s) + 3)
  }

  /** What a biased magnitude comes back as. */
  function Rebuilt(s: nat): (v: int)
    requires 132 <= s <= 32767
  {
    Shl(StepIndex(s) % 16 * 8 + BIAS, Level(s)) - BIAS
  }

  ghost predicate IsUnit(p: int) {
    p == 1 || p == 2 || p == 4 || p == 8 || p == 16 || p == 32 || p == 64 || p == 128
  }

  /** Within the octave from 128p to 256p: a step of width 8p, numbered 16 to 31, and the middle of it. */
  lemma {:induction false} StepArithmetic(s: nat, p: nat, k: int)
    requires p > 0 && 128 * p <= s < 256 * p && k * (8 * p) <= s < k * (8 * p) + 8 * p
    ensures 16 <= k < 32
    ensures (k % 16 * 8 + BIAS) * p == k * 8 * p + 4 * p
  {
    Bounds(k, 8 * p, s);
    assert k % 16 == k - 16;
    assert ((k - 16) * 8 + 132) * p == (k * 8 + 4) * p == k * 8 * p + 4 * p;
  }

  lemma Bounds(k: int, d: nat, s: nat)
    requires d > 0 && k * d <= s < k * d + d && 16 * d <= s < 32 * d
    ensures 16 <= k < 32
  {
    assert k < 16 ==> (k + 1) * d <= 16 * d;
    assert k >= 32 ==> k * d >= 32 * d;
  }

  lemma {:induction false} UnitAt(e: nat)
    requires e <= 7
    ensures IsUnit(Shl(1, e))
  {
    LeftShifts(1);
  }

  lemma {:induction false} ThreeMore(e: nat)
    ensures Shl(1, e + 3) == 8 * Shl(1, e)
  {
    assert Shl(1, e + 1) == 2 * Shl(1, e);
    assert Shl(1, e + 2) == 2 * Shl(1, e + 1);
  }

  lemma {:induction false} OctaveStep(s: nat, e: nat, p: int, k: int)
    requires p == Shl(1, e) && k == Shr(s, e + 3) && 128 * p <= s < 256 * p
    ensures 16 <= k < 32 && k * 8 * p <= s < k * 8 * p + 8 * p
    ensures Shl(k % 16 * 8 + BIAS, e) == k * 8 * p + 4 * p
  {
    ShrIsFloor(s, e + 3);
    ThreeMore(e);
    OctaveBounds(s, p, k);
    ShiftIsProduct(k % 16 * 8 + BIAS, e);
    StepArithmetic(s, p, k);
  }

  lemma {:induction false} OctaveBounds(s: nat, p: int, k: int)
    requires k * (8 * p) <= s < k * (8 * p) + 8 * p
    ensures k * 8 * p <= s < k * 8 * p + 8 * p
  {
    assert k * (8 * p) == k * 8 * p;
  }

  lemma {:induction false} LevelBounds(s: nat)
    requires 132 <= s <= 32767
    ensures 128 * Shl(1, Level(s)) <= s < 256 * Shl(1, Level(s))
  {
    FloorLog2Bounds(s / 128);
  }

  /** A level covers sixteen steps of 8p between 128p and 256p; a magnitude comes back as the middle of its step. */
  lemma {:induction false} Quantum(s: nat) returns (p: nat, k: nat)
    requires 132 <= s <= 32767
    ensures IsUnit(p) && p == Shl(1, Level(s)) && k == StepIndex(s) && 16 <= k < 32
    ensures 128 * p <= s < 256 * p
    ensures k * 8 * p <= s < k * 8 * p + 8 * p
    ensures Rebuilt(s) + BIAS == k * 8 * p + 4 * p
  {
    LevelBounds(s);
    UnitAt(Level(s));
    p := Shl(1, Level(s));
    OctaveStep(s, Level(s), p, StepIndex(s));
    k := StepIndex(s);
  }

  /** The level is determined by the octave a magnitude lies in. */
  lemma {:induction false} LevelOf(s: nat, e: nat)
    requires 132 <= s <= 32767 && e <= 7 && 128 * Shl(1, e) <= s < 256 * Shl(1, e)
    ensures Level(s) == e
  {
    FloorLog2Unique(s / 128, e);
  }

  lemma {:induction false} PackMagnitude(negative: bool, s: nat)
    requires 132 <= s <= 32767
    ensures Pack(negative, s) == 255 - ((if negative then 128 else 0) + Level(s) * 16 + StepIndex(s) % 16)
  {
    assert (s / 128) % 256 == s / 128;
    ExponentIsFloorLog2(s / 128);
  }

  lemma {:induction false} PrepareMagnitude(x: int16)
    ensures x != SILENT_MIN ==> Prepare(x) == Biased(Abs(x))
    ensures x == SILENT_MIN ==> Prepare(x) == -32636
  {}

  lemma {:induction false} EncodeMagnitude(x: int16)
    requires x != SILENT_MIN
    ensures Encode(x) == Pack(x < 0, Biased(Abs(x)))
  {
    PrepareMagnitude(x);
  }

  lemma {:induction false} DecodeParts(negative: bool, e: nat, k: nat)
    requires e <= 7 && k < 16
    ensures var v := Shl(k * 8 + BIAS, e) - BIAS;
            Decode(255 - ((if negative then 128 else 0) + e * 16 + k)) == if negative then -v else v
  {
    var u := (if negative then 128 else 0) + e * 16 + k;
    assert u / 16 == (if negative then 8 else 0) + e;
  }

  lemma {:induction false} UnpackMagnitude(negative: bool, s: nat)
    requires 132 <= s <= 32767
    ensures Decode(Pack(negative, s)) == if negative then -Rebuilt(s) else Rebuilt(s)
  {
    PackMagnitude(negative, s);
    Unpack(Pack(negative, s), negative, s);
  }

  lemma {:induction false} Unpack(m: byte, negative: bool, s: nat)
    requires 132 <= s <= 32767
    requires m == 255 - ((if negative then 128 else 0) + Level(s) * 16 + StepIndex(s) % 16)
    ensures Decode(m) == if negative then -Rebuilt(s) else Rebuilt(s)
  {
    DecodeParts(negative, Level(s), StepIndex(s) % 16);
  }

  /** One pass through the codec, as plain arithmetic on the magnitude. */
  function Companded(x: int16): (y: int) {
    if x == SILENT_MIN then 0
    else if x < 0 then -Rebuilt(Biased(Abs(x)))
    else Rebuilt(Biased(Abs(x)))
  }

  lemma {:induction false} PassIsCompanded(x: int16)
    ensures Decode(Encode(x)) == Companded(x)
  {
    if x == SILENT_MIN {
      MostNegativeBecomesSilence();
    } else {
      EncodeMagnitude(x);
      UnpackMagnitude(x < 0, Biased(Abs(x)));
    }
  }

  /** The error is at most half a step, and a step is at most a sixteenth of the biased magnitude. */
  lemma {:induction false} MagnitudeError(a: nat)
    requires a < 0x8000
    ensures 32 * Abs(a - Rebuilt(Biased(a))) <= a + 132
  {
    var s := Biased(a);
    var p, k := Quantum(s);
    var low := k * 8 * p;
  }

  lemma {:induction false} RebuiltMonotone(s: nat, t: nat)
    requires 132 <= s <= t <= 32767
    ensures 0 <= Rebuilt(s) <= Rebuilt(t)
  {
    var p, k := Quantum(s);
    var p', k' := Quantum(t);
    StepsOrdered(p, k, s, p', k', t);
  }

  lemma {:induction false} StepsOrdered(p: nat, k: nat, s: nat, p': nat, k': nat, t: nat)
    requires IsUnit(p) && IsUnit(p') && 16 <= k < 32 && 16 <= k' < 32 && s <= t
    requires k * 8 * p <= s < k * 8 * p + 8 * p && k' * 8 * p' <= t < k' * 8 * p' + 8 * p'
    ensures 132 <= k * 8 * p + 4 * p <= k' * 8 * p' + 4 * p'
  {
    if p < p' {
      assert 2 * p <= p';
    }
  }

  // ------------------------------------------------------------------------------------------
  // Results about the codec
  // ------------------------------------------------------------------------------------------

  /** The most negative sample has no positive counterpart: its negation wraps back to itself, and the code that
      comes out is that of silence. */
  lemma {:induction false} MostNegativeBecomesSilence()
    ensures Encode(SILENT_MIN) == 0x7F && Decode(0x7F) == 0
  {
    PrepareMagnitude(SILENT_MIN);
    ShrThree(-32636);
    assert Exponent((-32636 / 128) % 256) == 0;
    assert Shr(-32636, 3) % 16 == 0;
  }

  /** The companding error bound holds for exactly the samples other than -32768. */
  lemma {:induction false} ErrorBound(x: int16)
    ensures 32 * Abs(x - Decode(Encode(x))) <= Abs(x) + 132 <==> x != SILENT_MIN
  {
    if x == SILENT_MIN {
      MostNegativeBecomesSilence();
    } else {
      PassIsCompanded(x);
      MagnitudeError(Abs(x));
    }
  }

  lemma {:induction false} PairOrder(x: int16, y: int16)
    requires x != SILENT_MIN && x <= y
    ensures Decode(Encode(x)) <= Decode(Encode(y))
  {
    PassIsCompanded(x);
    PassIsCompanded(y);
    var s, t := Biased(Abs(x)), Biased(Abs(y));
    RebuiltMonotone(s, s);
    RebuiltMonotone(t, t);
    if 0 <= x {
      RebuiltMonotone(s, t);
    } else if y < 0 {
      RebuiltMonotone(t, s);
    }
  }

  /** Companding keeps a sample below everything above it exactly when the sample is not -32768. */
  lemma {:induction false} OrderPreserved(x: int16)
    ensures (forall y: int16 :: x <= y ==> Decode(Encode(x)) <= Decode(Encode(y))) <==> x != SILENT_MIN
  {
    if x == SILENT_MIN {
      MostNegativeBecomesSilence();
      var y: int16 := -32767;
      ErrorBound(y);
      assert Decode(Encode(y)) < 0;
    } else {
      forall y: int16 | x <= y ensures Decode(Encode(x)) <= Decode(Encode(y)) {
        PairOrder(x, y);
      }
    }
  }

  /** Re-encoding a rebuilt magnitude finds the same level and step. */
  lemma {:induction false} RebuiltIsFixed(s: nat)
    requires 132 <= s <= 32767
    ensures 0 <= Rebuilt(s) <= CLIP
    ensures Rebuilt(Rebuilt(s) + BIAS) == Rebuilt(s)
  {
    var p, k := Quantum(s);
    RebuiltMonotone(s, s);
    DecodeRange(k % 16 * 8 + BIAS, Level(s));
    var r := Rebuilt(s) + BIAS;
    var p', k' := Quantum(r);
    SameStep(p, k, r, p', k');
  }

  lemma {:induction false} SameStep(p: nat, k: nat, r: nat, p': nat, k': nat)
    requires IsUnit(p) && IsUnit(p') && 16 <= k < 32 && 16 <= k' < 32
    requires r == k * 8 * p + 4 * p && k' * 8 * p' <= r < k' * 8 * p' + 8 * p'
    ensures p == p' && k == k'
  {
    assert 128 * p <= r < 256 * p && 128 * p' <= r < 256 * p';
  }

  lemma {:induction false} CompandedIsFixed(x: int16)
    ensures -CLIP <= Companded(x) <= CLIP
    ensures Companded(Companded(x)) == Companded(x)
  {
    if x == SILENT_MIN {
      var p, k := Quantum(132);
    } else {
      RebuiltIsFixed(Biased(Abs(x)));
      var p, k := Quantum(132);
    }
  }

  /** A second pass through the codec changes nothing, for every sample. */
  lemma {:induction false} SecondPassIsIdentity(x: int16)
    ensures Decode(Encode(Decode(Encode(x)))) == Decode(Encode(x))
  {
    PassIsCompanded(x);
    CompandedIsFixed(x);
    PassIsCompanded(Companded(x));
  }

  lemma {:induction false} PartsRecovered(k: nat, e: nat)
    requires k < 16 && e < 8
    ensures var s := Shl(k * 8 + BIAS, e);
            132 <= s <= 32256 && Level(s) == e && StepIndex(s) % 16 == k && (s == BIAS <==> k == 0 && e == 0)
  {
    var s := Shl(k * 8 + BIAS, e);
    DecodeRange(k * 8 + BIAS, e);
    OctaveOf(k, e);
    LevelOf(s, e);
  }

  lemma {:induction false} OctaveOf(k: nat, e: nat)
    requires k < 16
    ensures var s := Shl(k * 8 + BIAS, e);
            128 * Shl(1, e) <= s < 256 * Shl(1, e) && Shr(s, e + 3) == 16 + k && (s == BIAS <==> k == 0 && e == 0)
  {
    var x, p := k * 8 + BIAS, Shl(1, e);
    ShiftIsProduct(x, e);
    ShrShl(x, e, 3);
    ShrThree(x);
    if e > 0 {
      ShiftIsProduct(1, e - 1);
    }
    ProductBounds(x, p, e);
  }

  lemma {:induction false} ProductBounds(x: int, p: int, e: nat)
    requires 132 <= x <= 252 && p >= 1 && (e == 0 ==> p == 1) && (e > 0 ==> p >= 2)
    ensures 128 * p <= x * p < 256 * p && (x * p == 132 <==> x == 132 && e == 0)
  {
    assert (x - 128) * p >= 0 && (256 - x) * p > 0;
    assert e > 0 ==> x * p >= x * 2;
  }

  /** Every code is recovered from its sample, except the second code for zero. */
  lemma {:induction false} CodeRoundTrip(m: byte)
    ensures Encode(Decode(m)) == m <==> m != 0x7F
  {
    var u := 255 - m;
    var negative, e, k := u >= 128, (u / 16) % 8, u % 16;
    assert u == (if negative then 128 else 0) + e * 16 + k;
    DecodeParts(negative, e, k);
    PartsRoundTrip(m, negative, e, k, Decode(m));
  }

  lemma {:induction false} PartsRoundTrip(m: byte, negative: bool, e: nat, k: nat, x: int16)
    requires e < 8 && k < 16 && m == 255 - ((if negative then 128 else 0) + e * 16 + k)
    requires var v := Shl(k * 8 + BIAS, e) - BIAS; x == if negative then -v else v
    ensures Encode(x) == m <==> m != 0x7F
  {
    var s := Shl(k * 8 + BIAS, e);
    PartsRecovered(k, e);
    EncodeMagnitude(x);
    assert Biased(Abs(x)) == s;
    PackMagnitude(x < 0, s);
  }

  // ------------------------------------------------------------------------------------------
  // The code, segment by segment (section 3 of ITU-T G.711)
  // ------------------------------------------------------------------------------------------

  /** The step of a segment, in units of eight. */
  function StepSize(e: nat): (p: nat)
    requires e < 8
    ensures IsUnit(p)
  {
    [1, 2, 4, 8, 16, 32, 64, 128][e]
  }

  lemma {:induction false} StepIsShift(e: nat)
    requires e < 8
    ensures Shl(1, e) == StepSize(e)
  {
    LeftShifts(1);
  }

  lemma {:induction false} IndexUnique(s: nat, d: nat, q: int, r: int)
    requires d > 0 && q * d <= s < q * d + d && r * d <= s < r * d + d
    ensures q == r
  {
    if q < r {
      ProductsOrdered(q + 1, r, d);
    } else if r < q {
      ProductsOrdered(r + 1, q, d);
    }
  }

  lemma ProductsOrdered(a: int, b: int, d: nat)
    requires a <= b
    ensures a * d <= b * d
  {}

  /** The place of a biased magnitude: segment `e`, step `k` of sixteen. */
  lemma {:induction false} PlaceOf(s: nat, e: nat, k: nat)
    requires 132 <= s <= 32767 && e < 8 && k < 16
    requires (16 + k) * (8 * StepSize(e)) <= s < (17 + k) * (8 * StepSize(e))
    ensures Level(s) == e && StepIndex(s) == 16 + k
  {
    var p := StepSize(e);
    StepIsShift(e);
    ThreeMore(e);
    assert (17 + k) * (8 * p) == (16 + k) * (8 * p) + 8 * p;
    assert 128 * p <= (16 + k) * (8 * p) && (17 + k) * (8 * p) <= 256 * p;
    LevelOf(s, e);
    ShrIsFloor(s, e + 3);
    IndexUnique(s, 8 * p, Shr(s, e + 3), 16 + k);
  }

  /** Every sample but the most negative: its magnitude, clipped at 32635 and raised by 132, lies in one of sixteen
      steps of one of eight segments, and the code is sign, segment and step, complemented. */
  lemma {:induction false} EncodeIs(x: int16, e: nat, k: nat)
    requires x != -0x8000 && e < 8 && k < 16
    requires var s := Min(Abs(x), 32635) + 132; (16 + k) * (8 * StepSize(e)) <= s < (17 + k) * (8 * StepSize(e))
    ensures Encode(x) == 255 - ((if x < 0 then 128 else 0) + 16 * e + k)
  {
    EncodeMagnitude(x);
    BiasedIs(Abs(x));
    PlacedCode(x < 0, Biased(Abs(x)), e, k);
  }

  lemma BiasedIs(a: nat)
    requires a < 0x8000
    ensures Biased(a) == Min(a, 32635) + 132
  {}

  lemma {:induction false} PlacedCode(negative: bool, s: nat, e: nat, k: nat)
    requires 132 <= s <= 32767 && e < 8 && k < 16
    requires (16 + k) * (8 * StepSize(e)) <= s < (17 + k) * (8 * StepSize(e))
    ensures Pack(negative, s) == 255 - ((if negative then 128 else 0) + 16 * e + k)
  {
    PlaceOf(s, e, k);
    PackMagnitude(negative, s);
    SixteenMore(k);
  }

  lemma SixteenMore(k: nat)
    requires k < 16
    ensures (16 + k) % 16 == k
  {}

  /** Every code stands for the middle of its step. */
  lemma {:induction false} DecodeIs(negative: bool, e: nat, k: nat)
    requires e < 8 && k < 16
    ensures var v := (132 + 8 * k) * StepSize(e) - 132;
            Decode(255 - ((if negative then 128 else 0) + 16 * e + k)) == if negative then -v else v
  {
    DecodeParts(negative, e, k);
    StepIsShift(e);
    ShiftIsProduct(k * 8 + BIAS, e);
    assert k * 8 + BIAS == 132 + 8 * k;
  }

  // ------------------------------------------------------------------------------------------
  // Buffers
  // ------------------------------------------------------------------------------------------

  function EncodeAll(pcm: seq<int16>): (r: seq<byte>)
    ensures |r| == |pcm|
  {
    seq(|pcm|, i requires 0 <= i < |pcm| => Encode(pcm[i]))
  }

  function DecodeAll(mulaw: seq<byte>): (r: seq<int16>)
    ensures |r| == |mulaw|
  {
    seq(|mulaw|, i requires 0 <= i < |mulaw| => Decode(mulaw[i]))
  }

  lemma {:induction false} DecodeAllAppend(a: seq<byte>, b: seq<byte>)
    ensures DecodeAll(a + b) == DecodeAll(a) + DecodeAll(b)
  {}

  ghost predicate WithinBound(x: int, y: int) {
    32 * Abs(x - y) <= Abs(x) + 132
  }

  /** A whole buffer comes back within the bound exactly when it does not contain -32768. */
  lemma {:induction false} BufferError(pcm: seq<int16>)
    ensures (forall i :: 0 <= i < |pcm| ==> WithinBound(pcm[i], DecodeAll(EncodeAll(pcm))[i]))
            <==> SILENT_MIN !in pcm
  {
    var out := DecodeAll(EncodeAll(pcm));
    forall i | 0 <= i < |pcm| ensures WithinBound(pcm[i], out[i]) <==> pcm[i] != SILENT_MIN {
      ErrorBound(pcm[i]);
    }
  }

  method EncodeBuffer(pcm: seq<int16>, out: array<byte>)
    requires |pcm| <= out.Length
    modifies out
    ensures out[..|pcm|] == EncodeAll(pcm)
    ensures out[|pcm|..] == old(out[|pcm|..])
  {
    var i := 0;
    while i < |pcm|
      invariant i <= |pcm|
      invariant out[..i] == EncodeAll(pcm)[..i]
      invariant out[|pcm|..] == old(out[|pcm|..])
    {
      out[i] := Encode(pcm[i]);
      i := i + 1;
    }
  }

  method DecodeBuffer(mulaw: array<byte>, n: nat, out: array<int16>)
    requires n <= mulaw.Length && n <= out.Length
    modifies out
    ensures out[..n] == DecodeAll(mulaw[..n])
    ensures out[n..] == old(out[n..])
  {
    var i := 0;
    while i < n
      invariant i <= n
      invariant out[..i] == DecodeAll(mulaw[..n])[..i]
      invariant out[n..] == old(out[n..])
    {
      out[i] := Decode(mulaw[i]);
      i := i + 1;
    }
  }
}
