/** The dBFS-to-display-level conversion (`dBFS_convertTo_dB`) that both
    copies of the metering pipeline use, up to the final scale factor. */
module LevelMeter {

  /** `peak_bottom`: readings below this many dBFS are shown as silence. */
  const PeakBottom: real := -60.0

  /** The two `powf` calls of the conversion, kept abstract over the reals:
      `pow10(e)` stands for `powf(10.0, e)` and `sqrt(y)` for
      `powf(y, 1.0 / root)` with `root == 2.0`. */
  datatype MathLib = MathLib(pow10: real -> real, sqrt: real -> real) {

    /** `pow10` is positive, strictly increasing and 1 at 0; `sqrt` is the
        non-negative square root on the non-negative reals. */
    ghost predicate Valid() {
      && (forall e :: pow10(e) > 0.0)
      && (forall e1, e2 :: e1 < e2 ==> pow10(e1) < pow10(e2))
      && pow10(0.0) == 1.0
      && (forall y :: 0.0 <= y ==> 0.0 <= sqrt(y) && sqrt(y) * sqrt(y) == y)
    }
  }

  /** `minAmp`: the amplitude of the floor. */
  function MinAmp(m: MathLib): real {
    m.pow10(0.05 * PeakBottom)
  }

  /** `adjAmp`: the amplitude `10^(0.05 dbfs)` rescaled so that the floor maps
      to 0 and full scale to 1. `amp` and `minAmp` are the same expression. */
  function AdjAmp(dbfs: real, m: MathLib): real
    requires m.Valid()
  {
    var minAmp := MinAmp(m);
    assert minAmp < m.pow10(0.0);
    var inverseAmpRange := 1.0 / (1.0 - minAmp);
    var amp := m.pow10(0.05 * dbfs);
    (amp - minAmp) * inverseAmpRange
  }

  /** The square-root curve applied in the middle branch. */
  function CurveLevel(dbfs: real, m: MathLib): real
    requires m.Valid()
  {
    m.sqrt(AdjAmp(dbfs, m))
  }

  /** `level` before it is scaled: 0 below the floor, 1 from 0 dBFS up, the
      curve in between. It is 0 exactly up to the floor and 1 exactly from
      0 dBFS on. */
  function UnitLevel(dbfs: real, m: MathLib): (level: real)
    requires m.Valid()
    ensures 0.0 <= level <= 1.0
    ensures level == 0.0 <==> dbfs <= PeakBottom
    ensures level == 1.0 <==> 0.0 <= dbfs
  {
    if dbfs < PeakBottom then 0.0
    else if dbfs >= 0.0 then 1.0
    else CurveBounds(dbfs, m); CurveLevel(dbfs, m)
  }

  /** The scaled levels of a sequence of readings, in reading order. */
  function Levels(readings: seq<real>, scale: real, m: MathLib): (r: seq<real>)
    requires m.Valid()
  {
    seq(|readings|, k requires 0 <= k < |readings| => UnitLevel(readings[k], m) * scale)
  }

  // ---------------------------------------------------------------------
  // Arithmetic helpers

  lemma MulStrict(a: real, b: real, c: real)
    requires a < b && 0.0 < c
    ensures a * c < b * c
  {
    assert (b - a) * c > 0.0;
  }

  /** For non-negative reals, the squares are ordered as the numbers are. */
  lemma SquareOrder(a: real, b: real)
    requires 0.0 <= a && 0.0 <= b
    ensures a < b <==> a * a < b * b
  {
    if a < b {
      if a > 0.0 { MulStrict(a, b, a); }
      MulStrict(a, b, b);
      calc { a * a; <= b * a; < b * b; }
    } else if b < a {
      if b > 0.0 { MulStrict(b, a, b); }
      MulStrict(b, a, a);
      calc { b * b; <= a * b; < a * a; }
    }
  }

  /** The abstract square root is strictly increasing. */
  lemma SqrtStrict(m: MathLib, y1: real, y2: real)
    requires m.Valid() && 0.0 <= y1 < y2
    ensures m.sqrt(y1) < m.sqrt(y2)
  {
    SquareOrder(m.sqrt(y1), m.sqrt(y2));
  }

  /** The rescaled amplitude is strictly increasing in the reading. */
  lemma AdjAmpStrict(m: MathLib, x1: real, x2: real)
    requires m.Valid() && x1 < x2
    ensures AdjAmp(x1, m) < AdjAmp(x2, m)
  {
    var minAmp := MinAmp(m);
    assert minAmp < m.pow10(0.0);
    assert m.pow10(0.05 * x1) < m.pow10(0.05 * x2);
    MulStrict(m.pow10(0.05 * x1) - minAmp, m.pow10(0.05 * x2) - minAmp, 1.0 / (1.0 - minAmp));
  }

  /** At the floor the rescaled amplitude is 0 and at 0 dBFS it is 1. */
  lemma AdjAmpEnds(m: MathLib)
    requires m.Valid()
    ensures AdjAmp(PeakBottom, m) == 0.0
    ensures AdjAmp(0.0, m) == 1.0
  {
    var minAmp := MinAmp(m);
    assert minAmp < m.pow10(0.0);
    assert (1.0 - minAmp) * (1.0 / (1.0 - minAmp)) == 1.0;
  }

  /** In the middle branch the curve lies in [0, 1) and is 0 only at the floor. */
  lemma CurveBounds(dbfs: real, m: MathLib)
    requires m.Valid() && PeakBottom <= dbfs < 0.0
    ensures 0.0 <= CurveLevel(dbfs, m) < 1.0
    ensures CurveLevel(dbfs, m) == 0.0 <==> dbfs == PeakBottom
  {
    AdjAmpEnds(m);
    CurveAtZero(m);
    if dbfs == PeakBottom {
      CurveAtFloor(m);
    } else {
      AdjAmpStrict(m, PeakBottom, dbfs);
      SqrtStrict(m, 0.0, AdjAmp(dbfs, m));
      CurveAtFloor(m);
    }
    AdjAmpStrict(m, dbfs, 0.0);
    SqrtStrict(m, AdjAmp(dbfs, m), 1.0);
  }

  // ---------------------------------------------------------------------
  // Properties of the conversion

  /** The middle branch meets the lower clamp at the floor: there it yields 0,
      because `amp` and `minAmp` are then the same value. */
  lemma CurveAtFloor(m: MathLib)
    requires m.Valid()
    ensures CurveLevel(PeakBottom, m) == 0.0
  {
    AdjAmpEnds(m);
    var s := m.sqrt(0.0);
    SquareOrder(0.0, s);
  }

  /** The middle branch meets the upper clamp at 0 dBFS: the curve reaches 1
      there, so the two clamps agree with the formula at both seams. */
  lemma CurveAtZero(m: MathLib)
    requires m.Valid()
    ensures CurveLevel(0.0, m) == 1.0
  {
    AdjAmpEnds(m);
    var s := m.sqrt(1.0);
    SquareOrder(s, 1.0);
    SquareOrder(1.0, s);
  }

  /** The unscaled level never decreases as the reading rises. */
  lemma UnitLevelMonotone(m: MathLib, x1: real, x2: real)
    requires m.Valid() && x1 <= x2
    ensures UnitLevel(x1, m) <= UnitLevel(x2, m)
  {
    if x1 < x2 && PeakBottom <= x1 && x2 < 0.0 {
      UnitLevelStrict(m, x1, x2);
    }
  }

  /** Between the floor and 0 dBFS the unscaled level strictly increases. */
  lemma UnitLevelStrict(m: MathLib, x1: real, x2: real)
    requires m.Valid() && PeakBottom <= x1 < x2 < 0.0
    ensures UnitLevel(x1, m) < UnitLevel(x2, m)
  {
    AdjAmpStrict(m, x1, x2);
    AdjAmpEnds(m);
    if PeakBottom < x1 { AdjAmpStrict(m, PeakBottom, x1); }
    SqrtStrict(m, AdjAmp(x1, m), AdjAmp(x2, m));
  }
}
