/** Scores. The evaluator accumulates a two-lane score (middlegame, endgame),
    the first two lanes of simdScore, and finally blends the lanes by the game
    phase into a single Score. */
module Scores {

  /** The two used lanes of simdScore. */
  datatype SimdScore = SimdScore(mg: int, eg: int) {
    function Plus(o: SimdScore): SimdScore {
      SimdScore(mg + o.mg, eg + o.eg)
    }

    function Minus(o: SimdScore): SimdScore {
      SimdScore(mg - o.mg, eg - o.eg)
    }

    function Neg(): SimdScore {
      SimdScore(-mg, -eg)
    }

    /** simdScore * int, lane by lane. */
    function Times(k: int): SimdScore {
      SimdScore(k * mg, k * eg)
    }
  }

  const Zero := SimdScore(0, 0)

  /** Subtracting a score undoes adding it, and a negated score cancels it. */
  lemma MinusUndoesPlus(a: SimdScore, o: SimdScore)
    ensures a.Plus(o).Minus(o) == a && a.Minus(o).Plus(o) == a
    ensures a.Neg().Plus(a) == Zero
  {
  }

  /** The final, single-lane score. */
  type Score = int

  /** The full phase: gamePhase runs from 0 (opening) to PhaseRange (bare endgame). */
  const PhaseRange: int := 65536

  /** C++ integer division: the quotient is truncated toward zero, so unlike
      Dafny's Euclidean division it is odd in the dividend. */
  function TruncDiv(a: int, b: int): (q: int)
    requires b > 0
    ensures a >= 0 ==> q >= 0 && q * b <= a < q * b + b
    ensures a < 0 ==> q <= 0 && q * b - b < a <= q * b
  {
    if a >= 0 then a / b else -((-a) / b)
  }

  /** Truncation commutes with negation, which Euclidean division does not. */
  lemma TruncDivNeg(a: int, b: int)
    requires b > 0
    ensures TruncDiv(-a, b) == -TruncDiv(a, b)
  {
    if a > 0 {
      assert -a < 0;
    } else if a < 0 {
      assert -(-a) == a;
    }
  }

  lemma MulCancelLt(x: int, y: int, b: int)
    requires b > 0 && x * b < y * b
    ensures x < y
  {
  }

  /** A quotient of a dividend between lo * b and hi * b lies between lo and hi. */
  lemma TruncDivBounds(a: int, b: int, lo: int, hi: int)
    requires b > 0 && lo * b <= a <= hi * b
    ensures lo <= TruncDiv(a, b) <= hi
  {
    var q := TruncDiv(a, b);
    if a >= 0 {
      assert q * b < (hi + 1) * b;
      MulCancelLt(q, hi + 1, b);
      assert lo * b < (q + 1) * b;
      MulCancelLt(lo, q + 1, b);
    } else {
      assert (q - 1) * b < hi * b;
      MulCancelLt(q - 1, hi, b);
      assert lo * b < (q + 1) * b;
      MulCancelLt(lo, q + 1, b);
    }
  }

  /** The phase interpolation of the finalizing step:
      (mg * (65536 - phase) + eg * phase) / 65536 with C++ division. */
  function Interpolate(s: SimdScore, phase: int): (r: Score) {
    TruncDiv(s.mg * (PhaseRange - phase) + s.eg * phase, PhaseRange)
  }

  /** At phase 0 the score is the middlegame lane ... */
  lemma InterpolateOpening(s: SimdScore)
    ensures Interpolate(s, 0) == s.mg
  {
    TruncDivBounds(s.mg * PhaseRange, PhaseRange, s.mg, s.mg);
  }

  /** ... and at the full phase it is the endgame lane. */
  lemma InterpolateEndgame(s: SimdScore)
    ensures Interpolate(s, PhaseRange) == s.eg
  {
    TruncDivBounds(s.eg * PhaseRange, PhaseRange, s.eg, s.eg);
  }

  lemma MulLe(k: int, x: int, y: int)
    requires k >= 0 && x <= y
    ensures k * x <= k * y
  {
  }

  /** Within the phase range the blend lies between the two lanes. */
  lemma InterpolateBetween(s: SimdScore, phase: int)
    requires 0 <= phase <= PhaseRange
    ensures s.mg <= s.eg ==> s.mg <= Interpolate(s, phase) <= s.eg
    ensures s.eg <= s.mg ==> s.eg <= Interpolate(s, phase) <= s.mg
  {
    var a := s.mg * (PhaseRange - phase) + s.eg * phase;
    assert a == s.mg * PhaseRange + (s.eg - s.mg) * phase;
    if s.mg <= s.eg {
      MulLe(s.eg - s.mg, 0, phase);
      MulLe(s.eg - s.mg, phase, PhaseRange);
      TruncDivBounds(a, PhaseRange, s.mg, s.eg);
    } else {
      MulLe(s.mg - s.eg, 0, phase);
      MulLe(s.mg - s.eg, phase, PhaseRange);
      TruncDivBounds(a, PhaseRange, s.eg, s.mg);
    }
  }

  /** Negating both lanes negates the blend: the evaluation is colour-symmetric
      under truncating division. */
  lemma InterpolateNeg(s: SimdScore, phase: int)
    ensures Interpolate(s.Neg(), phase) == -Interpolate(s, phase)
  {
    var a := s.mg * (PhaseRange - phase) + s.eg * phase;
    assert (-s.mg) * (PhaseRange - phase) + (-s.eg) * phase == -a;
    TruncDivNeg(a, PhaseRange);
  }
}
