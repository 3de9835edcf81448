/**
 The geometric signal extractor: the scalar ratios that the gesture state
 machine consumes each frame. Landmark points and the Euclidean norm are not
 modelled; every distance between two landmarks is given as a non-negative real.
 */
module Geometry {

  /** Guard added to every denominator so that it is never zero. */
  const EPS: real := 1e-9

  /** A Euclidean distance between two landmarks, in pixels. */
  type Distance = x: real | 0.0 <= x witness 0.0

  /** The three distances the eye-aspect-ratio needs, for landmarks p1..p6 of one eye. */
  datatype EyeDistances = EyeDistances(p2p6: Distance, p3p5: Distance, p1p4: Distance)

  /** What one detected face contributes to one frame: the landmark distances
      the core reads, and the face scale (the bounding-box diagonal). */
  datatype Frame = Frame(
    leftEye: EyeDistances,
    rightEye: EyeDistances,
    lips: Distance,        // upper lip to lower lip
    browLeft: Distance,    // left brow top to left upper eyelid
    browRight: Distance,   // right brow top to right upper eyelid
    faceSize: Distance)

  /** The four per-frame signals: averaged EAR, mouth ratio and the two brow ratios. */
  datatype Signals = Signals(ear: real, mouthRatio: real, browL: real, browR: real)

  /** Eye-aspect-ratio (p2p6 + p3p5) / (2 p1p4 + EPS): non-negative, zero exactly
      when both lids touch, and never above the unguarded ratio; the guard costs
      exactly r * EPS / (2 p1p4) against it, and with the eye corners together the
      ratio is the lid sum over EPS alone. */
  function EyeAspectRatio(e: EyeDistances): (r: real)
    ensures 0.0 <= r
    ensures r == 0.0 <==> e.p2p6 + e.p3p5 == 0.0
    ensures e.p1p4 > 0.0 ==> r <= (e.p2p6 + e.p3p5) / (2.0 * e.p1p4)
    ensures e.p1p4 > 0.0 && e.p2p6 + e.p3p5 > 0.0 ==> r < (e.p2p6 + e.p3p5) / (2.0 * e.p1p4)
    ensures e.p1p4 > 0.0 ==> (e.p2p6 + e.p3p5) / (2.0 * e.p1p4) - r == r * EPS / (2.0 * e.p1p4)
    ensures e.p1p4 == 0.0 ==> r == (e.p2p6 + e.p3p5) / EPS
  {
    var num, den := e.p2p6 + e.p3p5, 2.0 * e.p1p4 + EPS;
    var r := num / den;
    assert r * den == num;
    if e.p1p4 > 0.0 then
      ShrinkingDenominator(num, 2.0 * e.p1p4, den);
      GuardCost(num, 2.0 * e.p1p4, r);
      r
    else
      r
  }

  /** A distance normalised by the face scale, d / (faceSize + EPS): non-negative,
      zero exactly for a zero distance, and never above the unguarded ratio. */
  function ScaledRatio(d: Distance, faceSize: Distance): (r: real)
    ensures 0.0 <= r
    ensures r == 0.0 <==> d == 0.0
    ensures faceSize > 0.0 ==> r <= d / faceSize
    ensures faceSize > 0.0 && d > 0.0 ==> r < d / faceSize
    ensures faceSize > 0.0 ==> d / faceSize - r == r * EPS / faceSize
    ensures faceSize == 0.0 ==> r == d / EPS
  {
    var r := d / (faceSize + EPS);
    assert r * (faceSize + EPS) == d;
    if faceSize > 0.0 then
      ShrinkingDenominator(d, faceSize, faceSize + EPS);
      GuardCost(d, faceSize, r);
      r
    else
      r
  }

  /** What adding EPS to a positive denominator costs: the quotient num / (den + EPS)
      falls short of num / den by exactly that quotient times EPS / den. */
  lemma GuardCost(num: real, den: real, r: real)
    requires 0.0 < den && r * (den + EPS) == num
    ensures num / den - r == r * EPS / den
  {
    var q, c := num / den, r * EPS / den;
    assert q * den == num && c * den == r * EPS;
    assert (q - r) * den == num - r * den == r * EPS;
    assert (q - r - c) * den == 0.0;
  }

  /** Dividing a non-negative numerator by a larger denominator gives no more. */
  lemma ShrinkingDenominator(num: real, small: real, big: real)
    requires 0.0 <= num && 0.0 < small < big
    ensures num / big <= num / small
    ensures num > 0.0 ==> num / big < num / small
  {
    var a, b := num / big, num / small;
    assert a * big == num && b * small == num;
    if num > 0.0 {
      assert a * big == b * small;
      assert 0.0 < b && 0.0 < a;
      assert b * small < b * big;
    }
  }

  /** The per-frame signals read from one face: the two eyes' EAR averaged, and the
      lip and brow distances scaled by the face size. */
  function FrameSignals(f: Frame): (s: Signals)
    ensures 0.0 <= s.ear && 0.0 <= s.mouthRatio && 0.0 <= s.browL && 0.0 <= s.browR
    ensures EyeAspectRatio(f.leftEye) <= s.ear <= EyeAspectRatio(f.rightEye)
         || EyeAspectRatio(f.rightEye) <= s.ear <= EyeAspectRatio(f.leftEye)
    ensures s.mouthRatio == 0.0 <==> f.lips == 0.0
  {
    Signals(
      (EyeAspectRatio(f.leftEye) + EyeAspectRatio(f.rightEye)) / 2.0,
      ScaledRatio(f.lips, f.faceSize),
      ScaledRatio(f.browLeft, f.faceSize),
      ScaledRatio(f.browRight, f.faceSize))
  }
}
