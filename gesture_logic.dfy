/**
 The per-session gesture state machine as functions on values: one frame's
 eye, mouth and eyebrow updates, the status labels, and the invariant that
 every state reachable from a fresh session keeps. GestureCounter.Process
 performs the same update step by step on the stored record and is proved
 equal to Step.
 */
module GestureLogic {
  import opened Geometry

  // Eye: one threshold, edge-triggered.
  const EAR_CLOSE: real := 0.21
  // Mouth: open above MOUTH_OPEN, close below MOUTH_OPEN_HYST.
  const MOUTH_OPEN: real := 0.030
  const MOUTH_OPEN_HYST: real := 0.025
  // Eyebrows: calibration length and smoothing.
  const CALIB_FRAMES: nat := 12
  const ALPHA_CAL: real := 0.4
  const ALPHA: real := 0.25
  // Eyebrows: relative thresholds, baseline floor and drift rate.
  const RAISE_PCT: real := 1.18
  const RAISE_PCT_HYST: real := 1.12
  const BASELINE_FLOOR: real := 1e-6
  const BASELINE_LR: real := 0.002

  // Status labels, as the service reports them.
  const EYE_CLOSED: string := "cerrado"
  const EYE_OPEN: string := "abierto"
  const MOUTH_OPENED: string := "abierta"
  const MOUTH_CLOSED: string := "cerrada"
  const BROW_HIGH: string := "alta"
  const BROW_CALIBRATING: string := "calibrando"
  const BROW_NORMAL: string := "normal"

  /** One session's record: three event counters, three debounced flags, and the
      eyebrow calibration (frames seen, baselines, exponential moving averages). */
  datatype SessionState = SessionState(
    blinks: nat,
    mouthOpens: nat,
    browRaises: nat,
    eyeClosed: bool,
    mouthOpen: bool,
    browHigh: bool,
    framesSeen: nat,
    browBaseL: real,
    browBaseR: real,
    browEmaL: real,
    browEmaR: real,
    calibrated: bool)

  /** The status snapshot returned with every frame. */
  datatype Status = Status(eye: string, mouth: string, brow: string)

  /** What holds of every state a session can reach: calibration completes after
      exactly CALIB_FRAMES frames, no raise happens before it, and a raised flag
      has been counted. */
  predicate Valid(s: SessionState) {
    && (!s.calibrated ==> s.framesSeen < CALIB_FRAMES && !s.browHigh && s.browRaises == 0)
    && (s.calibrated ==> s.framesSeen == CALIB_FRAMES)
    && (s.browHigh ==> s.browRaises > 0)
    && (s.mouthOpen ==> s.mouthOpens > 0)
  }

  /** The record a session starts with: everything zero or false. */
  function NewSession(): (s: SessionState)
    ensures Valid(s) && !s.calibrated && s.framesSeen == 0
    ensures s.blinks == 0 && s.mouthOpens == 0 && s.browRaises == 0
  {
    SessionState(0, 0, 0, false, false, false, 0, 0.0, 0.0, 0.0, 0.0, false)
  }

  function Max(a: real, b: real): real {
    if a < b then b else a
  }

  /** Exponential smoothing alpha * sample + (1 - alpha) * prev: the result lies
      between the previous value and the sample, and moves only if they differ. */
  function Ema(alpha: real, sample: real, prev: real): (r: real)
    requires 0.0 < alpha < 1.0
    ensures prev <= sample ==> prev <= r <= sample
    ensures sample <= prev ==> sample <= r <= prev
    ensures r == prev <==> sample == prev
  {
    var r := alpha * sample + (1.0 - alpha) * prev;
    EmaBounds(alpha, sample, prev, r);
    r
  }

  /** The bounds Ema promises, proved on its defining expression. */
  lemma EmaBounds(alpha: real, sample: real, prev: real, r: real)
    requires 0.0 < alpha < 1.0
    requires r == alpha * sample + (1.0 - alpha) * prev
    ensures prev <= sample ==> prev <= r <= sample
    ensures sample <= prev ==> sample <= r <= prev
    ensures r == prev <==> sample == prev
  {
    var toSample := alpha * (sample - prev);
    var toPrev := (1.0 - alpha) * (prev - sample);
    assert r == prev + toSample;
    assert r == sample + toPrev;
    ProductSign(alpha, sample - prev, toSample);
    ProductSign(1.0 - alpha, prev - sample, toPrev);
    if sample < prev {
      assert toSample < 0.0 && toPrev > 0.0;
    } else if prev < sample {
      assert toSample > 0.0 && toPrev < 0.0;
    } else {
      assert toSample == 0.0;
    }
  }

  /** The sign of a product with a positive factor is the sign of the other factor. */
  lemma ProductSign(k: real, x: real, p: real)
    requires 0.0 < k && p == k * x
    ensures x > 0.0 ==> p > 0.0
    ensures x < 0.0 ==> p < 0.0
    ensures x == 0.0 ==> p == 0.0
  {
  }

  /** The eye branch: the flag follows the level (closed below EAR_CLOSE), and a
      blink is counted exactly on a closed-to-open edge. */
  function EyeStep(s: SessionState, ear: real): (r: SessionState)
    ensures r == s.(eyeClosed := r.eyeClosed, blinks := r.blinks)
    ensures r.eyeClosed <==> ear < EAR_CLOSE
    ensures r.blinks == if s.eyeClosed && !r.eyeClosed then s.blinks + 1 else s.blinks
  {
    if ear < EAR_CLOSE && !s.eyeClosed then
      s.(eyeClosed := true)
    else if ear >= EAR_CLOSE && s.eyeClosed then
      s.(eyeClosed := false, blinks := s.blinks + 1)
    else
      s
  }

  /** The mouth branch: two-threshold hysteresis with dead zone
      [MOUTH_OPEN_HYST, MOUTH_OPEN]; an opening is counted on the rising edge. */
  function MouthStep(s: SessionState, ratio: real): (r: SessionState)
    ensures r == s.(mouthOpen := r.mouthOpen, mouthOpens := r.mouthOpens)
    ensures ratio > MOUTH_OPEN ==> r.mouthOpen
    ensures ratio < MOUTH_OPEN_HYST ==> !r.mouthOpen
    ensures MOUTH_OPEN_HYST <= ratio <= MOUTH_OPEN ==> r.mouthOpen == s.mouthOpen
    ensures r.mouthOpens == if !s.mouthOpen && r.mouthOpen then s.mouthOpens + 1 else s.mouthOpens
  {
    if !s.mouthOpen && ratio > MOUTH_OPEN then
      s.(mouthOpen := true, mouthOpens := s.mouthOpens + 1)
    else if s.mouthOpen && ratio < MOUTH_OPEN_HYST then
      s.(mouthOpen := false)
    else
      s
  }

  /** A calibration frame: one more frame seen; the first frame seeds the averages
      with the samples, later ones smooth fast; the frame that brings the count to
      CALIB_FRAMES freezes the baselines at the averages and ends calibration.
      No raise is detected. */
  function CalibrationStep(s: SessionState, browL: real, browR: real): (r: SessionState)
    requires !s.calibrated
    ensures r == s.(framesSeen := r.framesSeen, calibrated := r.calibrated,
                    browEmaL := r.browEmaL, browEmaR := r.browEmaR,
                    browBaseL := r.browBaseL, browBaseR := r.browBaseR)
    ensures r.framesSeen == s.framesSeen + 1
    ensures r.calibrated <==> r.framesSeen >= CALIB_FRAMES
    ensures r.calibrated ==> r.browBaseL == r.browEmaL && r.browBaseR == r.browEmaR
    ensures !r.calibrated ==> r.browBaseL == s.browBaseL && r.browBaseR == s.browBaseR
    ensures s.framesSeen == 0 ==> r.browEmaL == browL && r.browEmaR == browR
    ensures s.framesSeen > 0 ==>
              (s.browEmaL <= r.browEmaL <= browL || browL <= r.browEmaL <= s.browEmaL) &&
              (s.browEmaR <= r.browEmaR <= browR || browR <= r.browEmaR <= s.browEmaR)
    // after the first frame, each average closes 40% of its gap to the sample
    ensures s.framesSeen > 0 ==>
              r.browEmaL - browL == (1.0 - ALPHA_CAL) * (s.browEmaL - browL) &&
              r.browEmaR - browR == (1.0 - ALPHA_CAL) * (s.browEmaR - browR)
  {
    var seen := s.framesSeen + 1;
    var emaL := if seen == 1 then browL else Ema(ALPHA_CAL, browL, s.browEmaL);
    var emaR := if seen == 1 then browR else Ema(ALPHA_CAL, browR, s.browEmaR);
    if seen >= CALIB_FRAMES then
      s.(framesSeen := seen, browEmaL := emaL, browEmaR := emaR,
         browBaseL := emaL, browBaseR := emaR, calibrated := true)
    else
      s.(framesSeen := seen, browEmaL := emaL, browEmaR := emaR)
  }

  /** The raise threshold for a baseline: RAISE_PCT above it, the baseline floored. */
  function HighThreshold(base: real): (t: real)
    ensures t > 0.0 && t > base
  {
    Max(base, BASELINE_FLOOR) * RAISE_PCT
  }

  /** The return threshold for a baseline: RAISE_PCT_HYST above it, the baseline
      floored; strictly below the raise threshold, which leaves a dead band. */
  function LowThreshold(base: real): (t: real)
    ensures 0.0 < t < HighThreshold(base)
    ensures t > base
  {
    Max(base, BASELINE_FLOOR) * RAISE_PCT_HYST
  }

  /** An operating frame: the averages smooth slowly; a raise is counted when the
      flag is down and either side's average is above its raise threshold; the flag
      drops only when both sides are below their return thresholds; then each
      baseline drifts a little toward its average. Thresholds use the baselines
      from before the drift. */
  function OperatingStep(s: SessionState, browL: real, browR: real): (r: SessionState)
    requires s.calibrated
    ensures r == s.(browEmaL := r.browEmaL, browEmaR := r.browEmaR,
                    browBaseL := r.browBaseL, browBaseR := r.browBaseR,
                    browHigh := r.browHigh, browRaises := r.browRaises)
    ensures s.browEmaL <= r.browEmaL <= browL || browL <= r.browEmaL <= s.browEmaL
    ensures s.browEmaR <= r.browEmaR <= browR || browR <= r.browEmaR <= s.browEmaR
    ensures s.browBaseL <= r.browBaseL <= r.browEmaL || r.browEmaL <= r.browBaseL <= s.browBaseL
    ensures s.browBaseR <= r.browBaseR <= r.browEmaR || r.browEmaR <= r.browBaseR <= s.browBaseR
    ensures !s.browHigh ==>
              (r.browHigh <==> r.browEmaL > HighThreshold(s.browBaseL) ||
                               r.browEmaR > HighThreshold(s.browBaseR))
    ensures s.browHigh ==>
              (!r.browHigh <==> r.browEmaL < LowThreshold(s.browBaseL) &&
                                r.browEmaR < LowThreshold(s.browBaseR))
    ensures r.browRaises == if !s.browHigh && r.browHigh then s.browRaises + 1 else s.browRaises
  {
    var emaL := Ema(ALPHA, browL, s.browEmaL);
    var emaR := Ema(ALPHA, browR, s.browEmaR);
    var leftHigh := emaL > HighThreshold(s.browBaseL);
    var leftLow := emaL < LowThreshold(s.browBaseL);
    var rightHigh := emaR > HighThreshold(s.browBaseR);
    var rightLow := emaR < LowThreshold(s.browBaseR);
    var (high, raises) :=
      if !s.browHigh && (leftHigh || rightHigh) then (true, s.browRaises + 1)
      else if s.browHigh && leftLow && rightLow then (false, s.browRaises)
      else (s.browHigh, s.browRaises);
    s.(browEmaL := emaL, browEmaR := emaR, browHigh := high, browRaises := raises,
       browBaseL := Ema(BASELINE_LR, emaL, s.browBaseL),
       browBaseR := Ema(BASELINE_LR, emaR, s.browBaseR))
  }

  /** The eyebrow branch: calibration until it completes, operation afterwards.
      Only the eyebrow fields change; calibration never reverts; a calibrating frame
      counts one frame and leaves the flag and the raise count alone, and an
      operating frame freezes the frame count and raises at most once. */
  function BrowStep(s: SessionState, browL: real, browR: real): (r: SessionState)
    ensures r == s.(framesSeen := r.framesSeen, calibrated := r.calibrated,
                    browEmaL := r.browEmaL, browEmaR := r.browEmaR,
                    browBaseL := r.browBaseL, browBaseR := r.browBaseR,
                    browHigh := r.browHigh, browRaises := r.browRaises)
    ensures r.calibrated <==> s.calibrated || s.framesSeen + 1 >= CALIB_FRAMES
    ensures s.calibrated ==> r.framesSeen == s.framesSeen
    ensures !s.calibrated ==>
              r.framesSeen == s.framesSeen + 1 &&
              r.browHigh == s.browHigh && r.browRaises == s.browRaises
    ensures r.browRaises == s.browRaises || r.browRaises == s.browRaises + 1
  {
    if s.calibrated then OperatingStep(s, browL, browR) else CalibrationStep(s, browL, browR)
  }

  /** One frame: eye, then mouth, then eyebrows. Each counter grows by at most one;
      a blink is counted exactly when a closed eye reopens, an opening exactly when
      a closed mouth passes MOUTH_OPEN, and the dead zone changes nothing;
      calibration never reverts and freezes the frame count, no raise happens while
      calibrating, and the session invariant is kept. */
  function Step(s: SessionState, sig: Signals): (r: SessionState)
    ensures r.blinks == s.blinks || r.blinks == s.blinks + 1
    ensures r.blinks == s.blinks + 1 <==> s.eyeClosed && sig.ear >= EAR_CLOSE
    ensures r.mouthOpens == s.mouthOpens + 1 <==> !s.mouthOpen && sig.mouthRatio > MOUTH_OPEN
    ensures MOUTH_OPEN_HYST <= sig.mouthRatio <= MOUTH_OPEN ==>
              r.mouthOpen == s.mouthOpen && r.mouthOpens == s.mouthOpens
    ensures r.mouthOpens == s.mouthOpens || r.mouthOpens == s.mouthOpens + 1
    ensures r.browRaises == s.browRaises || r.browRaises == s.browRaises + 1
    ensures s.calibrated ==> r.calibrated && r.framesSeen == s.framesSeen
    ensures !s.calibrated ==>
              r.framesSeen == s.framesSeen + 1 && r.browHigh == s.browHigh &&
              r.browRaises == s.browRaises
    ensures Valid(s) ==> Valid(r)
  {
    BrowStep(MouthStep(EyeStep(s, sig.ear), sig.mouthRatio), sig.browL, sig.browR)
  }

  /** The status labels. In a valid state the brow reads "calibrating" exactly while
      calibration is incomplete, and "high" exactly while the flag is up. */
  function StatusOf(s: SessionState): (st: Status)
    ensures st.eye == EYE_CLOSED <==> s.eyeClosed
    ensures st.mouth == MOUTH_OPENED <==> s.mouthOpen
    ensures st.brow == BROW_HIGH <==> s.browHigh
    ensures st.brow == BROW_CALIBRATING <==> !s.browHigh && !s.calibrated
    ensures Valid(s) ==> (st.brow == BROW_CALIBRATING <==> !s.calibrated)
    ensures st.eye in {EYE_CLOSED, EYE_OPEN} && st.mouth in {MOUTH_OPENED, MOUTH_CLOSED}
    ensures st.brow in {BROW_HIGH, BROW_CALIBRATING, BROW_NORMAL}
  {
    Status(
      if s.eyeClosed then EYE_CLOSED else EYE_OPEN,
      if s.mouthOpen then MOUTH_OPENED else MOUTH_CLOSED,
      if s.browHigh then BROW_HIGH else if !s.calibrated then BROW_CALIBRATING else BROW_NORMAL)
  }
}
