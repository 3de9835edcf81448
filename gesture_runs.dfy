/**
 Sequences of frames fed to one session: what the edge-triggered counters,
 the hysteresis and the one-way calibration guarantee over many calls, and
 the worked scenarios for eyes, mouth and eyebrows.
 */
module GestureRuns {
  import opened Geometry
  import opened GestureLogic

  /** The state after processing the frames fs, in order, starting from s. Over any
      run every counter is non-decreasing and grows by at most one per frame, a
      calibrated session stays calibrated with its frame count frozen, and the
      session invariant is kept. */
  function Run(s: SessionState, fs: seq<Signals>): (r: SessionState)
    decreases |fs|
    ensures s.blinks <= r.blinks <= s.blinks + |fs|
    ensures s.mouthOpens <= r.mouthOpens <= s.mouthOpens + |fs|
    ensures s.browRaises <= r.browRaises <= s.browRaises + |fs|
    ensures s.calibrated ==> r.calibrated && r.framesSeen == s.framesSeen
    ensures Valid(s) ==> Valid(r)
  {
    if fs == [] then s else Run(Step(s, fs[0]), fs[1..])
  }

  /** Processing a + b is processing a, then b. */
  lemma {:induction false} RunAppend(s: SessionState, a: seq<Signals>, b: seq<Signals>)
    ensures Run(s, a + b) == Run(Run(s, a), b)
    decreases |a|
  {
    if a == [] {
      assert a + b == b;
    } else {
      assert (a + b)[1..] == a[1..] + b;
      RunAppend(Step(s, a[0]), a[1..], b);
    }
  }

  /** Processing one more frame is one more step. */
  lemma RunSnoc(s: SessionState, fs: seq<Signals>, f: Signals)
    ensures Run(s, fs + [f]) == Step(Run(s, fs), f)
  {
    RunAppend(s, fs, [f]);
    assert Run(Run(s, fs), [f]) == Run(Step(Run(s, fs), f), []);
  }

  // ---------------------------------------------------------------- eyes

  /** A run of frames with the eye below EAR_CLOSE counts no blink, and leaves the
      eye closed from its first frame on. */
  lemma {:induction false} ClosedEyesCountNothing(s: SessionState, fs: seq<Signals>)
    requires forall i :: 0 <= i < |fs| ==> fs[i].ear < EAR_CLOSE
    ensures Run(s, fs).blinks == s.blinks
    ensures fs != [] ==> Run(s, fs).eyeClosed
    decreases |fs|
  {
    if fs != [] {
      ClosedEyesCountNothing(Step(s, fs[0]), fs[1..]);
    }
  }

  /** A run of frames with the eye at or above EAR_CLOSE counts one blink if the eye
      was closed before it, and none otherwise, however long it lasts. */
  lemma {:induction false} OpenEyesCountAtMostOne(s: SessionState, fs: seq<Signals>)
    requires forall i :: 0 <= i < |fs| ==> fs[i].ear >= EAR_CLOSE
    ensures Run(s, fs).blinks == if s.eyeClosed && fs != [] then s.blinks + 1 else s.blinks
    ensures fs != [] ==> !Run(s, fs).eyeClosed
    decreases |fs|
  {
    if fs != [] {
      OpenEyesCountAtMostOne(Step(s, fs[0]), fs[1..]);
    }
  }

  /** Whether the eye is closed just before frame i: the session's flag for the
      first frame, the previous frame's level afterwards. */
  function ClosedBefore(closed0: bool, fs: seq<Signals>, i: nat): bool
    requires i <= |fs|
  {
    if i == 0 then closed0 else fs[i - 1].ear < EAR_CLOSE
  }

  /** The number of reopening edges among the first n frames: frames at or above
      EAR_CLOSE that follow a closed eye. */
  function Reopens(closed0: bool, fs: seq<Signals>, n: nat): nat
    requires n <= |fs|
  {
    if n == 0 then 0
    else Reopens(closed0, fs, n - 1) +
         (if ClosedBefore(closed0, fs, n - 1) && fs[n - 1].ear >= EAR_CLOSE then 1 else 0)
  }

  /** Blinks are counted once per reopening edge and never per frame: after the
      first n frames the count has grown by exactly the number of reopening edges. */
  lemma {:induction false} BlinksCountReopens(s: SessionState, fs: seq<Signals>, n: nat)
    requires n <= |fs|
    ensures Run(s, fs[..n]).blinks == s.blinks + Reopens(s.eyeClosed, fs, n)
    ensures Run(s, fs[..n]).eyeClosed == ClosedBefore(s.eyeClosed, fs, n)
  {
    if n == 0 {
      assert fs[..0] == [];
    } else {
      BlinksCountReopens(s, fs, n - 1);
      assert fs[..n] == fs[..n - 1] + [fs[n - 1]];
      RunSnoc(s, fs[..n - 1], fs[n - 1]);
    }
  }

  // ---------------------------------------------------------------- mouth

  /** Ratios inside the dead zone [MOUTH_OPEN_HYST, MOUTH_OPEN], however they
      oscillate, neither open nor close the mouth, and count nothing. */
  lemma {:induction false} MouthDeadZoneKeepsState(s: SessionState, fs: seq<Signals>)
    requires forall i :: 0 <= i < |fs| ==> MOUTH_OPEN_HYST <= fs[i].mouthRatio <= MOUTH_OPEN
    ensures Run(s, fs).mouthOpen == s.mouthOpen
    ensures Run(s, fs).mouthOpens == s.mouthOpens
    decreases |fs|
  {
    if fs != [] {
      MouthDeadZoneKeepsState(Step(s, fs[0]), fs[1..]);
    }
  }

  /** While the mouth stays open (no ratio below MOUTH_OPEN_HYST), no further
      opening is counted. */
  lemma {:induction false} OpenMouthCountsNothing(s: SessionState, fs: seq<Signals>)
    requires s.mouthOpen
    requires forall i :: 0 <= i < |fs| ==> MOUTH_OPEN_HYST <= fs[i].mouthRatio
    ensures Run(s, fs).mouthOpen
    ensures Run(s, fs).mouthOpens == s.mouthOpens
    decreases |fs|
  {
    if fs != [] {
      OpenMouthCountsNothing(Step(s, fs[0]), fs[1..]);
    }
  }

  // ---------------------------------------------------------------- calibration

  /** Before the CALIB_FRAMES-th frame a session is still calibrating: one frame
      counted per frame, no raise, and the brow reported as calibrating. */
  lemma {:induction false} StillCalibrating(s: SessionState, fs: seq<Signals>)
    requires Valid(s) && !s.calibrated && s.framesSeen + |fs| < CALIB_FRAMES
    ensures !Run(s, fs).calibrated
    ensures Run(s, fs).framesSeen == s.framesSeen + |fs|
    ensures Run(s, fs).browRaises == 0 && !Run(s, fs).browHigh
    ensures StatusOf(Run(s, fs)).brow == BROW_CALIBRATING
    decreases |fs|
  {
    if fs != [] {
      StillCalibrating(Step(s, fs[0]), fs[1..]);
    }
  }

  /** The frame that brings the count to CALIB_FRAMES ends calibration, with the
      baselines equal to the averages and still no raise counted. */
  lemma CalibrationCompletes(s: SessionState, fs: seq<Signals>)
    requires Valid(s) && !s.calibrated && s.framesSeen + |fs| == CALIB_FRAMES
    ensures Run(s, fs).calibrated && Run(s, fs).framesSeen == CALIB_FRAMES
    ensures Run(s, fs).browBaseL == Run(s, fs).browEmaL
    ensures Run(s, fs).browBaseR == Run(s, fs).browEmaR
    ensures Run(s, fs).browRaises == 0 && !Run(s, fs).browHigh
  {
    var k := |fs| - 1;
    assert fs == fs[..k] + [fs[k]];
    StillCalibrating(s, fs[..k]);
    RunSnoc(s, fs[..k], fs[k]);
  }

  /** A fresh session calibrates for exactly CALIB_FRAMES frames: before that it is
      not calibrated and reports "calibrating"; from then on it is calibrated with
      its frame count frozen; and no raise is counted during the first
      CALIB_FRAMES frames, whatever the input. */
  lemma FreshSessionCalibration(fs: seq<Signals>)
    ensures |fs| < CALIB_FRAMES ==>
              !Run(NewSession(), fs).calibrated &&
              Run(NewSession(), fs).framesSeen == |fs| &&
              StatusOf(Run(NewSession(), fs)).brow == BROW_CALIBRATING
    ensures |fs| >= CALIB_FRAMES ==>
              Run(NewSession(), fs).calibrated && Run(NewSession(), fs).framesSeen == CALIB_FRAMES
    ensures |fs| <= CALIB_FRAMES ==> Run(NewSession(), fs).browRaises == 0
  {
    if |fs| < CALIB_FRAMES {
      StillCalibrating(NewSession(), fs);
    } else {
      var pre := fs[..CALIB_FRAMES];
      assert fs == pre + fs[CALIB_FRAMES..];
      CalibrationCompletes(NewSession(), pre);
      RunAppend(NewSession(), pre, fs[CALIB_FRAMES..]);
    }
  }

  /** Calibrating on steady brow ratios: the averages settle on the ratios from the
      first frame on, so the baselines frozen at the end of calibration are exactly
      those ratios. */
  lemma {:induction false} SteadyCalibration(s: SessionState, fs: seq<Signals>, bl: real, br: real)
    requires Valid(s) && !s.calibrated && s.framesSeen + |fs| <= CALIB_FRAMES
    requires s.framesSeen > 0 ==> s.browEmaL == bl && s.browEmaR == br
    requires forall i :: 0 <= i < |fs| ==> fs[i].browL == bl && fs[i].browR == br
    ensures Run(s, fs).framesSeen > 0 ==> Run(s, fs).browEmaL == bl && Run(s, fs).browEmaR == br
    ensures s.framesSeen + |fs| == CALIB_FRAMES ==>
              Run(s, fs).calibrated && Run(s, fs).browBaseL == bl && Run(s, fs).browBaseR == br
    decreases |fs|
  {
    if fs != [] {
      var t := Step(s, fs[0]);
      if t.calibrated {
        assert fs[1..] == [];
      } else {
        SteadyCalibration(t, fs[1..], bl, br);
      }
    }
  }

  /** Calibration smooths fast: from a fresh session, brow ratios 0.1 then 0.2 on
      both sides leave the averages at 0.14, 40% of the way from 0.1 to 0.2. */
  lemma CalibrationSmoothing()
    ensures var s := Run(NewSession(), [Neutral(0.30, 0.1), Neutral(0.30, 0.2)]);
              !s.calibrated && s.framesSeen == 2 && s.browEmaL == 0.14 && s.browEmaR == 0.14
  {
    var f1, f2 := Neutral(0.30, 0.1), Neutral(0.30, 0.2);
    RunSnoc(NewSession(), [f1], f2);
    RunSnoc(NewSession(), [], f1);
    assert [f1] + [f2] == [f1, f2];
  }

  // ---------------------------------------------------------------- eyebrows

  /** Smoothing keeps a single spike from counting: with the average not above the
      baseline, one frame up to 1.72 times the baseline on both sides raises
      nothing. */
  lemma SingleSpikeDoesNotRaise(s: SessionState, sig: Signals)
    requires s.calibrated && !s.browHigh
    requires BASELINE_FLOOR <= s.browBaseL && BASELINE_FLOOR <= s.browBaseR
    requires s.browEmaL <= s.browBaseL && s.browEmaR <= s.browBaseR
    requires sig.browL <= 1.72 * s.browBaseL && sig.browR <= 1.72 * s.browBaseR
    ensures !Step(s, sig).browHigh && Step(s, sig).browRaises == s.browRaises
  {
  }

  // ---------------------------------------------------------------- scenarios

  /** A frame with open eyes and a closed mouth, and the given brow ratios. */
  function Neutral(ear: real, brow: real): Signals {
    Signals(ear, 0.0, brow, brow)
  }

  /** Twenty open frames, five closed ones, then one open frame: one blink, counted
      on the reopening frame only. */
  lemma ScenarioBlink()
    ensures Run(NewSession(), seq(20, _ => Neutral(0.30, 0.1))).blinks == 0
    ensures Run(NewSession(), seq(20, _ => Neutral(0.30, 0.1)) + seq(5, _ => Neutral(0.15, 0.1))).blinks == 0
    ensures Run(NewSession(), seq(20, _ => Neutral(0.30, 0.1)) + seq(5, _ => Neutral(0.15, 0.1))
                              + [Neutral(0.30, 0.1)]).blinks == 1
  {
    var open, closed := seq(20, _ => Neutral(0.30, 0.1)), seq(5, _ => Neutral(0.15, 0.1));
    var s0 := NewSession();
    OpenEyesCountAtMostOne(s0, open);
    var s1 := Run(s0, open);
    ClosedEyesCountNothing(s1, closed);
    RunAppend(s0, open, closed);
    RunSnoc(s0, open + closed, Neutral(0.30, 0.1));
  }

  /** An eye whose lids are 3 pixels apart at both measuring points and whose
      corners are 10 pixels apart: an aspect ratio just under 0.3. */
  const OpenEye: EyeDistances := EyeDistances(3.0, 3.0, 10.0)

  /** The signals of a face 100 pixels across with open eyes, brows 10 pixels
      above the lids and the lips d pixels apart. */
  function MouthFrame(d: Distance): Signals {
    FrameSignals(Frame(OpenEye, OpenEye, d, 10.0, 10.0, 100.0))
  }

  /** The mouth ratio of MouthFrame: the lip distance over the guarded face size. */
  lemma MouthFrameRatio(d: Distance)
    ensures MouthFrame(d).mouthRatio == d / (100.0 + EPS)
  {
  }

  /** Lip distances 1, 4, 2.8, 4, 2 on a 100-pixel face: ratios of about 0.01, 0.04,
      0.028, 0.04, 0.02. The 0.028 frame is inside the dead zone and does not close
      the mouth, so only one opening is counted by the fourth frame, and the count
      ends at one. */
  lemma ScenarioMouth()
    ensures Run(NewSession(), [MouthFrame(1.0), MouthFrame(4.0), MouthFrame(2.8),
                               MouthFrame(4.0), MouthFrame(2.0)]).mouthOpens == 1
    ensures !Run(NewSession(), [MouthFrame(1.0), MouthFrame(4.0), MouthFrame(2.8),
                                MouthFrame(4.0), MouthFrame(2.0)]).mouthOpen
  {
    MouthFrameRatio(1.0);
    MouthFrameRatio(4.0);
    MouthFrameRatio(2.8);
    MouthFrameRatio(2.0);
    OpenDeadZoneOpenClose(NewSession(), MouthFrame(1.0), MouthFrame(4.0), MouthFrame(2.8),
                          MouthFrame(4.0), MouthFrame(2.0));
  }

  /** Five frames from a closed mouth: closed, open, dead zone, open, closed. Only
      the first open frame counts, and the mouth ends closed. */
  lemma OpenDeadZoneOpenClose(s0: SessionState, f0: Signals, f1: Signals, f2: Signals,
                              f3: Signals, f4: Signals)
    requires !s0.mouthOpen
    requires f0.mouthRatio < MOUTH_OPEN_HYST && f4.mouthRatio < MOUTH_OPEN_HYST
    requires f1.mouthRatio > MOUTH_OPEN && f3.mouthRatio > MOUTH_OPEN
    requires MOUTH_OPEN_HYST <= f2.mouthRatio <= MOUTH_OPEN
    ensures Run(s0, [f0, f1, f2, f3, f4]).mouthOpens == s0.mouthOpens + 1
    ensures !Run(s0, [f0, f1, f2, f3, f4]).mouthOpen
  {
    var s1 := Step(s0, f0);
    var s2 := Step(s1, f1);
    var s3 := Step(s2, f2);
    var s4 := Step(s3, f3);
    var s5 := Step(s4, f4);
    assert !s1.mouthOpen && s1.mouthOpens == s0.mouthOpens;
    assert s2.mouthOpen && s2.mouthOpens == s0.mouthOpens + 1;
    assert s4.mouthOpen && s4.mouthOpens == s0.mouthOpens + 1;
    assert !s5.mouthOpen && s5.mouthOpens == s0.mouthOpens + 1;
    assert Run(s4, [f4]) == s5 by { assert [f4][1..] == []; }
    assert Run(s3, [f3, f4]) == Run(s4, [f4]) by { assert [f3, f4][1..] == [f4]; }
    assert Run(s2, [f2, f3, f4]) == Run(s3, [f3, f4]) by { assert [f2, f3, f4][1..] == [f3, f4]; }
    assert Run(s1, [f1, f2, f3, f4]) == Run(s2, [f2, f3, f4]) by {
      assert [f1, f2, f3, f4][1..] == [f2, f3, f4];
    }
    assert Run(s0, [f0, f1, f2, f3, f4]) == Run(s1, [f1, f2, f3, f4]) by {
      assert [f0, f1, f2, f3, f4][1..] == [f1, f2, f3, f4];
    }
  }

  /** Twelve calibration frames with both brow ratios at 0.1 fix the baselines at
      0.1. Frames at 0.125 (1.25 times the baseline) then raise the brow only on the
      fifth of them, since the first moves the averages to 0.10625 only; frames at
      0.11 (1.10 times the baseline) bring it back to normal on the fifth of them. */
  lemma ScenarioBrow()
    ensures var s := Run(NewSession(), BrowCalibration() + [BrowUp()]);
              s.browRaises == 0 && StatusOf(s).brow == BROW_NORMAL
    ensures var s := Run(NewSession(), BrowCalibration() + BrowUps()[..4]);
              s.browRaises == 0 && StatusOf(s).brow == BROW_NORMAL
    ensures var s := Run(NewSession(), BrowCalibration() + BrowUps());
              s.browRaises == 1 && StatusOf(s).brow == BROW_HIGH
    ensures var s := Run(NewSession(), BrowCalibration() + (BrowUps() + BrowDowns()[..4]));
              s.browRaises == 1 && StatusOf(s).brow == BROW_HIGH
    ensures var s := Run(NewSession(), BrowCalibration() + (BrowUps() + BrowDowns()));
              s.browRaises == 1 && StatusOf(s).brow == BROW_NORMAL
  {
    var s0, cal := NewSession(), BrowCalibration();
    SteadyCalibration(s0, cal, 0.1, 0.1);
    CalibrationCompletes(s0, cal);
    var c := Run(s0, cal);
    BrowUpTrace(c);
    BrowDownTrace(Run(c, BrowUps()));
    RunAppend(s0, cal, [BrowUp()]);
    RunAppend(s0, cal, BrowUps()[..4]);
    RunAppend(s0, cal, BrowUps());
    RunAppend(s0, cal, BrowUps() + BrowDowns()[..4]);
    RunAppend(s0, cal, BrowUps() + BrowDowns());
    RunAppend(c, BrowUps(), BrowDowns()[..4]);
    RunAppend(c, BrowUps(), BrowDowns());
  }

  /** One operating frame with the same brow ratio x on both sides, from a state
      whose two sides agree and whose baselines are above the floor: the constants
      of the eyebrow branch written out. */
  lemma SymmetricBrowFrame(s: SessionState, x: real)
    requires s.calibrated
    requires s.browEmaL == s.browEmaR && s.browBaseL == s.browBaseR
    requires BASELINE_FLOOR <= s.browBaseL
    ensures var r := Step(s, Neutral(0.30, x));
      && r.calibrated
      && r.browEmaL == r.browEmaR == 0.25 * x + 0.75 * s.browEmaL
      && r.browBaseL == r.browBaseR == 0.998 * s.browBaseL + 0.002 * r.browEmaL
      && r.browHigh == (if s.browHigh then r.browEmaL >= 1.12 * s.browBaseL
                        else r.browEmaL > 1.18 * s.browBaseL)
      && r.browRaises == (if !s.browHigh && r.browHigh then s.browRaises + 1 else s.browRaises)
  {
  }

  /** The same frame processed one to five times in a row. */
  lemma RunRepeated(s: SessionState, f: Signals)
    ensures Run(s, [f]) == Step(s, f)
    ensures Run(s, [f, f, f, f]) == Step(Step(Step(Step(s, f), f), f), f)
    ensures Run(s, [f, f, f, f, f]) == Step(Step(Step(Step(Step(s, f), f), f), f), f)
  {
    var s1 := Step(s, f);
    var s2 := Step(s1, f);
    var s3 := Step(s2, f);
    var s4 := Step(s3, f);
    assert Run(s4, [f]) == Step(s4, f) by { assert [f][1..] == []; }
    assert Run(s3, [f, f]) == Run(s4, [f]) by { assert [f, f][1..] == [f]; }
    assert Run(s2, [f, f, f]) == Run(s3, [f, f]) by { assert [f, f, f][1..] == [f, f]; }
    assert Run(s1, [f, f, f, f]) == Run(s2, [f, f, f]) by { assert [f, f, f, f][1..] == [f, f, f]; }
    assert Run(s, [f, f, f, f, f]) == Run(s1, [f, f, f, f]) by { assert [f, f, f, f, f][1..] == [f, f, f, f]; }
    assert Run(s, [f, f, f, f]) == Run(s1, [f, f, f]) by { assert [f, f, f, f][1..] == [f, f, f]; }
    assert Run(s1, [f, f, f]) == Run(s2, [f, f]) by { assert [f, f, f][1..] == [f, f]; }
    assert Run(s2, [f, f]) == Run(s3, [f]) by { assert [f, f][1..] == [f]; }
    assert Run(s3, [f]) == s4 by { assert [f][1..] == []; }
    assert Run(s, [f]) == s1 by { assert [f][1..] == []; }
  }

  /** From the calibrated state of ScenarioBrow: frames at 1.25 times the baseline
      raise the brow on the fifth frame and not before. The averages go through
      0.10625, 0.1109375, 0.114453125 and 0.11708984375, each below 1.18 times the
      slowly drifting baseline (about 0.118), and reach 0.1190673828125 on the
      fifth frame, above it. */
  lemma BrowUpTrace(c: SessionState)
    requires c.calibrated && !c.browHigh && c.browRaises == 0
    requires c.browEmaL == 0.1 && c.browEmaR == 0.1 && c.browBaseL == 0.1 && c.browBaseR == 0.1
    ensures !Run(c, [BrowUp()]).browHigh && Run(c, [BrowUp()]).browRaises == 0
    ensures !Run(c, BrowUps()[..4]).browHigh && Run(c, BrowUps()[..4]).browRaises == 0
    ensures Run(c, BrowUps()).browHigh && Run(c, BrowUps()).browRaises == 1
    ensures Run(c, BrowUps()).browEmaL == 0.1190673828125 == Run(c, BrowUps()).browEmaR
    ensures Run(c, BrowUps()).browBaseL == 0.1001351811463002 == Run(c, BrowUps()).browBaseR
  {
    var up := BrowUp();
    var u1 := Step(c, up);
    SymmetricBrowFrame(c, 0.125);
    var u2 := Step(u1, up);
    SymmetricBrowFrame(u1, 0.125);
    var u3 := Step(u2, up);
    SymmetricBrowFrame(u2, 0.125);
    var u4 := Step(u3, up);
    SymmetricBrowFrame(u3, 0.125);
    var u5 := Step(u4, up);
    SymmetricBrowFrame(u4, 0.125);
    assert !u4.browHigh && u4.browRaises == 0;
    assert u5.browHigh && u5.browRaises == 1;
    RunRepeated(c, up);
    assert BrowUps()[..4] == [up, up, up, up];
  }

  /** Continuing from where BrowUpTrace ends: frames at 1.10 times the baseline
      bring the brow back to normal on the fifth frame and not before, with no
      further raise. The averages go through about 0.11680, 0.11510, 0.11383 and
      0.11287, each above 1.12 times the baseline (about 0.1122), and reach about
      0.11215 on the fifth frame, below it. */
  lemma BrowDownTrace(u: SessionState)
    requires u.calibrated && u.browHigh && u.browRaises == 1
    requires u.browEmaL == 0.1190673828125 && u.browEmaR == 0.1190673828125
    requires u.browBaseL == 0.1001351811463002 && u.browBaseR == 0.1001351811463002
    ensures Run(u, BrowDowns()[..4]).browHigh && Run(u, BrowDowns()[..4]).browRaises == 1
    ensures !Run(u, BrowDowns()).browHigh && Run(u, BrowDowns()).browRaises == 1
  {
    var down := BrowDown();
    var d1 := Step(u, down);
    SymmetricBrowFrame(u, 0.11);
    var d2 := Step(d1, down);
    SymmetricBrowFrame(d1, 0.11);
    var d3 := Step(d2, down);
    SymmetricBrowFrame(d2, 0.11);
    var d4 := Step(d3, down);
    SymmetricBrowFrame(d3, 0.11);
    var d5 := Step(d4, down);
    SymmetricBrowFrame(d4, 0.11);
    assert d4.browHigh && d4.browRaises == 1;
    assert !d5.browHigh && d5.browRaises == 1;
    RunRepeated(u, down);
    assert BrowDowns()[..4] == [down, down, down, down];
  }

  function BrowCalibration(): seq<Signals> {
    seq(CALIB_FRAMES, _ => Neutral(0.30, 0.1))
  }

  function BrowUp(): Signals {
    Neutral(0.30, 0.125)
  }

  function BrowUps(): seq<Signals> {
    [BrowUp(), BrowUp(), BrowUp(), BrowUp(), BrowUp()]
  }

  function BrowDown(): Signals {
    Neutral(0.30, 0.11)
  }

  function BrowDowns(): seq<Signals> {
    [BrowDown(), BrowDown(), BrowDown(), BrowDown(), BrowDown()]
  }
}
