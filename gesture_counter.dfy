/**
 The session store: one SessionState per session id, created on first use,
 and the per-frame `process` operation that updates that record field by field.
 */
module GestureStore {
  import opened Geometry
  import opened GestureLogic

  class GestureCounter {
    /** Session id to that session's record. */
    var sessions: map<string, SessionState>

    /** Every stored record satisfies the session invariant. */
    ghost predicate Valid()
      reads this
    {
      forall sid :: sid in sessions ==> GestureLogic.Valid(sessions[sid])
    }

    /** The record a frame for sid starts from: the stored one, or a fresh one. */
    function StateOf(sid: string): (s: SessionState)
      reads this
      ensures sid !in sessions ==> s == NewSession()
      ensures Valid() ==> GestureLogic.Valid(s)
    {
      if sid in sessions then sessions[sid] else NewSession()
    }

    constructor ()
      ensures sessions == map[] && Valid()
    {
      sessions := map[];
    }

    /** Looks sid up, storing a fresh zero-valued record on first access; an existing
        record is returned as it is and the store is left unchanged. */
    method GetState(sid: string) returns (s: SessionState)
      requires Valid()
      modifies this
      ensures Valid()
      ensures s == old(StateOf(sid))
      ensures sid !in old(sessions) ==> s == NewSession() && !s.calibrated
      ensures sid in old(sessions) ==> sessions == old(sessions)
      ensures sessions == old(sessions)[sid := s]
    {
      if sid !in sessions {
        sessions := sessions[sid := NewSession()];
      }
      s := sessions[sid];
    }

    /** Processes one frame for sid: the eye, mouth and eyebrow branches update the
        session's record, which is stored back and returned with its status labels.
        The new record is one Step from the old one, and no other session changes. */
    method Process(sid: string, frame: Frame) returns (s: SessionState, status: Status)
      requires Valid()
      modifies this
      ensures Valid()
      ensures s == Step(old(StateOf(sid)), FrameSignals(frame))
      ensures status == StatusOf(s)
      ensures sessions == old(sessions)[sid := s]
      ensures sessions.Keys == old(sessions).Keys + {sid}
      ensures forall other :: other in old(sessions) && other != sid ==>
                sessions[other] == old(sessions)[other]
    {
      var S := GetState(sid);
      ghost var start := S;
      S := UpdateEyes(S, frame);
      S := UpdateMouth(S, frame);
      S := UpdateBrows(S, frame);
      assert GestureLogic.Valid(start);
      sessions := sessions[sid := S];
      s := S;
      status := Status(
        if S.eyeClosed then EYE_CLOSED else EYE_OPEN,
        if S.mouthOpen then MOUTH_OPENED else MOUTH_CLOSED,
        if S.browHigh then BROW_HIGH else if !S.calibrated then BROW_CALIBRATING else BROW_NORMAL);
    }
  }

  /** The eye section of process: the averaged EAR against EAR_CLOSE, a blink
      counted when the eye reopens. */
  method UpdateEyes(S0: SessionState, frame: Frame) returns (S: SessionState)
    ensures S == EyeStep(S0, FrameSignals(frame).ear)
  {
    S := S0;
    var earL := EyeAspectRatio(frame.leftEye);
    var earR := EyeAspectRatio(frame.rightEye);
    var ear := (earL + earR) / 2.0;
    if ear < EAR_CLOSE && !S.eyeClosed {
      S := S.(eyeClosed := true);
    } else if ear >= EAR_CLOSE && S.eyeClosed {
      S := S.(eyeClosed := false);
      S := S.(blinks := S.blinks + 1);
    }
  }

  /** The mouth section of process: the lip ratio through the hysteresis, an
      opening counted on the rising edge. */
  method UpdateMouth(S0: SessionState, frame: Frame) returns (S: SessionState)
    ensures S == MouthStep(S0, FrameSignals(frame).mouthRatio)
  {
    S := S0;
    var mouthRatio := ScaledRatio(frame.lips, frame.faceSize);
    if !S.mouthOpen && mouthRatio > MOUTH_OPEN {
      S := S.(mouthOpen := true);
      S := S.(mouthOpens := S.mouthOpens + 1);
    } else if S.mouthOpen && mouthRatio < MOUTH_OPEN_HYST {
      S := S.(mouthOpen := false);
    }
  }

  /** The eyebrow section of process: calibration until CALIB_FRAMES frames have
      been seen, then baseline-relative hysteresis with a drifting baseline. */
  method UpdateBrows(S0: SessionState, frame: Frame) returns (S: SessionState)
    ensures S == BrowStep(S0, FrameSignals(frame).browL, FrameSignals(frame).browR)
  {
    S := S0;
    var browL := ScaledRatio(frame.browLeft, frame.faceSize);
    var browR := ScaledRatio(frame.browRight, frame.faceSize);
    if !S.calibrated {
      S := S.(framesSeen := S.framesSeen + 1);
      if S.framesSeen == 1 {
        S := S.(browEmaL := browL);
        S := S.(browEmaR := browR);
      } else {
        S := S.(browEmaL := ALPHA_CAL * browL + (1.0 - ALPHA_CAL) * S.browEmaL);
        S := S.(browEmaR := ALPHA_CAL * browR + (1.0 - ALPHA_CAL) * S.browEmaR);
      }
      if S.framesSeen >= CALIB_FRAMES {
        S := S.(browBaseL := S.browEmaL);
        S := S.(browBaseR := S.browEmaR);
        S := S.(calibrated := true);
      }
    } else {
      S := S.(browEmaL := ALPHA * browL + (1.0 - ALPHA) * S.browEmaL);
      S := S.(browEmaR := ALPHA * browR + (1.0 - ALPHA) * S.browEmaR);
      assert S.browEmaL == Ema(ALPHA, browL, S0.browEmaL);
      assert S.browEmaR == Ema(ALPHA, browR, S0.browEmaR);
      var leftHigh := S.browEmaL > Max(S.browBaseL, BASELINE_FLOOR) * RAISE_PCT;
      var leftLow := S.browEmaL < Max(S.browBaseL, BASELINE_FLOOR) * RAISE_PCT_HYST;
      var rightHigh := S.browEmaR > Max(S.browBaseR, BASELINE_FLOOR) * RAISE_PCT;
      var rightLow := S.browEmaR < Max(S.browBaseR, BASELINE_FLOOR) * RAISE_PCT_HYST;
      if !S.browHigh && (leftHigh || rightHigh) {
        S := S.(browHigh := true);
        S := S.(browRaises := S.browRaises + 1);
      } else if S.browHigh && (leftLow && rightLow) {
        S := S.(browHigh := false);
      }
      ghost var flagged := S;
      S := S.(browBaseL := (1.0 - BASELINE_LR) * S.browBaseL + BASELINE_LR * S.browEmaL);
      S := S.(browBaseR := (1.0 - BASELINE_LR) * S.browBaseR + BASELINE_LR * S.browEmaR);
      assert S.browBaseL == Ema(BASELINE_LR, flagged.browEmaL, S0.browBaseL);
      assert S.browBaseR == Ema(BASELINE_LR, flagged.browEmaR, S0.browBaseR);
    }
  }
}
