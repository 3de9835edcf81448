# Gesture counter: per-session blink, mouth and eyebrow state machine

This project models the core of a face-gesture web service. Each video frame from
a client session arrives as facial landmarks plus a face size. The core reduces
them to four signals:

- the averaged eye-aspect-ratio (EAR);
- the lip opening divided by the face size;
- the left and right brow-to-eyelid distances divided by the face size.

It then updates that session's `SessionState`:

- **Eyes.** A single EAR threshold (0.21), edge-triggered. A blink is counted when the eye reopens.
- **Mouth.** Two-threshold hysteresis: open above 0.030, close below 0.025. An opening is counted on the rising edge.
- **Eyebrows.** A 12-frame calibration with a fast moving average (0.4). The baselines are then frozen at the averages. After that comes an operating phase:
  - a slow moving average (0.25);
  - a raise when either side is above 1.18 times its floored baseline;
  - a return when both sides are below 1.12 times it;
  - each baseline drifts toward its average at rate 0.002.
- **Status.** A snapshot of labels: `cerrado`/`abierto`, `abierta`/`cerrada`, `alta`/`calibrando`/`normal`.

Sessions live in a store keyed by session id. A session is created zero-valued on first use.

Layout:

- `geometry.dfy` (module `Geometry`): the signal extractor. Landmark distances are non-negative reals (`Distance`), and the face is a `Frame`. Also here: the EAR, the face-size scaling and the four per-frame `Signals`.
- `gesture_logic.dfy` (module `GestureLogic`): `SessionState` as a value and the constants. It holds the specification of one frame as functions: `EyeStep`, `MouthStep`, `CalibrationStep`, `OperatingStep`, `Step` and `StatusOf`. `Valid` is the invariant every reachable session keeps.
- `gesture_runs.dfy` (module `GestureRuns`): `Run` folds `Step` over a sequence of frames. The lemmas here cover edge counting, hysteresis and calibration over many frames, plus three worked scenarios.
- `gesture_counter.dfy` (module `GestureStore`): the class `GestureCounter` with its `sessions` map, `GetState` and `Process`. `Process` updates the record field by field, in the code's order, and is proved to produce `Step` of the previous record. Its eye, mouth and eyebrow sections are the methods `UpdateEyes`, `UpdateMouth` and `UpdateBrows`.

The code fixes two behaviours that a reader of the thresholds alone might expect otherwise. The model proves both as the code has them:

- **Lip ratios 0.01, 0.04, 0.028, 0.04, 0.02 count ONE opening, not two.** The 0.028 frame is inside the dead zone, so the mouth stays open through the second 0.04 frame (`ScenarioMouth`).
- **One frame at 1.25 times the brow baseline does not raise the brow.** The threshold applies to the 0.25 moving average, which that frame lifts to only 1.0625 times the baseline. A steady 1.25 signal raises on its fifth frame. A steady 1.10 signal then returns the brow to normal on its fifth frame (`ScenarioBrow`).

## Model

| member | source | states |
|---|---|---|
| `Geometry.EyeAspectRatio` | server/gesture_logic.py:27-30 | The EAR is non-negative and zero exactly when both lid distances are zero. The 1e-9 guard keeps it at or below the unguarded ratio (p2p6 + p3p5) / (2 p1p4), strictly below when the eye is open, and the shortfall is exactly EAR times 1e-9 / (2 p1p4). With the eye corners together the EAR is the lid sum over 1e-9. |
| `Geometry.ScaledRatio` | server/gesture_logic.py:92-93 | A distance over face size + 1e-9 (also the mouth ratio of line 81) is non-negative and zero exactly for a zero distance. It never exceeds the unguarded ratio d / face_size, and falls short of it by exactly the ratio times 1e-9 / face_size. For a zero face size it is d over 1e-9. |
| `Geometry.FrameSignals` | server/gesture_logic.py:69-71 | The frame's EAR lies between the two eyes' EARs. All four signals are non-negative, and the mouth ratio is zero exactly when the lips touch. |
| `GestureLogic.NewSession` | server/gesture_logic.py:33-49 | A new record has all counters zero, is not calibrated, has seen no frames, and satisfies the session invariant. |
| `GestureLogic.Ema` | server/gesture_logic.py:115-116 | A moving-average update lies between the previous value and the sample. It stays put exactly when they are equal. |
| `GestureLogic.EyeStep` | server/gesture_logic.py:72-77 | After a frame the eye flag is exactly "EAR < 0.21". A blink is counted exactly on a closed-to-open edge. No other field changes. |
| `GestureLogic.MouthStep` | server/gesture_logic.py:82-88 | Above 0.030 the mouth is open and below 0.025 it is closed. Inside [0.025, 0.030] the flag keeps its value. An opening is counted exactly on a false-to-true edge. Only the mouth fields change. |
| `GestureLogic.CalibrationStep` | server/gesture_logic.py:96-111 | `frames_seen` goes up by one. Calibration ends exactly when it reaches 12, with baselines equal to the averages. The first frame seeds the averages with the samples. Each later frame closes 40% of each average's gap to its sample (the 0.4 fast smoothing). Flags, counters and the eye and mouth fields are untouched. |
| `GestureLogic.HighThreshold` | server/gesture_logic.py:119-126 | The raise threshold is positive and above the baseline, whatever the baseline, because of the 1e-6 floor. |
| `GestureLogic.LowThreshold` | server/gesture_logic.py:120-127 | The return threshold is positive, above the baseline and strictly below the raise threshold, so a dead band separates the two. |
| `GestureLogic.OperatingStep` | server/gesture_logic.py:112-141 | Each average moves toward its sample, and each baseline toward the new average. A lowered flag rises exactly when either side's new average exceeds its raise threshold (pre-drift baseline). A raised flag drops exactly when both sides are below their return thresholds. A raise is counted exactly on the rising edge. Calibration state is untouched. |
| `GestureLogic.BrowStep` | server/gesture_logic.py:96-141 | Uncalibrated frames calibrate and calibrated frames operate. Only eyebrow fields change. Calibration ends exactly when the frame count reaches 12 and never reverts. A calibrating frame counts one frame and leaves the flag and the raise count alone. An operating frame freezes the frame count and adds at most one raise. |
| `GestureLogic.Step` | server/gesture_logic.py:66-141 | Each counter stays or grows by one. A blink is counted exactly when `eye_closed` and EAR >= 0.21. An opening is counted exactly when the mouth was closed and the ratio > 0.030, and the dead zone changes nothing. A calibrated session stays calibrated with `frames_seen` frozen. An uncalibrated one counts a frame and neither raises nor changes `brow_high`. The session invariant is preserved. |
| `GestureLogic.StatusOf` | server/gesture_logic.py:143-147 | Each label is one of its two (brow: three) values and reflects its flag exactly. The brow reads `calibrando` only when `brow_high` and `calibrated` are both false. In a valid state it reads `calibrando` exactly while uncalibrated. |
| `GestureRuns.Run` | server/gesture_logic.py:61-148 | Across any sequence of frames the counters never decrease and grow by at most one per frame. Calibration never reverts, and the invariant holds throughout. |
| `GestureRuns.ClosedEyesCountNothing` | server/gesture_logic.py:72-77 | Any run of frames with EAR < 0.21 leaves `blinks` unchanged and the eye closed from its first frame. |
| `GestureRuns.OpenEyesCountAtMostOne` | server/gesture_logic.py:72-77 | A run of open-eye frames counts one blink if the eye was closed before it and none otherwise, however long it lasts. |
| `GestureRuns.BlinksCountReopens` | server/gesture_logic.py:72-77 | After n frames, `blinks` has grown by exactly the number of reopening edges, each an open frame right after a closed one. The eye flag equals the last frame's level. |
| `GestureRuns.MouthDeadZoneKeepsState` | server/gesture_logic.py:82-88 | Ratios oscillating anywhere inside [0.025, 0.030] never open or close the mouth and count nothing. |
| `GestureRuns.OpenMouthCountsNothing` | server/gesture_logic.py:84-88 | While an open mouth's ratio stays at or above 0.025, no further opening is counted. |
| `GestureRuns.StillCalibrating` | server/gesture_logic.py:96-108 | Before the twelfth calibration frame the session is uncalibrated and counts one frame per frame. It has no raise, its flag is down, and the brow reads `calibrando`. |
| `GestureRuns.CalibrationCompletes` | server/gesture_logic.py:108-111 | The frame that brings `frames_seen` to 12 ends calibration, with the baselines equal to the averages and no raise counted. |
| `GestureRuns.FreshSessionCalibration` | server/gesture_logic.py:96-111 | A fresh session is calibrating (and reports it) for its first 11 frames, and is calibrated from frame 12 on with `frames_seen` = 12. No raise is counted in the first 12 frames, whatever the input. |
| `GestureRuns.CalibrationSmoothing` | server/gesture_logic.py:100-106 | From a fresh session, brow ratios 0.1 then 0.2 leave both averages at 0.14: the first frame seeds, the second moves 40% of the way. |
| `GestureRuns.SteadyCalibration` | server/gesture_logic.py:99-111 | Calibrating on constant brow ratios leaves the averages at those ratios, so the frozen baselines equal them. |
| `GestureRuns.SingleSpikeDoesNotRaise` | server/gesture_logic.py:113-132 | With the average at or below a baseline above the floor, one frame up to 1.72 times the baseline raises nothing. |
| `GestureRuns.ScenarioBlink` | server/gesture_logic.py:72-77 | Twenty open frames, then five closed ones, count no blink. The next open frame counts exactly one. |
| `GestureRuns.ScenarioMouth` | server/gesture_logic.py:80-88 | Frames built from landmark distances, with lips 1, 4, 2.8, 4, 2 pixels apart on a 100-pixel face, count one opening and end with the mouth closed. |
| `GestureRuns.OpenDeadZoneOpenClose` | server/gesture_logic.py:84-88 | From a closed mouth, frames that are closed, open, in the dead zone, open and closed count exactly one opening and end closed. |
| `GestureRuns.ScenarioBrow` | server/gesture_logic.py:96-147 | After calibrating at 0.1, the brow rises only on the fifth frame at 0.125, and reads `normal` until then. It returns to `normal` only on the fifth frame at 0.11, still with one raise. |
| `GestureStore.GestureCounter.StateOf` | server/gesture_logic.py:56-59 | The record a frame starts from is a fresh one for an unseen id. It satisfies the session invariant when the store does. |
| `GestureStore.GestureCounter.constructor` | server/gesture_logic.py:53-54 | A new counter has no sessions. |
| `GestureStore.GestureCounter.GetState` | server/gesture_logic.py:56-59 | An unseen id gets and stores a zero-valued, uncalibrated record. A known id gets its stored record, and the store is unchanged. |
| `GestureStore.GestureCounter.Process` | server/gesture_logic.py:61-148 | The session's new record is `Step` of its previous (or fresh) record on the frame's signals. It is stored and returned with `StatusOf` of it. Only the entry for this id changes, and the store invariant is kept. |
| `GestureStore.UpdateEyes` | server/gesture_logic.py:68-77 | The field-by-field eye section computes exactly `EyeStep` on the frame's averaged EAR. |
| `GestureStore.UpdateMouth` | server/gesture_logic.py:79-88 | The field-by-field mouth section computes exactly `MouthStep` on the frame's mouth ratio. |
| `GestureStore.UpdateBrows` | server/gesture_logic.py:90-141 | The field-by-field eyebrow section, calibration or operation, computes exactly the eyebrow step on the frame's brow ratios. |

## Left out

- `euclid` and `np.linalg.norm` (server/gesture_logic.py:23-24) are not modelled. Every landmark distance is an input of type `Distance`, a non-negative real. This makes the `2 * d(p1,p4) + 1e-9` and `face_size + 1e-9` denominators positive without a precondition.
- The landmark index tables (server/gesture_logic.py:7-20) are not modelled. They are configuration for the landmark detector's numbering. A `Frame` carries the distances those indices select.
- Floating point is not modelled: all ratios, averages, thresholds and baselines are exact `real`s, with no IEEE-754 rounding. The integer counters are unbounded, as Python's are.
- `GestureStore.GestureCounter.Process` returns the record by value. In the code the caller receives the same object that later frames keep mutating; that aliasing is not captured.
- The service layer (server/app.py) is not part of this model. That covers image decoding, the face-landmark detector, the face-size computation, routing and response shaping. Its no-face path only skips the call to `process`, so it changes no session state.
- The browser client (frontend/assets/js/app.js) is not part of this model.
- Concurrent requests to the shared session map are not modelled; the code takes no lock.
- The session map grows without bound; the code has no eviction, so neither does the model.
