# Exercise evaluator: repetition engine and set bookkeeping

This project models the two parts of the exercise evaluator that turn body
keypoints into counted and judged repetitions:

- **The pose-detection component** (`PoseMath.dfy`, `PoseDetection.dfy`).
  Each pass of its animation-frame loop receives the 17 keypoints of the
  detected pose. The first pass with a pose fires a one-time ready signal.
  A confidence gate then requires every joint the active exercise needs to
  score above 0.3. A gated frame goes to that exercise's repetition state
  machine: bicep curl, jumping jacks or push-ups. All three machines share
  one repetition counter. A machine that completes a cycle increments the
  counter and emits a repetition record, and the loop hands the record to
  the consumer.
  - Class `PoseDetection.PoseDetector` holds the component's refs as
    fields. `Step(frame)` is one pass of the loop.
  - Its `Valid()` invariant has four parts:
    - the buffers of each machine grow in step;
    - an open jumping jack is flagged valid;
    - a lowered push-up, or a re-armed curl, has its turning angle buffered;
    - the counter equals the number of records emitted, and those records
      are numbered 1, 2, 3, ….
  - The records are summarised by the pure functions `CurlSummary`,
    `JackMeasure`/`JackSummary` and `PushSummary`.
- **The exercise screen** (`Camera.dfy`). It receives each record and does
  four things:
  - it logs the record;
  - it works out where the session stands, with `SetOf` and `RepOf` mapping
    the global repetition number to a set and a repetition;
  - when the record closes a set, it reports that set's slice of the log;
  - it shows a feedback line: praise, or "Mejora tu técnica: " followed by
    one hint per curl threshold the record misses.

  Its "next repetition" button (`HandleNextRep`) steps through the same
  positions.

Math.atan2 and Math.hypot are floating-point library calls. The model does
not compute them: they are passed in as functions. `Polar` stands for
atan2 already scaled to degrees. The range of atan2 is a hypothesis
(`PolarInRange`) wherever an angle bound needs it. Numbers are `real` and
counters are `int`/`nat`. Math.round is floor(x + 0.5). JavaScript's `%`
is applied only to non-negative operands, where it agrees with Dafny's.

Points where the code behaves differently from what its names or comments
suggest. The model follows the code in each case:

- **Ready signal.** It fires on the first frame in which a pose is
  detected, before the confidence gate is applied
  (pose-detection.tsx:135-141). It does not wait for the first gated frame.
- **Jumping-jack validity.** Every jumping-jack record is valid. Leaving
  the open posture for a single frame is itself what closes the
  repetition, and the validity flag is cleared only after the record is
  built (pose-detection.tsx:225-248). So a lapse cannot mark a repetition
  invalid. `Step` proves this.
- **Push-up alignment joint.** The push-up gate and alignment angle use
  keypoint 14, which the source names the ankle
  (pose-detection.tsx:255). In the 17-point layout, keypoint 14 is the
  right knee. The model keeps index 14 and calls it `RightKnee`.
- **Shared counter.** The counter is shared by the three machines, and the
  first curl can be counted without a prior extension, because the curl
  phase starts "down". So only records after the first promise a maximum
  angle above 150.

## Model

| member | source | states |
|---|---|---|
| PoseMath.NormaliseDegrees | components/pose-detection.tsx:83-84 | the magnitude of an angle difference folded back below 180: within [0, 180] for differences in (-360, 360), and the plain magnitude when already within [-180, 180] |
| PoseMath.Angle | components/pose-detection.tsx:75-85 | the angle at the middle joint lies in [0, 180] whenever atan2 (in degrees) lies in (-180, 180] |
| PoseMath.AngleSymmetric | components/pose-detection.tsx:173-178 | swapping the end points gives the same angle, so backAngle (hip-shoulder-ear) equals hunching (ear-shoulder-hip) |
| PoseMath.AllConfident | components/pose-detection.tsx:148 | the gate passes exactly when every listed joint scores strictly above 0.3 |
| PoseMath.LowScoreClosesGate | components/pose-detection.tsx:256 | one required joint scoring at most 0.3 closes the gate |
| PoseMath.Min | components/pose-detection.tsx:165 | Math.min over a non-empty buffer is an element of it and bounds every element from below |
| PoseMath.Max | components/pose-detection.tsx:166 | Math.max over a non-empty buffer is an element of it and bounds every element from above |
| PoseMath.SumBounds | components/pose-detection.tsx:280-282 | the reduce-sum of n values within [lo, hi] lies within [n·lo, n·hi] |
| PoseMath.Mean | components/pose-detection.tsx:280-282 | the mean alignment lies between the smallest and the largest buffered alignment |
| PoseMath.Round | components/pose-detection.tsx:289 | Math.round gives the integer r with r - 0.5 <= x < r + 0.5 |
| PoseMath.ElbowDeltas | components/pose-detection.tsx:167-171 | one entry per buffered elbow position: 0 for the first, and for every later one the hypot of its x and y steps from the previous position, divided by the frame width and height |
| PoseMath.VerticalDeltas | components/pose-detection.tsx:174-177 | one entry per buffered shoulder position: 0 for the first, and for every later one the absolute y step from the previous position divided by the frame height |
| PoseMath.MaxDeltaFromZero | components/pose-detection.tsx:172 | the largest displacement is never negative and is 0 when one frame is buffered |
| PoseDetection.CurlSummary | components/pose-detection.tsx:165-191 | the curl record: its repetition number; min and max angles that are buffered angles bounding the buffer; non-negative elbow and shoulder movement, 0 for a single frame; backAngle equal to hunching; valid exactly when all six thresholds hold |
| PoseDetection.JackMeasure | components/pose-detection.tsx:223 | the posture angle, a calculateAngle of the left hip, the hip midpoint and the left eye, lies in [0, 180] whenever atan2 is in range |
| PoseDetection.JackMeasureReadsGatedJoints | components/pose-detection.tsx:208-223 | the measured posture depends only on the positions of the eight joints the gate checks: two frames that agree on them measure the same posture, whatever their scores and other joints |
| PoseDetection.PushSummary | components/pose-detection.tsx:278-290 | the push-up record: min and max that are buffered angles bounding the buffer; an alignment within half a degree of the buffered range; valid exactly when min > 55, max > 155 and the unrounded mean > 160 |
| PoseDetection.NumberedAppend | components/pose-detection.tsx:163 | appending a record that carries the incremented counter keeps the log numbered 1, 2, 3, … |
| PoseDetection.SomeAboveAppend | components/pose-detection.tsx:155-160 | buffering a frame keeps the extended angle that re-armed the curl |
| PoseDetection.SomeBelowAppend | components/pose-detection.tsx:266-272 | buffering a frame keeps the bent angle that lowered the push-up |
| PoseDetection.MaxAbove | components/pose-detection.tsx:166 | a buffer holding an angle above t has its maximum above t |
| PoseDetection.MinBelow | components/pose-detection.tsx:165 | a buffer holding an angle below t has its minimum below t |
| PoseDetection.PoseDetector.constructor | components/pose-detection.tsx:54-72 | a fresh session: ready latch unset, counter 0, curl phase down, jumping jacks closed and valid, push-up phase up, all buffers empty |
| PoseDetection.PoseDetector.Step | components/pose-detection.tsx:133-319 | one loop pass: the ready signal fires exactly on the first frame with a pose; a frame without a pose, or one the gate rejects, changes no machine state and emits nothing; an emission increments the counter by one, the record carries the new count and is appended to the log; the record belongs to the exercise; a curl record has min < 60, back angle equal to hunching, and max > 150 from the second repetition on; a jumping-jack record is valid and was taken outside the open posture; a push-up record has min < 90 and max > 160; a frame the gate lets through advances the exercise's machine exactly as CurlAdvanced, JackAdvanced or PushAdvanced says (new phase, buffers, jack flag, record); the machines of the other two exercises keep their phases, buffers and flag (OthersUnchanged) |
| PoseDetection.PoseDetector.Record | components/pose-detection.tsx:163 | the shared counter goes up by one and the record carrying the new count is appended to the log |
| PoseDetection.PoseDetector.Advance | components/pose-detection.tsx:143-296 | the per-exercise dispatch of a frame with a pose: a gate-rejected frame changes no machine state and emits nothing; otherwise the exercise's machine advances as CurlFrameAdvanced, JackAdvanced or PushFrameAdvanced says; the counter, log and per-exercise record clauses of Step; the other two exercises' machines are untouched (OthersUnchanged) |
| PoseDetection.PoseDetector.CurlFrame | components/pose-detection.tsx:146-158 | a curl frame the gate rejects changes nothing; a gated one buffers the left shoulder-elbow-wrist angle and advances the curl machine (CurlAdvanced); the other exercises' machines are untouched |
| PoseDetection.PoseDetector.CurlUpdate | components/pose-detection.tsx:155-163 | the angle and positions are buffered; phase up and angle > 150 re-arms to down; phase down and angle < 60 completes a repetition |
| PoseDetection.PoseDetector.CurlEmit | components/pose-detection.tsx:161-196 | a completed curl: phase up, counter plus one, the record summarising the buffers including the closing frame, buffers cleared, min < 60 and (after the first) max > 150 |
| PoseDetection.PoseDetector.CurlClose | components/pose-detection.tsx:162-195 | phase up, the record counted and logged, the three curl buffers empty |
| PoseDetection.PoseDetector.JackFrame | components/pose-detection.tsx:201-223 | a jumping-jack frame the gate rejects changes nothing; a gated one advances the machine (JackAdvanced) on JackMeasure of the frame: arms raised when each wrist is above the eye on its side, legs open when the ankle-to-ankle hypot exceeds 1.4 times the hip-to-hip hypot; the other exercises' machines are untouched |
| PoseDetection.PoseDetector.JackUpdate | components/pose-detection.tsx:225-248 | the open posture opens a closed jack and sets the flag; leaving it closes an open jack, emitting the record JackSummary(count, flag, posture), which carries the new count, the flag (always true) and every measurement of the closing frame, and clears the flag |
| PoseDetection.PoseDetector.PushFrame | components/pose-detection.tsx:253-265 | a push-up frame the gate rejects changes nothing; a gated one buffers the right elbow angle and the ear-hip-keypoint-14 alignment, and advances the machine (PushAdvanced); the other exercises' machines are untouched |
| PoseDetection.PoseDetector.PushUpdate | components/pose-detection.tsx:266-277 | both angles are buffered; phase up and angle < 90 lowers it; phase down and angle > 160 completes a repetition |
| PoseDetection.PoseDetector.PushEmit | components/pose-detection.tsx:274-294 | a completed push-up: phase up, counter plus one, the record summarising both buffers including the closing frame, buffers cleared, min < 90 and max > 160 |
| PoseDetection.PoseDetector.PushClose | components/pose-detection.tsx:275-293 | phase up, the record counted and logged, both push-up buffers empty |
| Camera.CeilDiv | components/exercise-camera.tsx:130 | Math.ceil(a / b) is the q with (q - 1)·b < a <= q·b |
| Camera.SetOf | components/exercise-camera.tsx:130 | the set lies in [1, sets]; inside the session it is the set whose repetitions include g; past it, the last set |
| Camera.RepOf | components/exercise-camera.tsx:131 | the repetition lies in [1, reps] and is congruent to g modulo reps |
| Camera.PositionRoundTrip | components/exercise-camera.tsx:130-131 | for 1 <= g <= reps·sets, (set - 1)·reps + rep == g |
| Camera.AbsoluteRoundTrip | components/exercise-camera.tsx:130-144 | each position (set, rep) of the session names a global repetition in [1, reps·sets], and that repetition maps back to (set, rep) |
| Camera.SetClosing | components/exercise-camera.tsx:135-137 | a repetition that closes a set is at least reps, and the slice for that set starts at g - reps |
| Camera.Slice | components/exercise-camera.tsx:137 | Array.slice(start, end) cuts both ends back to the array's length and returns its entries in order from start |
| Camera.SetSliceExact | components/exercise-camera.tsx:135-137 | when the log holds records 1..g in order and g closes a set, the reported slice holds exactly repetitions g - reps + 1 … g |
| Camera.MissedAmong | components/exercise-camera.tsx:148-153 | keeps exactly the hints whose threshold the record misses, in the given order |
| Camera.Hints | components/exercise-camera.tsx:148-153 | each hint is present exactly when its threshold fails (fields a record lacks read as 0), each at most once, in the order the line writes them |
| Camera.RankedUnique | components/exercise-camera.tsx:147-153 | a line's hints are determined by which thresholds fail |
| Camera.NonCurlHints | components/exercise-camera.tsx:148-153 | a failed push-up or jumping-jack record gets exactly "Extiende más.", "Sin inclinar atrás." and "Espalda recta." |
| Camera.CurlHintsExactlyWhenInvalid | components/exercise-camera.tsx:146-153 | a curl record judged by the six curl thresholds gets no hint exactly when it is valid |
| Camera.HintsText | components/exercise-camera.tsx:148-153 | the hint line is empty exactly when there are no hints, and begins with the first hint's text |
| Camera.Message | components/exercise-camera.tsx:146-156 | the feedback is the praise "¡Excelente repetición! ✅" exactly when the record is valid |
| Camera.NonCurlMessage | components/exercise-camera.tsx:146-153 | a failed push-up or jumping-jack repetition is told exactly "Mejora tu técnica: Extiende más. Sin inclinar atrás. Espalda recta. " |
| Camera.InvalidCurlGetsAHint | components/exercise-camera.tsx:146-153 | a failed curl repetition judged by the six thresholds is told at least one hint after the prefix |
| Camera.ExerciseCamera.constructor | components/exercise-camera.tsx:34-43 | the screen starts at set 1, repetition 1, with no feedback and an empty log |
| Camera.ExerciseCamera.HandlePoseData | components/exercise-camera.tsx:127-160 | the record is appended to the log; the screen moves to SetOf and RepOf of the record's repetition, which point back to it inside the session; a set report is produced exactly when the repetition is a multiple of reps, numbered g / reps and holding the log slice [g - reps, g); the feedback line changes, to the record's message, exactly when the repetition is past the position shown before the call |
| Camera.ExerciseCamera.HandleNextRep | components/exercise-camera.tsx:112-118 | the next repetition of the set, else the first of the next set, else no change; the bounds 1..reps and 1..sets are kept; the global position advances by one except at the last repetition of the last set |
| Camera.NextPosition | components/exercise-camera.tsx:112-118 | only the last repetition of the last set names reps·sets; either step of the button names the next global repetition |
| Camera.NextRepFollowsMapping | components/exercise-camera.tsx:112-131 | the button moves the screen to the set and repetition that SetOf and RepOf give for the next global repetition |

## Left out

- Loading the MoveNet detector and calling estimatePoses (pose-detection.tsx:88-104, 132-136) are not modelled. `Step` receives the detected pose, or None when there is no pose, the detector is not loaded, or the video has no data yet.
- The requestAnimationFrame scheduling, the cancellation flag and the effect's cleanup are not modelled. One `Step` call is one pass of the loop.
- Drawing the video frame and the skeleton on the canvas (pose-detection.tsx:126-130, 298-316) is output only.
- The internals of Math.atan2 and Math.hypot are not modelled. They are floating-point library calls, passed in as functions.
- Floating-point rounding is not modelled: the model uses exact reals.
- NaN, infinite values and a zero video width or height are not modelled. `WellFormed` requires positive dimensions, which a video with data has.
- toFixed is not modelled: the jumping-jack diagnostics are kept as numbers rather than formatted strings.
- The camera stream, playback controls, the file upload, the finish button and the countdown and phase UI (exercise-camera.tsx:49-109, 121-124, 162-169) are browser I/O and UI.
- The setTimeout that clears the feedback line after 3 seconds (exercise-camera.tsx:158) is a timer. The model does not clear the feedback line.
- The chatbot text of a set report, and any JSON formatting, is not modelled: `HandlePoseData` returns the set number and the records of the report.
- The chatbot, the GPT feedback route, text-to-speech, the countdown and the configuration form are not part of this model: they are network calls, audio, timers and UI.
- React's asynchronous state updates and re-rendering are treated as running between records. `HandlePoseData` compares against the set and repetition shown before the call, as the handler's closure does.
- PoseMath.Min and PoseMath.Max, as used by PoseDetector.CurlEmit and PoseDetector.PushEmit, do not model the engine's limit on spread arguments. The source calls Math.min(...buf) and Math.max(...buf) (pose-detection.tsx:165-166, 172, 174, 278-279) on buffers that are cleared only on emission, so they can grow without bound. Past the engine's argument limit such a call throws a RangeError. That happens after the phase is set to up and the counter is incremented (lines 162-163, 275-276). The counter would then advance with no record, the buffers would not be cleared, and the loop would not request its next frame (line 323). The model treats every buffer as summarisable, so its gapless counter holds only below that limit.
- Camera.ExerciseCamera.HandlePoseData requires a repetition of at least 1, which the engine always provides. A record numbered 0 or lower is not modelled.
- Camera.ExerciseCamera.constructor requires reps and sets of at least 1. The configuration form accepts only such values (components/config-exercise.tsx:28).
