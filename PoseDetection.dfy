/**
  The per-frame repetition engine of the pose-detection component: the
  ready latch, the confidence gate and the three repetition state machines
  (bicep curl, jumping jacks, push-ups) sharing one repetition counter.
  One call of PoseDetector.Step is one pass of the animation-frame loop.
*/
module PoseDetection {

  import opened Wrappers
  import opened PoseMath

  datatype Exercise = BicepCurl | JumpingJacks | PushUps

  /** Phase of the curl and push-up machines. */
  datatype Stage = Down | Up

  /** Phase of the jumping-jack machine. */
  datatype JackPhase = Closed | Open

  /**
    A repetition record. Each exercise fills its own fields; the
    jumping-jack diagnostics are kept as numbers (the source formats them
    with toFixed).
  */
  datatype PoseData =
    | Curl(repetition: nat, isValid: bool,
           minAngle: real, maxAngle: real, elbowMovement: real,
           backAngle: real, shoulderMovement: real, hunching: real)
    | Jack(repetition: nat, isValid: bool,
           armsRaised: bool, legsOpened: bool,
           legDistance: real, hipWidth: real, postureAngle: real,
           leftWristY: real, leftEyeY: real, rightEyeY: real)
    | Push(repetition: nat, isValid: bool,
           pushMinAngle: real, pushMaxAngle: real, pushAlignment: int)

  function ExerciseOf(d: PoseData): Exercise {
    match d
    case Curl(_, _, _, _, _, _, _, _) => BicepCurl
    case Jack(_, _, _, _, _, _, _, _, _, _) => JumpingJacks
    case Push(_, _, _, _, _) => PushUps
  }

  /** One detected pose: 17 keypoints, and the width and height of the video it came from. */
  datatype Frame = Frame(keypoints: seq<Keypoint>, width: real, height: real)

  /** The source reads the video only once it has data, so its dimensions are known. */
  predicate WellFormed(f: Frame) {
    |f.keypoints| == KeypointCount && f.width > 0.0 && f.height > 0.0
  }

  // Joint indices of the 17-point layout.
  const LeftEye: nat := 1
  const RightEye: nat := 2
  const LeftEar: nat := 3
  const RightEar: nat := 4
  const LeftShoulder: nat := 5
  const RightShoulder: nat := 6
  const LeftElbow: nat := 7
  const RightElbow: nat := 8
  const LeftWrist: nat := 9
  const RightWrist: nat := 10
  const LeftHip: nat := 11
  const RightHip: nat := 12
  const RightKnee: nat := 14
  const LeftAnkle: nat := 15
  const RightAnkle: nat := 16

  /** Left shoulder, elbow, wrist, hip and ear. */
  const CurlJoints: seq<nat> := [LeftShoulder, LeftElbow, LeftWrist, LeftHip, LeftEar]
  /** Both wrists, both eyes, both ankles, both hips. */
  const JackJoints: seq<nat> := [LeftWrist, RightWrist, LeftEye, RightEye, LeftAnkle, RightAnkle, LeftHip, RightHip]
  /** Right shoulder, elbow, wrist, hip, the joint the source calls the ankle (index 14), and ear. */
  const PushJoints: seq<nat> := [RightShoulder, RightElbow, RightWrist, RightHip, RightKnee, RightEar]

  /** The gate of the active exercise. */
  predicate Usable(exercise: Exercise, k: seq<Keypoint>)
    requires |k| == KeypointCount
  {
    match exercise
    case BicepCurl => AllConfident(k, CurlJoints)
    case JumpingJacks => AllConfident(k, JackJoints)
    case PushUps => AllConfident(k, PushJoints)
  }

  // ---------------------------------------------------------------- curl

  /**
    The curl record emitted when the elbow closes: extremes of the angle
    buffer, the largest normalised elbow displacement, the largest
    normalised vertical shoulder displacement, and the back angle measured
    twice (hip-shoulder-ear and ear-shoulder-hip) on the closing frame.
  */
  function CurlSummary(repetition: nat, angles: seq<real>, elbows: seq<Point>, shoulders: seq<Point>,
                       shoulder: Point, hip: Point, ear: Point,
                       width: real, height: real, polar: Polar, hypot: Hypot): (d: PoseData)
    requires |angles| > 0 && |elbows| > 0 && |shoulders| > 0
    requires width != 0.0 && height != 0.0
    ensures d.Curl? && d.repetition == repetition
    ensures d.minAngle in angles && forall a :: a in angles ==> d.minAngle <= a
    ensures d.maxAngle in angles && forall a :: a in angles ==> a <= d.maxAngle
    ensures d.elbowMovement >= 0.0 && (|elbows| == 1 ==> d.elbowMovement == 0.0)
    ensures d.shoulderMovement >= 0.0 && (|shoulders| == 1 ==> d.shoulderMovement == 0.0)
    ensures d.backAngle == d.hunching
    ensures d.isValid <==>
      d.minAngle < 60.0 && d.maxAngle > 150.0 && d.elbowMovement < 0.02 &&
      d.backAngle > 170.0 && d.shoulderMovement < 0.03 && d.hunching > 160.0
  {
    var minA := Min(angles);
    var maxA := Max(angles);
    var deltas := ElbowDeltas(elbows, width, height, hypot);
    MaxDeltaFromZero(deltas);
    var elbowMov := Max(deltas);
    var backA := Angle(polar, hip, shoulder, ear);
    var lifts := VerticalDeltas(shoulders, height);
    MaxDeltaFromZero(lifts);
    var shm := Max(lifts);
    var hunch := Angle(polar, ear, shoulder, hip);
    AngleSymmetric(polar, hip, shoulder, ear);
    var valid := minA < 60.0 && maxA > 150.0 && elbowMov < 0.02 && backA > 170.0 && shm < 0.03 && hunch > 160.0;
    Curl(repetition, valid, minA, maxA, elbowMov, backA, shm, hunch)
  }

  // ------------------------------------------------------- jumping jacks

  /** What one jumping-jack frame measures. */
  datatype JackPosture = JackPosture(
    armsRaised: bool, legsOpened: bool,
    legDistance: real, hipWidth: real, postureAngle: real,
    leftWristY: real, leftEyeY: real, rightEyeY: real)

  /**
    Arms are raised when each wrist is above (smaller y than) the eye on its
    side; legs are open when the ankles are more than 1.4 hip widths apart.
  */
  function JackMeasure(k: seq<Keypoint>, polar: Polar, hypot: Hypot): (m: JackPosture)
    requires |k| == KeypointCount
    ensures PolarInRange(polar) ==> 0.0 <= m.postureAngle <= 180.0
  {
    var lwY, rwY := k[LeftWrist].y, k[RightWrist].y;
    var leY, reY := k[LeftEye].y, k[RightEye].y;
    var la, ra := Pos(k[LeftAnkle]), Pos(k[RightAnkle]);
    var lh, rh := Pos(k[LeftHip]), Pos(k[RightHip]);
    var armsRaised := lwY < leY && rwY < reY;
    var distLegs := hypot(la.x - ra.x, la.y - ra.y);
    var hipW := hypot(lh.x - rh.x, lh.y - rh.y);
    var legsOpened := distLegs > hipW * 1.4;
    var posture := Angle(polar, lh, Point((lh.x + rh.x) / 2.0, (lh.y + rh.y) / 2.0), Pos(k[LeftEye]));
    JackPosture(armsRaised, legsOpened, distLegs, hipW, posture, lwY, leY, reY)
  }

  /**
    The measurement depends only on the positions of the eight gated joints:
    two frames that agree there measure the same posture, whatever their
    scores and their other joints.
  */
  lemma JackMeasureReadsGatedJoints(k: seq<Keypoint>, k2: seq<Keypoint>, polar: Polar, hypot: Hypot)
    requires |k| == KeypointCount && |k2| == KeypointCount
    requires forall i :: 0 <= i < |JackJoints| ==> Pos(k[JackJoints[i]]) == Pos(k2[JackJoints[i]])
    ensures JackMeasure(k, polar, hypot) == JackMeasure(k2, polar, hypot)
  {
    assert Pos(k[JackJoints[0]]) == Pos(k2[JackJoints[0]]);
    assert Pos(k[JackJoints[1]]) == Pos(k2[JackJoints[1]]);
    assert Pos(k[JackJoints[2]]) == Pos(k2[JackJoints[2]]);
    assert Pos(k[JackJoints[3]]) == Pos(k2[JackJoints[3]]);
    assert Pos(k[JackJoints[4]]) == Pos(k2[JackJoints[4]]);
    assert Pos(k[JackJoints[5]]) == Pos(k2[JackJoints[5]]);
    assert Pos(k[JackJoints[6]]) == Pos(k2[JackJoints[6]]);
    assert Pos(k[JackJoints[7]]) == Pos(k2[JackJoints[7]]);
  }

  /** The jumping-jack record emitted when the open posture is left. */
  function JackSummary(repetition: nat, valid: bool, m: JackPosture): PoseData
  {
    Jack(repetition, valid, m.armsRaised, m.legsOpened, m.legDistance, m.hipWidth,
         m.postureAngle, m.leftWristY, m.leftEyeY, m.rightEyeY)
  }

  // ------------------------------------------------------------ push-ups

  /**
    The push-up record emitted when the arm straightens: extremes of the
    elbow-angle buffer, the mean body alignment rounded to a whole degree,
    and validity judged on the unrounded mean.
  */
  function PushSummary(repetition: nat, angles: seq<real>, aligns: seq<real>): (d: PoseData)
    requires |angles| > 0 && |aligns| > 0
    ensures d.Push? && d.repetition == repetition
    ensures d.pushMinAngle in angles && forall a :: a in angles ==> d.pushMinAngle <= a
    ensures d.pushMaxAngle in angles && forall a :: a in angles ==> a <= d.pushMaxAngle
    ensures Min(aligns) - 0.5 < d.pushAlignment as real <= Max(aligns) + 0.5
    ensures d.isValid <==> d.pushMinAngle > 55.0 && d.pushMaxAngle > 155.0 && Mean(aligns) > 160.0
  {
    var minA := Min(angles);
    var maxA := Max(angles);
    var avgAlign := Mean(aligns);
    Push(repetition, minA > 55.0 && maxA > 155.0 && avgAlign > 160.0, minA, maxA, Round(avgAlign))
  }

  /** Some buffered value lies above t. */
  predicate SomeAbove(s: seq<real>, t: real) {
    exists i :: 0 <= i < |s| && s[i] > t
  }

  /** Some buffered value lies below t. */
  predicate SomeBelow(s: seq<real>, t: real) {
    exists i :: 0 <= i < |s| && s[i] < t
  }

  /** A buffer holding a value above t has its maximum above t. */
  lemma MaxAbove(s: seq<real>, t: real)
    requires SomeAbove(s, t)
    ensures Max(s) > t
  {
    var i :| 0 <= i < |s| && s[i] > t;
    assert s[i] in s;
  }

  /** A buffer holding a value below t has its minimum below t. */
  lemma MinBelow(s: seq<real>, t: real)
    requires SomeBelow(s, t)
    ensures Min(s) < t
  {
    var i :| 0 <= i < |s| && s[i] < t;
    assert s[i] in s;
  }

  /**
    The records of a session are numbered 1, 2, 3, ..., all belong to its
    exercise, and, for jumping jacks, are all valid.
  */
  ghost predicate Numbered(log: seq<PoseData>, exercise: Exercise) {
    forall i :: 0 <= i < |log| ==>
      && log[i].repetition == i + 1
      && ExerciseOf(log[i]) == exercise
      && (exercise == JumpingJacks ==> log[i].isValid)
  }

  lemma NumberedAppend(log: seq<PoseData>, exercise: Exercise, d: PoseData)
    requires Numbered(log, exercise)
    requires d.repetition == |log| + 1 && ExerciseOf(d) == exercise
    requires exercise == JumpingJacks ==> d.isValid
    ensures Numbered(log + [d], exercise)
  {
  }

  lemma SomeAboveAppend(s: seq<real>, x: real, t: real)
    requires SomeAbove(s, t) || x > t
    ensures SomeAbove(s + [x], t)
  {
    if x > t {
      assert (s + [x])[|s|] == x;
    } else {
      var i :| 0 <= i < |s| && s[i] > t;
      assert (s + [x])[i] == s[i];
    }
  }

  lemma SomeBelowAppend(s: seq<real>, x: real, t: real)
    requires SomeBelow(s, t) || x < t
    ensures SomeBelow(s + [x], t)
  {
    if x < t {
      assert (s + [x])[|s|] == x;
    } else {
      var i :| 0 <= i < |s| && s[i] < t;
      assert (s + [x])[i] == s[i];
    }
  }

  /** A snapshot of everything the repetition machines keep between frames. */
  datatype MachineState = MachineState(
    count: nat,
    curlStage: Stage, curlAngles: seq<real>, curlElbows: seq<Point>, curlShoulders: seq<Point>,
    jackPhase: JackPhase, jackValid: bool,
    pushStage: Stage, pushAngles: seq<real>, pushAligns: seq<real>)

  /**
    The engine of one session. The exercise, and the atan2/hypot stand-ins,
    are fixed when the session starts.
  */
  class PoseDetector {
    const exercise: Exercise
    const polar: Polar
    const hypot: Hypot

    var readyFired: bool

    /** The repetition counter shared by the three machines. */
    var count: nat

    var curlStage: Stage
    var curlAngles: seq<real>
    var curlElbows: seq<Point>
    var curlShoulders: seq<Point>

    var jackPhase: JackPhase
    var jackValid: bool

    var pushStage: Stage
    var pushAngles: seq<real>
    var pushAligns: seq<real>

    /** Every record emitted so far, in order. */
    ghost var emitted: seq<PoseData>

    ghost predicate Valid()
      reads this
    {
      CurlValid() && JackValid() && PushValid() && LogValid()
    }

    /** The curl buffers grow together, and a re-armed curl has its extended angle buffered. */
    ghost predicate CurlValid()
      reads this`count, this`curlStage, this`curlAngles, this`curlElbows, this`curlShoulders
    {
      && |curlElbows| == |curlAngles| && |curlShoulders| == |curlAngles|
      && (exercise == BicepCurl && curlStage == Down && count > 0 ==> SomeAbove(curlAngles, 150.0))
    }

    /** An open jumping jack is still valid. */
    ghost predicate JackValid()
      reads this`jackPhase, this`jackValid
    {
      jackPhase == Open ==> jackValid
    }

    /** The push-up buffers grow together, and a lowered push-up has its low angle buffered. */
    ghost predicate PushValid()
      reads this`pushStage, this`pushAngles, this`pushAligns
    {
      && |pushAligns| == |pushAngles|
      && (pushStage == Down ==> SomeBelow(pushAngles, 90.0))
    }

    /** The counter numbers the emitted records 1, 2, 3, ... */
    ghost predicate LogValid()
      reads this`count, this`emitted
    {
      count == |emitted| && Numbered(emitted, exercise)
    }

    ghost function Machine(): MachineState
      reads this`count, this`curlStage, this`curlAngles, this`curlElbows, this`curlShoulders
      reads this`jackPhase, this`jackValid, this`pushStage, this`pushAngles, this`pushAligns
    {
      MachineState(count, curlStage, curlAngles, curlElbows, curlShoulders,
                   jackPhase, jackValid, pushStage, pushAngles, pushAligns)
    }

    constructor (exercise: Exercise, polar: Polar, hypot: Hypot)
      ensures Valid()
      ensures this.exercise == exercise && this.polar == polar && this.hypot == hypot
      ensures !readyFired && emitted == []
      ensures Machine() == MachineState(0, Down, [], [], [], Closed, true, Up, [], [])
    {
      this.exercise := exercise;
      this.polar := polar;
      this.hypot := hypot;
      readyFired := false;
      count := 0;
      curlStage := Down;
      curlAngles, curlElbows, curlShoulders := [], [], [];
      jackPhase := Closed;
      jackValid := true;
      pushStage := Up;
      pushAngles, pushAligns := [], [];
      emitted := [];
    }

    /**
      One pass of the frame loop. `frame` is None when no pose was detected
      (or the detector or video was not ready). `ready` tells whether the
      ready signal fired on this frame; `data` is the record handed to the
      consumer, if any.
    */
    method Step(frame: Option<Frame>) returns (ready: bool, data: Option<PoseData>)
      requires Valid()
      requires frame.Some? ==> WellFormed(frame.value)
      modifies this
      ensures Valid()
      // Ready latch: fires on the first frame with a pose, whatever the gate says.
      ensures ready <==> frame.Some? && !old(readyFired)
      ensures readyFired <==> old(readyFired) || frame.Some?
      // A frame without a pose, or one the gate rejects, changes no machine and emits nothing.
      ensures frame.None? || !Usable(exercise, frame.value.keypoints) ==>
                data.None? && Machine() == old(Machine()) && emitted == old(emitted)
      // Counter: one per emission, and the record carries the new value.
      ensures data.None? ==> count == old(count) && emitted == old(emitted)
      ensures data.Some? ==>
                count == old(count) + 1 && data.value.repetition == count &&
                emitted == old(emitted) + [data.value]
      ensures data.Some? ==> ExerciseOf(data.value) == exercise
      // What each exercise's records promise.
      ensures data.Some? && exercise == BicepCurl ==>
                data.value.minAngle < 60.0 && data.value.backAngle == data.value.hunching &&
                (data.value.repetition > 1 ==> data.value.maxAngle > 150.0)
      ensures data.Some? && exercise == JumpingJacks ==>
                data.value.isValid && !(data.value.armsRaised && data.value.legsOpened)
      ensures data.Some? && exercise == PushUps ==>
                data.value.pushMinAngle < 90.0 && data.value.pushMaxAngle > 160.0
      // A frame the gate lets through advances the exercise's machine.
      ensures frame.Some? && exercise == BicepCurl && Usable(exercise, frame.value.keypoints) ==>
                CurlFrameAdvanced(frame.value, data)
      ensures frame.Some? && exercise == JumpingJacks && Usable(exercise, frame.value.keypoints) ==>
                JackAdvanced(JackMeasure(frame.value.keypoints, polar, hypot), data)
      ensures frame.Some? && exercise == PushUps && Usable(exercise, frame.value.keypoints) ==>
                PushFrameAdvanced(frame.value, data)
      // The machines of the other two exercises are never touched.
      ensures OthersUnchanged()
    {
      data := None;
      ready := false;
      if frame.Some? {
        data := Advance(frame.value);
        if !readyFired {
          readyFired := true;
          ready := true;
        }
      }
    }

    /** The per-exercise half of the frame loop, for a frame with a pose. */
    method Advance(f: Frame) returns (data: Option<PoseData>)
      requires Valid() && WellFormed(f)
      modifies this`count, this`curlStage, this`curlAngles, this`curlElbows, this`curlShoulders
      modifies this`jackPhase, this`jackValid, this`pushStage, this`pushAngles, this`pushAligns, this`emitted
      ensures Valid()
      ensures !Usable(exercise, f.keypoints) ==>
                data.None? && Machine() == old(Machine()) && emitted == old(emitted)
      ensures data.None? ==> count == old(count) && emitted == old(emitted)
      ensures data.Some? ==>
                count == old(count) + 1 && data.value.repetition == count &&
                emitted == old(emitted) + [data.value]
      ensures data.Some? ==> ExerciseOf(data.value) == exercise
      ensures data.Some? && exercise == BicepCurl ==>
                data.value.minAngle < 60.0 && data.value.backAngle == data.value.hunching &&
                (data.value.repetition > 1 ==> data.value.maxAngle > 150.0)
      ensures data.Some? && exercise == JumpingJacks ==>
                data.value.isValid && !(data.value.armsRaised && data.value.legsOpened)
      ensures data.Some? && exercise == PushUps ==>
                data.value.pushMinAngle < 90.0 && data.value.pushMaxAngle > 160.0
      ensures exercise == BicepCurl && Usable(exercise, f.keypoints) ==> CurlFrameAdvanced(f, data)
      ensures exercise == JumpingJacks && Usable(exercise, f.keypoints) ==>
                JackAdvanced(JackMeasure(f.keypoints, polar, hypot), data)
      ensures exercise == PushUps && Usable(exercise, f.keypoints) ==> PushFrameAdvanced(f, data)
      // The machines of the other two exercises are never touched.
      ensures OthersUnchanged()
    {
      if exercise == BicepCurl {
        data := CurlFrame(f);
      } else if exercise == JumpingJacks {
        data := JackFrame(f);
      } else {
        data := PushFrame(f);
      }
    }

    /** The machines of the exercises other than this detector's keep their phases, buffers and flag. */
    twostate predicate OthersUnchanged()
      reads this`curlStage, this`curlAngles, this`curlElbows, this`curlShoulders
      reads this`jackPhase, this`jackValid, this`pushStage, this`pushAngles, this`pushAligns
    {
      && (exercise != BicepCurl ==>
            curlStage == old(curlStage) && curlAngles == old(curlAngles) &&
            curlElbows == old(curlElbows) && curlShoulders == old(curlShoulders))
      && (exercise != JumpingJacks ==> jackPhase == old(jackPhase) && jackValid == old(jackValid))
      && (exercise != PushUps ==>
            pushStage == old(pushStage) && pushAngles == old(pushAngles) && pushAligns == old(pushAligns))
    }

    /** CurlAdvanced for the elbow angle and joint positions read off a well-formed frame. */
    twostate predicate CurlFrameAdvanced(f: Frame, new data: Option<PoseData>)
      requires WellFormed(f)
      reads this`count, this`curlStage, this`curlAngles, this`curlElbows, this`curlShoulders
    {
      var k := f.keypoints;
      var s, e, w := Pos(k[LeftShoulder]), Pos(k[LeftElbow]), Pos(k[LeftWrist]);
      CurlAdvanced(Angle(polar, s, e, w), s, e, Pos(k[LeftHip]), Pos(k[LeftEar]), f.width, f.height, data)
    }

    /** PushAdvanced for the elbow and body-line angles read off a well-formed frame. */
    twostate predicate PushFrameAdvanced(f: Frame, new data: Option<PoseData>)
      requires WellFormed(f)
      reads this`count, this`pushStage, this`pushAngles, this`pushAligns
    {
      var k := f.keypoints;
      PushAdvanced(Angle(polar, Pos(k[RightShoulder]), Pos(k[RightElbow]), Pos(k[RightWrist])),
                   Angle(polar, Pos(k[RightEar]), Pos(k[RightHip]), Pos(k[RightKnee])), data)
    }

    /** Counts one repetition on the shared counter and logs its record, which carries the new count. */
    method Record(d: PoseData)
      requires LogValid()
      requires d.repetition == count + 1 && ExerciseOf(d) == exercise
      requires exercise == JumpingJacks ==> d.isValid
      modifies this`count, this`emitted
      ensures LogValid()
      ensures count == old(count) + 1 && emitted == old(emitted) + [d]
    {
      NumberedAppend(emitted, exercise, d);
      count := count + 1;
      emitted := emitted + [d];
    }

    /**
      What one curl frame that passed the gate does, given its elbow angle a
      and its shoulder, elbow, hip and ear positions.
    */
    twostate predicate CurlAdvanced(a: real, s: Point, e: Point, hip: Point, ear: Point,
                                    width: real, height: real, new data: Option<PoseData>)
      requires width != 0.0 && height != 0.0
      reads this`count, this`curlStage, this`curlAngles, this`curlElbows, this`curlShoulders
    {
      var angles, elbows, shoulders := old(curlAngles) + [a], old(curlElbows) + [e], old(curlShoulders) + [s];
      if old(curlStage) == Down && a < 60.0 then
        // The elbow closed: one repetition, buffers cleared.
        && curlStage == Up && count == old(count) + 1
        && curlAngles == [] && curlElbows == [] && curlShoulders == []
        && data == Some(CurlSummary(count, angles, elbows, shoulders, s, hip, ear, width, height, polar, hypot))
      else
        // Otherwise the frame is buffered, and an extended elbow re-arms the phase.
        && data.None? && count == old(count)
        && curlAngles == angles && curlElbows == elbows && curlShoulders == shoulders
        && curlStage == (if old(curlStage) == Up && a > 150.0 then Down else old(curlStage))
    }

    /** The bicep-curl branch of the frame loop, gate included. */
    method CurlFrame(f: Frame) returns (data: Option<PoseData>)
      requires Valid() && exercise == BicepCurl && WellFormed(f)
      modifies this`count, this`curlStage, this`curlAngles, this`curlElbows, this`curlShoulders, this`emitted
      ensures Valid()
      ensures OthersUnchanged()
      ensures !AllConfident(f.keypoints, CurlJoints) ==> data.None? && unchanged(this)
      ensures AllConfident(f.keypoints, CurlJoints) ==> CurlFrameAdvanced(f, data)
      ensures data.None? ==> count == old(count) && emitted == old(emitted)
      ensures data.Some? ==> data.value.repetition == count && emitted == old(emitted) + [data.value]
      ensures data.Some? ==> data.value.minAngle < 60.0 && (count > 1 ==> data.value.maxAngle > 150.0)
    {
      data := None;
      var k := f.keypoints;
      if AllConfident(k, CurlJoints) {
        var s, e, wpt := Pos(k[LeftShoulder]), Pos(k[LeftElbow]), Pos(k[LeftWrist]);
        var hip, ear := Pos(k[LeftHip]), Pos(k[LeftEar]);
        var elbowAng := Angle(polar, s, e, wpt);
        data := CurlUpdate(elbowAng, s, e, hip, ear, f.width, f.height);
      }
    }

    /** Buffers one gated curl frame and runs the curl transitions. */
    method CurlUpdate(elbowAng: real, s: Point, e: Point, hip: Point, ear: Point, width: real, height: real)
      returns (data: Option<PoseData>)
      requires Valid() && exercise == BicepCurl && width != 0.0 && height != 0.0
      modifies this`count, this`curlStage, this`curlAngles, this`curlElbows, this`curlShoulders, this`emitted
      ensures Valid()
      ensures CurlAdvanced(elbowAng, s, e, hip, ear, width, height, data)
      ensures data.None? ==> count == old(count) && emitted == old(emitted)
      ensures data.Some? ==> data.value.repetition == count && emitted == old(emitted) + [data.value]
      ensures data.Some? ==> data.value.minAngle < 60.0 && (count > 1 ==> data.value.maxAngle > 150.0)
    {
      data := None;
      if elbowAng > 150.0 || (curlStage == Down && count > 0) {
        SomeAboveAppend(curlAngles, elbowAng, 150.0);
      }
      curlAngles := curlAngles + [elbowAng];
      curlElbows := curlElbows + [e];
      curlShoulders := curlShoulders + [s];

      if elbowAng > 150.0 && curlStage == Up {
        curlStage := Down;
      }
      if elbowAng < 60.0 && curlStage == Down {
        data := CurlEmit(s, hip, ear, width, height);
      }
    }

    /** Closes a curl repetition: counts it, summarises the buffers and clears them. */
    method CurlEmit(s: Point, hip: Point, ear: Point, width: real, height: real) returns (data: Option<PoseData>)
      requires Valid() && exercise == BicepCurl && width != 0.0 && height != 0.0
      requires curlStage == Down && |curlAngles| > 0 && curlAngles[|curlAngles| - 1] < 60.0
      modifies this`count, this`curlStage, this`curlAngles, this`curlElbows, this`curlShoulders, this`emitted
      ensures Valid()
      ensures curlStage == Up && count == old(count) + 1
      ensures curlAngles == [] && curlElbows == [] && curlShoulders == []
      ensures data == Some(CurlSummary(count, old(curlAngles), old(curlElbows), old(curlShoulders),
                                       s, hip, ear, width, height, polar, hypot))
      ensures emitted == old(emitted) + [data.value]
      ensures data.value.minAngle < 60.0 && (count > 1 ==> data.value.maxAngle > 150.0)
    {
      var d := CurlSummary(count + 1, curlAngles, curlElbows, curlShoulders, s, hip, ear,
                           width, height, polar, hypot);
      // The triggering angle is the last one buffered ...
      assert SomeBelow(curlAngles, 60.0);
      MinBelow(curlAngles, 60.0);
      // ... and after the first repetition the extended angle that re-armed the phase is buffered too.
      if count > 0 {
        MaxAbove(curlAngles, 150.0);
      }
      CurlClose(d);
      data := Some(d);
    }

    /** The state change of a closed curl: the phase goes up, the record is counted and the buffers are cleared. */
    method CurlClose(d: PoseData)
      requires Valid() && exercise == BicepCurl
      requires d.Curl? && d.repetition == count + 1
      modifies this`count, this`curlStage, this`curlAngles, this`curlElbows, this`curlShoulders, this`emitted
      ensures Valid()
      ensures curlStage == Up && count == old(count) + 1
      ensures curlAngles == [] && curlElbows == [] && curlShoulders == []
      ensures emitted == old(emitted) + [d]
    {
      curlStage := Up;
      Record(d);
      curlAngles, curlElbows, curlShoulders := [], [], [];
    }

    /** The jumping-jack branch of the frame loop, gate included. */
    method JackFrame(f: Frame) returns (data: Option<PoseData>)
      requires Valid() && exercise == JumpingJacks && WellFormed(f)
      modifies this`count, this`jackPhase, this`jackValid, this`emitted
      ensures Valid()
      ensures OthersUnchanged()
      ensures !AllConfident(f.keypoints, JackJoints) ==> data.None? && unchanged(this)
      ensures AllConfident(f.keypoints, JackJoints) ==> JackAdvanced(JackMeasure(f.keypoints, polar, hypot), data)
      ensures data.None? ==> count == old(count) && emitted == old(emitted)
      ensures data.Some? ==> data.value.repetition == count && emitted == old(emitted) + [data.value]
      ensures data.Some? ==> data.value.isValid && !(data.value.armsRaised && data.value.legsOpened)
    {
      data := None;
      var k := f.keypoints;
      if AllConfident(k, JackJoints) {
        var m := JackMeasure(k, polar, hypot);
        data := JackUpdate(m);
      }
    }

    /** What one jumping-jack frame that passed the gate does, given what it measured. */
    twostate predicate JackAdvanced(m: JackPosture, new data: Option<PoseData>)
      reads this`count, this`jackPhase, this`jackValid
    {
      if m.armsRaised && m.legsOpened then
        // Entering (or staying in) the open posture; entering starts a valid repetition.
        && data.None? && count == old(count)
        && jackPhase == Open && jackValid
      else
        // Leaving the posture closes an open repetition and reports the flag's value.
        && jackPhase == Closed && !jackValid
        && (old(jackPhase) == Open ==>
              count == old(count) + 1 && data == Some(JackSummary(count, old(jackValid), m)))
        && (old(jackPhase) == Closed ==> data.None? && count == old(count))
    }

    /** Runs the jumping-jack transitions for one gated frame. */
    method JackUpdate(m: JackPosture) returns (data: Option<PoseData>)
      requires Valid() && exercise == JumpingJacks
      modifies this`count, this`jackPhase, this`jackValid, this`emitted
      ensures Valid()
      ensures JackAdvanced(m, data)
      ensures data.None? ==> count == old(count) && emitted == old(emitted)
      ensures data.Some? ==> data.value.repetition == count && emitted == old(emitted) + [data.value]
      ensures data.Some? ==> old(jackPhase) == Open && data.value.isValid
      ensures data.Some? ==> !(data.value.armsRaised && data.value.legsOpened)
    {
      data := None;
      if m.armsRaised && m.legsOpened {
        if jackPhase == Closed {
          jackPhase := Open;
          jackValid := true;
        }
      } else {
        if jackPhase == Open {
          jackPhase := Closed;
          var d := JackSummary(count + 1, jackValid, m);
          Record(d);
          data := Some(d);
        }
        jackValid := false;
      }
    }

    /** The push-up branch of the frame loop, gate included. */
    method PushFrame(f: Frame) returns (data: Option<PoseData>)
      requires Valid() && exercise == PushUps && WellFormed(f)
      modifies this`count, this`pushStage, this`pushAngles, this`pushAligns, this`emitted
      ensures Valid()
      ensures OthersUnchanged()
      ensures !AllConfident(f.keypoints, PushJoints) ==> data.None? && unchanged(this)
      ensures AllConfident(f.keypoints, PushJoints) ==> PushFrameAdvanced(f, data)
      ensures data.None? ==> count == old(count) && emitted == old(emitted)
      ensures data.Some? ==> data.value.repetition == count && emitted == old(emitted) + [data.value]
      ensures data.Some? ==> data.value.pushMinAngle < 90.0 && data.value.pushMaxAngle > 160.0
    {
      data := None;
      var k := f.keypoints;
      if AllConfident(k, PushJoints) {
        var s, e, w := Pos(k[RightShoulder]), Pos(k[RightElbow]), Pos(k[RightWrist]);
        var hip, ank, ear := Pos(k[RightHip]), Pos(k[RightKnee]), Pos(k[RightEar]);
        var elbowAng := Angle(polar, s, e, w);
        var alignAng := Angle(polar, ear, hip, ank);
        data := PushUpdate(elbowAng, alignAng);
      }
    }

    /** What one push-up frame that passed the gate does, given its elbow angle a and alignment angle al. */
    twostate predicate PushAdvanced(a: real, al: real, new data: Option<PoseData>)
      reads this`count, this`pushStage, this`pushAngles, this`pushAligns
    {
      var angles, aligns := old(pushAngles) + [a], old(pushAligns) + [al];
      if old(pushStage) == Down && a > 160.0 then
        // The arm straightened after going down: one repetition, buffers cleared.
        && pushStage == Up && count == old(count) + 1
        && pushAngles == [] && pushAligns == []
        && data == Some(PushSummary(count, angles, aligns))
      else
        // Otherwise the frame is buffered, and a bent arm lowers the phase.
        && data.None? && count == old(count)
        && pushAngles == angles && pushAligns == aligns
        && pushStage == (if old(pushStage) == Up && a < 90.0 then Down else old(pushStage))
    }

    /** Buffers one gated push-up frame and runs the push-up transitions. */
    method PushUpdate(elbowAng: real, alignAng: real) returns (data: Option<PoseData>)
      requires Valid() && exercise == PushUps
      modifies this`count, this`pushStage, this`pushAngles, this`pushAligns, this`emitted
      ensures Valid()
      ensures PushAdvanced(elbowAng, alignAng, data)
      ensures data.None? ==> count == old(count) && emitted == old(emitted)
      ensures data.Some? ==> data.value.repetition == count && emitted == old(emitted) + [data.value]
      ensures data.Some? ==> data.value.pushMinAngle < 90.0 && data.value.pushMaxAngle > 160.0
    {
      data := None;
      if elbowAng < 90.0 || pushStage == Down {
        SomeBelowAppend(pushAngles, elbowAng, 90.0);
      }
      pushAngles := pushAngles + [elbowAng];
      pushAligns := pushAligns + [alignAng];

      if elbowAng < 90.0 && pushStage == Up {
        pushStage := Down;
      }
      if elbowAng > 160.0 && pushStage == Down {
        data := PushEmit();
      }
    }

    /** Closes a push-up repetition: counts it, summarises the buffers and clears them. */
    method PushEmit() returns (data: Option<PoseData>)
      requires Valid() && exercise == PushUps
      requires pushStage == Down && |pushAngles| > 0 && pushAngles[|pushAngles| - 1] > 160.0
      modifies this`count, this`pushStage, this`pushAngles, this`pushAligns, this`emitted
      ensures Valid()
      ensures pushStage == Up && count == old(count) + 1
      ensures pushAngles == [] && pushAligns == []
      ensures data == Some(PushSummary(count, old(pushAngles), old(pushAligns)))
      ensures emitted == old(emitted) + [data.value]
      ensures data.value.pushMinAngle < 90.0 && data.value.pushMaxAngle > 160.0
    {
      // The triggering angle is the last one buffered, and the one that lowered the phase is there too.
      assert SomeAbove(pushAngles, 160.0);
      MaxAbove(pushAngles, 160.0);
      MinBelow(pushAngles, 90.0);
      var d := PushSummary(count + 1, pushAngles, pushAligns);
      PushClose(d);
      data := Some(d);
    }

    /** The state change of a completed push-up: the phase goes up, the record is counted and the buffers are cleared. */
    method PushClose(d: PoseData)
      requires Valid() && exercise == PushUps
      requires d.Push? && d.repetition == count + 1
      modifies this`count, this`pushStage, this`pushAngles, this`pushAligns, this`emitted
      ensures Valid()
      ensures pushStage == Up && count == old(count) + 1
      ensures pushAngles == [] && pushAligns == []
      ensures emitted == old(emitted) + [d]
    {
      pushStage := Up;
      Record(d);
      pushAngles, pushAligns := [], [];
    }
  }
}
