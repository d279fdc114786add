/**
 The per-frame analysis of the `BikeFit` class (src/bikefit/bikefit.py):
 the angle at a vertex of three image points, and the conversion of one
 frame's pose-detector output into a joint snapshot and an angle snapshot.

 The pose detector is not modelled: its result for a frame is the input
 `pose`, `None` when no person was found and otherwise the detected landmark
 list. `np.arctan2` is the parameter `atan2`, about which only its range is
 assumed where a property needs it.
 */
module BikeFit {
  import opened AnalysisRecord

  // ---------------------------------------------------------------------------
  // Angle at a vertex (`BikeFit._calculate_angle`)
  // ---------------------------------------------------------------------------

  /** A 2-D image point, the `[x, y]` list `_process_frame` builds per joint. */
  datatype Point = Point(x: real, y: real)

  /** `np.pi`: the exact value of the double nearest to pi. */
  const Pi: real := 3.141592653589793115997963468544185161590576171875

  /** The two-argument arctangent, `atan2(y, x)`, in radians. */
  type Atan2Fn = (real, real) -> real

  /** The range of the principal arctangent: every result lies in [-Pi, Pi]. */
  ghost predicate Atan2InRange(atan2: Atan2Fn) {
    forall y: real, x: real :: -Pi <= atan2(y, x) <= Pi
  }

  function Abs(v: real): real {
    if v < 0.0 then -v else v
  }

  /** The angle at `b` between the rays towards `a` and `c`, in degrees: the
      absolute difference of the two ray headings, folded into [0, 180] when it
      is a reflex angle. */
  function CalculateAngle(atan2: Atan2Fn, a: Point, b: Point, c: Point): (angle: real)
    ensures Atan2InRange(atan2) ==> 0.0 <= angle <= 180.0
  {
    var radians := atan2(c.y - b.y, c.x - b.x) - atan2(a.y - b.y, a.x - b.x);
    var raw := Abs(radians * 180.0 / Pi);
    if raw > 180.0 then 360.0 - raw else raw
  }

  /** The heading of the ray from `b` to `p`, in degrees. */
  function Heading(atan2: Atan2Fn, b: Point, p: Point): real {
    atan2(p.y - b.y, p.x - b.x) * 180.0 / Pi
  }

  function Min(u: real, v: real): real {
    if u <= v then u else v
  }

  /** Geometric reading of the fold: for headings in the principal range the
      result is the shorter of the two arcs between the rays, never the
      reflex one. */
  lemma AngleIsShorterArc(atan2: Atan2Fn, a: Point, b: Point, c: Point)
    requires Atan2InRange(atan2)
    ensures var sweep := Abs(Heading(atan2, b, c) - Heading(atan2, b, a));
      && 0.0 <= sweep <= 360.0
      && CalculateAngle(atan2, a, b, c) == Min(sweep, 360.0 - sweep)
  {
  }

  /** Whenever the two ray headings differ by exactly Pi the angle is exactly
      180: the strict comparison leaves a straight angle unfolded. */
  lemma StraightAngle(atan2: Atan2Fn, a: Point, b: Point, c: Point)
    requires Abs(atan2(c.y - b.y, c.x - b.x) - atan2(a.y - b.y, a.x - b.x)) == Pi
    ensures CalculateAngle(atan2, a, b, c) == 180.0
  {
  }

  /** The angle does not depend on which end point comes first. */
  lemma AngleSymmetric(atan2: Atan2Fn, a: Point, b: Point, c: Point)
    ensures CalculateAngle(atan2, a, b, c) == CalculateAngle(atan2, c, b, a)
  {
  }

  /** The offset of `p` from the vertex `b`. */
  function Offset(p: Point, b: Point): Point {
    Point(p.x - b.x, p.y - b.y)
  }

  /** Only the offsets of the end points from the vertex matter. */
  lemma AngleDependsOnlyOnOffsets(atan2: Atan2Fn, a: Point, b: Point, c: Point, a': Point, b': Point, c': Point)
    requires Offset(a, b) == Offset(a', b') && Offset(c, b) == Offset(c', b')
    ensures CalculateAngle(atan2, a, b, c) == CalculateAngle(atan2, a', b', c')
  {
  }

  function Translate(p: Point, d: Point): Point {
    Point(p.x + d.x, p.y + d.y)
  }

  /** Moving all three points by the same displacement leaves the angle unchanged. */
  lemma AngleTranslationInvariant(atan2: Atan2Fn, a: Point, b: Point, c: Point, d: Point)
    ensures CalculateAngle(atan2, Translate(a, d), Translate(b, d), Translate(c, d))
         == CalculateAngle(atan2, a, b, c)
  {
    AngleDependsOnlyOnOffsets(atan2, Translate(a, d), Translate(b, d), Translate(c, d), a, b, c);
  }

  // ---------------------------------------------------------------------------
  // Per-frame extraction (`BikeFit._process_frame`)
  // ---------------------------------------------------------------------------

  /** One detected landmark: normalised image position and detector confidence. */
  datatype Landmark = Landmark(x: real, y: real, visibility: real)

  /** The pose detector's result for a frame: no pose, or the landmark list. */
  datatype Option<T> = None | Some(value: T)

  datatype Side = Left | Right
  datatype Part = Shoulder | Elbow | Wrist | Hip | Knee | Ankle

  /** One of the twelve tracked joints. */
  datatype Joint = Joint(side: Side, part: Part)

  // Positions in the landmark list, MediaPipe's `PoseLandmark` numbering.
  const LeftShoulderIndex: nat := 11
  const RightShoulderIndex: nat := 12
  const LeftElbowIndex: nat := 13
  const RightElbowIndex: nat := 14
  const LeftWristIndex: nat := 15
  const RightWristIndex: nat := 16
  const LeftHipIndex: nat := 23
  const RightHipIndex: nat := 24
  const LeftKneeIndex: nat := 25
  const RightKneeIndex: nat := 26
  const LeftAnkleIndex: nat := 27
  const RightAnkleIndex: nat := 28

  /** The landmark-list position `_process_frame` reads for a joint. */
  function Index(j: Joint): nat {
    match j
    case Joint(Left, Shoulder) => LeftShoulderIndex
    case Joint(Left, Elbow) => LeftElbowIndex
    case Joint(Left, Wrist) => LeftWristIndex
    case Joint(Left, Hip) => LeftHipIndex
    case Joint(Left, Knee) => LeftKneeIndex
    case Joint(Left, Ankle) => LeftAnkleIndex
    case Joint(Right, Shoulder) => RightShoulderIndex
    case Joint(Right, Elbow) => RightElbowIndex
    case Joint(Right, Wrist) => RightWristIndex
    case Joint(Right, Hip) => RightHipIndex
    case Joint(Right, Knee) => RightKneeIndex
    case Joint(Right, Ankle) => RightAnkleIndex
  }

  /** The key under which a joint is stored in the joint snapshot. */
  function JointName(j: Joint): string {
    match j
    case Joint(Left, Shoulder) => "left_shoulder"
    case Joint(Left, Elbow) => "left_elbow"
    case Joint(Left, Wrist) => "left_wrist"
    case Joint(Left, Hip) => "left_hip"
    case Joint(Left, Knee) => "left_knee"
    case Joint(Left, Ankle) => "left_ankle"
    case Joint(Right, Shoulder) => "right_shoulder"
    case Joint(Right, Elbow) => "right_elbow"
    case Joint(Right, Wrist) => "right_wrist"
    case Joint(Right, Hip) => "right_hip"
    case Joint(Right, Knee) => "right_knee"
    case Joint(Right, Ankle) => "right_ankle"
  }

  const JointNames: set<string> := {
    "left_shoulder", "left_elbow", "left_wrist", "left_hip", "left_knee", "left_ankle",
    "right_shoulder", "right_elbow", "right_wrist", "right_hip", "right_knee", "right_ankle"
  }

  const AngleNames: set<string> := {"left_elbow", "left_knee", "right_elbow", "right_knee"}

  /** The two measured limbs: the arm, bent at the elbow, and the leg, bent at the knee. */
  datatype Limb = Arm | Leg

  /** The end joint nearer the trunk, the vertex, and the far end joint of a limb. */
  function Proximal(limb: Limb): Part { if limb == Arm then Shoulder else Hip }
  function Vertex(limb: Limb): Part { if limb == Arm then Elbow else Knee }
  function Distal(limb: Limb): Part { if limb == Arm then Wrist else Ankle }

  /** An angle is stored under the name of its vertex joint. */
  function AngleName(side: Side, limb: Limb): string {
    JointName(Joint(side, Vertex(limb)))
  }

  function XY(l: Landmark): Point {
    Point(l.x, l.y)
  }

  /** The stored joint entry `(x, y, visibility)` of one landmark. */
  function Entry(l: Landmark): JointTuple {
    (l.x, l.y, l.visibility)
  }

  /** Every one of the twelve reads succeeds: an index past the end of the
      list raises before anything is stored. */
  predicate Readable(lms: seq<Landmark>) {
    && LeftShoulderIndex < |lms| && LeftElbowIndex < |lms| && LeftWristIndex < |lms|
    && LeftHipIndex < |lms| && LeftKneeIndex < |lms| && LeftAnkleIndex < |lms|
    && RightShoulderIndex < |lms| && RightElbowIndex < |lms| && RightWristIndex < |lms|
    && RightHipIndex < |lms| && RightKneeIndex < |lms| && RightAnkleIndex < |lms|
  }

  /** One frame's result: the joint snapshot and the angle snapshot. */
  datatype FrameResult = FrameResult(joints: JointSnapshot, angles: AngleSnapshot)

  /** The landmark read for joint `j`. */
  function LandmarkOf(lms: seq<Landmark>, j: Joint): Landmark
    requires Readable(lms)
  {
    ReadableIffIndicesInside(lms);
    lms[Index(j)]
  }

  /** The joints and angles of one frame. A frame without a pose, or whose
      landmark list is too short for one of the reads, yields two empty maps:
      the exception is swallowed and nothing was stored yet. */
  function ProcessFrame(atan2: Atan2Fn, pose: Option<seq<Landmark>>): (r: FrameResult)
    ensures r.joints == map[] <==> r.angles == map[]
    ensures r.joints != map[] <==> pose.Some? && Readable(pose.value)
    ensures pose.None? ==> r == FrameResult(map[], map[])
  {
    match pose
    case None => FrameResult(map[], map[])
    case Some(lms) =>
      if !Readable(lms) then FrameResult(map[], map[])
      else
        var joints, angles := StoredJoints(lms), StoredAngles(atan2, lms);
        assert "left_shoulder" in joints && "left_elbow" in angles;
        FrameResult(joints, angles)
  }

  /** The joint snapshot of a detection: each joint's landmark stored as
      (x, y, visibility) under the joint's name. */
  function StoredJoints(lms: seq<Landmark>): JointSnapshot
    requires Readable(lms)
  {
    map[
      "left_shoulder" := Entry(lms[LeftShoulderIndex]),
      "left_elbow" := Entry(lms[LeftElbowIndex]),
      "left_wrist" := Entry(lms[LeftWristIndex]),
      "left_hip" := Entry(lms[LeftHipIndex]),
      "left_knee" := Entry(lms[LeftKneeIndex]),
      "left_ankle" := Entry(lms[LeftAnkleIndex]),
      "right_shoulder" := Entry(lms[RightShoulderIndex]),
      "right_elbow" := Entry(lms[RightElbowIndex]),
      "right_wrist" := Entry(lms[RightWristIndex]),
      "right_hip" := Entry(lms[RightHipIndex]),
      "right_knee" := Entry(lms[RightKneeIndex]),
      "right_ankle" := Entry(lms[RightAnkleIndex])
    ]
  }

  /** The angle snapshot of a detection: the elbow and knee angle of each
      side, from the x and y of that side's landmarks. */
  function StoredAngles(atan2: Atan2Fn, lms: seq<Landmark>): AngleSnapshot
    requires Readable(lms)
  {
    var leftShoulder, leftElbow, leftWrist := XY(lms[LeftShoulderIndex]), XY(lms[LeftElbowIndex]), XY(lms[LeftWristIndex]);
    var leftHip, leftKnee, leftAnkle := XY(lms[LeftHipIndex]), XY(lms[LeftKneeIndex]), XY(lms[LeftAnkleIndex]);
    var rightShoulder, rightElbow, rightWrist := XY(lms[RightShoulderIndex]), XY(lms[RightElbowIndex]), XY(lms[RightWristIndex]);
    var rightHip, rightKnee, rightAnkle := XY(lms[RightHipIndex]), XY(lms[RightKneeIndex]), XY(lms[RightAnkleIndex]);
    map[
      "left_elbow" := CalculateAngle(atan2, leftShoulder, leftElbow, leftWrist),
      "left_knee" := CalculateAngle(atan2, leftHip, leftKnee, leftAnkle),
      "right_elbow" := CalculateAngle(atan2, rightShoulder, rightElbow, rightWrist),
      "right_knee" := CalculateAngle(atan2, rightHip, rightKnee, rightAnkle)
    ]
  }

  /** The reads all succeed exactly when every joint's index is inside the
      list, that is when the list reaches past the highest index, 28. */
  lemma ReadableIffIndicesInside(lms: seq<Landmark>)
    ensures Readable(lms) <==> forall j: Joint :: Index(j) < |lms|
    ensures Readable(lms) <==> |lms| > RightAnkleIndex
  {
    if Readable(lms) {
      forall j: Joint
        ensures Index(j) < |lms|
      {
        match j
        case Joint(Left, _) =>
        case Joint(Right, _) =>
      }
    } else {
      assert Index(Joint(Right, Ankle)) >= |lms|;
    }
  }

  /** The twelve landmark indices are pairwise different; in particular no
      left joint shares an index with a right joint. */
  lemma IndexInjective()
    ensures forall j, k :: Index(j) == Index(k) ==> j == k
  {
  }

  /** The twelve joint names are pairwise different, and they are the set
      `JointNames`, which therefore has twelve elements. */
  lemma JointNamesDistinct()
    ensures forall j, k :: JointName(j) == JointName(k) ==> j == k
    ensures forall j :: JointName(j) in JointNames
    ensures |JointNames| == 12
  {
  }

  /** On a detection, the joint snapshot has exactly the twelve joint names as
      keys, and each joint's entry is the (x, y, visibility) of the landmark at
      that joint's index. */
  lemma JointsFromLandmarks(atan2: Atan2Fn, lms: seq<Landmark>)
    requires Readable(lms)
    ensures var r := ProcessFrame(atan2, Some(lms));
      && r.joints.Keys == JointNames
      && |r.joints| == 12
      && forall j: Joint :: JointName(j) in r.joints && r.joints[JointName(j)] == Entry(LandmarkOf(lms, j))
  {
    var joints := StoredJoints(lms);
    JointKeys(lms);
    forall j: Joint
      ensures JointName(j) in joints && joints[JointName(j)] == Entry(LandmarkOf(lms, j))
    {
      JointEntry(lms, j);
    }
  }

  /** The joint snapshot's keys are the twelve joint names. */
  lemma JointKeys(lms: seq<Landmark>)
    requires Readable(lms)
    ensures StoredJoints(lms).Keys == JointNames
    ensures |StoredJoints(lms)| == 12
  {
    JointNamesDistinct();
  }

  /** The entry stored for one joint. */
  lemma JointEntry(lms: seq<Landmark>, j: Joint)
    requires Readable(lms)
    ensures var joints := StoredJoints(lms);
      JointName(j) in joints && joints[JointName(j)] == Entry(LandmarkOf(lms, j))
  {
  }

  /** The angle of a limb on one side: the angle at its vertex joint between
      its proximal and distal joints, from their x and y only. */
  function LimbAngle(atan2: Atan2Fn, lms: seq<Landmark>, side: Side, limb: Limb): real
    requires Readable(lms)
  {
    CalculateAngle(atan2,
      XY(LandmarkOf(lms, Joint(side, Proximal(limb)))),
      XY(LandmarkOf(lms, Joint(side, Vertex(limb)))),
      XY(LandmarkOf(lms, Joint(side, Distal(limb)))))
  }

  /** On a detection, the angle snapshot has exactly the keys left_elbow,
      left_knee, right_elbow and right_knee, and each is the angle of its own
      side's limb. */
  lemma AnglesFromLandmarks(atan2: Atan2Fn, lms: seq<Landmark>)
    requires Readable(lms)
    ensures var r := ProcessFrame(atan2, Some(lms));
      && r.angles.Keys == AngleNames
      && |r.angles| == 4
      && forall side, limb :: AngleName(side, limb) in r.angles
           && r.angles[AngleName(side, limb)] == LimbAngle(atan2, lms, side, limb)
  {
  }

  /** With a principal-range arctangent every stored angle lies in [0, 180]. */
  lemma AnglesInRange(atan2: Atan2Fn, pose: Option<seq<Landmark>>)
    requires Atan2InRange(atan2)
    ensures var r := ProcessFrame(atan2, pose);
      forall n :: n in r.angles ==> 0.0 <= r.angles[n] <= 180.0
  {
  }

  /** Visibility is stored but never enters an angle: two landmark lists that
      agree on every position give the same angle snapshot. */
  lemma AnglesIgnoreVisibility(atan2: Atan2Fn, lms: seq<Landmark>, lms': seq<Landmark>)
    requires |lms| == |lms'|
    requires forall i :: 0 <= i < |lms| ==> XY(lms[i]) == XY(lms'[i])
    ensures ProcessFrame(atan2, Some(lms)).angles == ProcessFrame(atan2, Some(lms')).angles
  {
  }

  /** Each side reads only its own landmarks: if two landmark lists agree at
      every index of one side, that side's joint entries and angles agree. */
  lemma SideReadsOnlyItsOwnLandmarks(atan2: Atan2Fn, lms: seq<Landmark>, lms': seq<Landmark>, side: Side)
    requires Readable(lms) && Readable(lms')
    requires forall p: Part :: LandmarkOf(lms, Joint(side, p)) == LandmarkOf(lms', Joint(side, p))
    ensures var r, r' := ProcessFrame(atan2, Some(lms)), ProcessFrame(atan2, Some(lms'));
      && (forall p: Part :: var n := JointName(Joint(side, p));
            n in r.joints && n in r'.joints && r.joints[n] == r'.joints[n])
      && (forall limb: Limb :: var n := AngleName(side, limb);
            n in r.angles && n in r'.angles && r.angles[n] == r'.angles[n])
  {
    JointsFromLandmarks(atan2, lms);
    JointsFromLandmarks(atan2, lms');
    AnglesFromLandmarks(atan2, lms);
    AnglesFromLandmarks(atan2, lms');
  }
}
