# BikeFit per-frame analysis, modelled in Dafny

This project models the numerical core of the BikeFit video analyser: the
function that turns one video frame's pose-detector output into a joint
snapshot and an angle snapshot, the angle-at-a-vertex computation it uses, and
the `Analysis` results record that collects such snapshots per frame.

- `bikefit.dfy`, module `BikeFit` (src/bikefit/bikefit.py):
  - `CalculateAngle` is `BikeFit._calculate_angle`. It takes the difference of
    two arctangent headings, converts it to degrees, takes the absolute value
    and folds a reflex angle with `360 - angle`.
  - `ProcessFrame` is `BikeFit._process_frame` after the detector has run. The
    detector result is the input `pose: Option<seq<Landmark>>`. `None` stands
    for "no pose landmarks": the attribute lookup raises and the handler
    swallows it. A list too short for one of the twelve reads also raises
    before anything is stored. Both cases give two empty maps. Otherwise the
    twelve joints are stored as `(x, y, visibility)` under their names, and the
    four elbow and knee angles are computed from x and y only.
  - `StoredJoints` and `StoredAngles` are the two blocks of dictionary writes
    (lines 137-149 and 152-160).
- `analysis.dfy`, module `AnalysisRecord` (src/bikefit/analysis.py): the
  `Analysis` dataclass as a datatype with its defaults. `Valid()` is the
  consistency the tests check after a run: as many joint entries and as many
  angle entries as counted frames, and every frame with joints also has angles.

`np.arctan2` is the parameter `atan2: (real, real) -> real`. Where a property
needs it, its range is assumed to be [-Pi, Pi] (`Atan2InRange`). `Pi` is
the exact value of the double `np.pi`, so the end points of the range, which
`np.arctan2` does return (`np.arctan2(0.0, -1.0) == np.pi`), are included.
Arithmetic is over `real`, not IEEE doubles: the [0, 180] bound is proved for
this real-number model, not for the rounded double results.

The landmark positions are hard-coded to MediaPipe's `PoseLandmark` numbers:
shoulders 11/12, elbows 13/14, wrists 15/16, hips 23/24, knees 25/26, ankles
27/28. The enum itself lives in the MediaPipe package, not in this repository.
`IndexInjective` states that the twelve values are distinct, and the condition
"more than 28 landmarks" in `ReadableIffIndicesInside` rests on these values.

Facts about the code that the model keeps:
- `_process_frame` stores each joint as an `(x, y, visibility)` tuple.
- A `Landmark` has only `x`, `y` and `visibility`: MediaPipe's landmarks also carry `z` and `presence`, which `_process_frame` never reads.
- An angle lies in [0, 180] whenever both arctangent values lie in [-Pi, Pi].
- The code never checks that coordinates or visibility lie in [0, 1], so the
  model assumes no such range.

## Model

| member | source | states |
|---|---|---|
| `BikeFit.CalculateAngle` | src/bikefit/bikefit.py:36-48 | for an arctangent in [-Pi, Pi], the folded angle lies in [0, 180] |
| `BikeFit.AngleIsShorterArc` | src/bikefit/bikefit.py:42-46 | the result is the smaller of the absolute heading difference d and 360 - d, where d lies in [0, 360]: the fold never returns the reflex angle |
| `BikeFit.StraightAngle` | src/bikefit/bikefit.py:42-46 | whenever the two ray headings differ by exactly Pi the angle is exactly 180 over the reals; the strict `>` at line 45 leaves 180 unfolded |
| `BikeFit.AngleSymmetric` | src/bikefit/bikefit.py:42-43 | swapping the two end points leaves the angle unchanged |
| `BikeFit.AngleDependsOnlyOnOffsets` | src/bikefit/bikefit.py:42 | two triples whose end points have the same offsets from their vertices give the same angle |
| `BikeFit.AngleTranslationInvariant` | src/bikefit/bikefit.py:42 | moving all three points by one displacement leaves the angle unchanged |
| `BikeFit.ProcessFrame` | src/bikefit/bikefit.py:64-166 | no pose gives two empty maps; the joint map is non-empty exactly when there is a pose and all twelve reads succeed; the joint map is empty exactly when the angle map is (all or nothing); the two maps are built by `StoredJoints` (lines 137-149) and `StoredAngles` (lines 152-160), whose contents `JointsFromLandmarks` and `AnglesFromLandmarks` state |
| `BikeFit.ReadableIffIndicesInside` | src/bikefit/bikefit.py:86-134 | the twelve reads succeed exactly when every joint's index is inside the landmark list, that is when the list has more than 28 entries |
| `BikeFit.IndexInjective` | src/bikefit/bikefit.py:86-134 | different joints read different landmark indices, so no left joint reads a right index |
| `BikeFit.JointNamesDistinct` | src/bikefit/bikefit.py:137-149 | the twelve joint names are pairwise different and make up a set of twelve names |
| `BikeFit.JointKeys` | src/bikefit/bikefit.py:137-149 | the stored joint map's keys are exactly the twelve joint names |
| `BikeFit.JointEntry` | src/bikefit/bikefit.py:86-149 | each joint's name is stored with the (x, y, visibility) of the landmark at that joint's own index |
| `BikeFit.JointsFromLandmarks` | src/bikefit/bikefit.py:86-149 | on a detection the joint map has exactly the twelve joint names as keys, and each entry is the (x, y, visibility) of the one landmark at that joint's index |
| `BikeFit.AnglesFromLandmarks` | src/bikefit/bikefit.py:152-160 | on a detection the angle map has exactly the keys left_elbow, left_knee, right_elbow and right_knee; each is the angle of shoulder-elbow-wrist or hip-knee-ankle on its own side |
| `BikeFit.AnglesInRange` | src/bikefit/bikefit.py:152-160 | for an arctangent in [-Pi, Pi], every value in the angle map lies in [0, 180], whatever the detector returned |
| `BikeFit.AnglesIgnoreVisibility` | src/bikefit/bikefit.py:86-160 | two landmark lists that agree on every x and y give the same angle map, whatever their visibilities |
| `BikeFit.SideReadsOnlyItsOwnLandmarks` | src/bikefit/bikefit.py:86-160 | two landmark lists that agree on one side's six landmarks give that side the same joint entries and the same angles |
| `AnalysisRecord.NewAnalysis` | src/bikefit/analysis.py:7-26 | a new record has frame count 0 and empty joint and angle maps, and is consistent |
| `AnalysisRecord.ValidFrameKeysAgree` | tests/test_collect_joints_angles.py:41-50 | in a consistent record the joint and angle maps have the same frame keys, and once a frame is counted there is a frame to look up in both |

## Left out

- The pose detector (MediaPipe Pose: its construction, `pose.process` and its smoothing across frames) is not modelled. Its per-frame result is the input `pose`.
- The colour conversions and the `writeable` toggling around detection are left out. They are foreign image operations, and the converted-back image is never used.
- Floating-point behaviour of `np.arctan2`, `np.pi` and the degree conversion is not modelled. Arithmetic is over reals, so no claim is made about the concrete double outputs such as exactly 90.0 or 180.0; `StraightAngle` is a statement about the real-number model only.
- Exceptions raised inside the detector itself are not modelled. Only the two ways the code of `_process_frame` reaches its handler are: no pose landmarks, and a landmark list that is too short.
- `analise_cyclist_frame` is left out. It only runs `_process_frame` on a worker thread.
- The background analysis engine used by the tests is left out: `start_analysis`, `stop_analysis`, `get_analysis`, `on_new_frame` and the `video_source` constructor argument. That code is not part of this model. So no operation records a frame into `Analysis`; the model only states the consistency such an operation must keep.
- The tests' timing and frame-rate assertions and the frame-index contiguity of the callbacks depend on threads and wall-clock time, and are left out.
- The Qt user interface, media player, camera and video-seek code (app/widgets.py, app/gui.py) is left out.
