/**
 The results record of a bike-fit analysis session (src/bikefit/analysis.py).

 `Analysis` is a dataclass with three defaulted fields and no behaviour of its
 own: a frame counter and two dictionaries keyed by frame number, one holding
 the joint snapshot of each frame and one its angle snapshot. The code that
 fills the record is not part of this model; what the model keeps is the
 consistency the record is meant to have after a run (equal sizes, matching
 frame keys) and the fact that a fresh record has it.
 */
module AnalysisRecord {

  /** A joint entry as stored per frame: (x, y, visibility). */
  type JointTuple = (real, real, real)

  /** One frame's joints: joint name to (x, y, visibility). */
  type JointSnapshot = map<string, JointTuple>

  /** One frame's angles: angle name to its value in degrees. */
  type AngleSnapshot = map<string, real>

  datatype Analysis = Analysis(
    frameCount: int,                     // total number of frames processed
    joints: map<int, JointSnapshot>,     // frame number to that frame's joints
    angles: map<int, AngleSnapshot>      // frame number to that frame's angles
  ) {

    /** The record's consistency: as many joint and angle entries as counted
        frames, and every frame with joints also has angles. */
    predicate Valid() {
      && |joints| == frameCount
      && |angles| == frameCount
      && joints.Keys <= angles.Keys
    }
  }

  /** `Analysis()` with every field at its default: a zero count and two fresh,
      empty dictionaries. Being values, the maps of two records never alias. */
  function NewAnalysis(): (a: Analysis)
    ensures a.Valid()
    ensures a.frameCount == 0
    ensures a.joints == map[] && a.angles == map[]
  {
    Analysis(0, map[], map[])
  }

  /** A consistent record has exactly the same frame keys in both
      dictionaries (the inclusion and the equal sizes rule out an angle-only
      frame), and once a frame has been counted there is a frame to look up. */
  lemma ValidFrameKeysAgree(a: Analysis)
    requires a.Valid()
    ensures a.joints.Keys == a.angles.Keys
    ensures a.frameCount > 0 ==> a.joints.Keys != {}
  {
    var jk, ak := a.joints.Keys, a.angles.Keys;
    assert ak * jk == jk;
    assert |ak - jk| == 0;
    assert ak - jk == {};
    forall f | f in ak
      ensures f in jk
    {
      assert f !in ak - jk;
    }
  }
}
