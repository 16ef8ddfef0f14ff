/**
 * The joint state of a built station's context, as the station's joint-state
 * getters and setters see it: positions and rates of the plant's joints by
 * joint name, and the position history kept by the iiwa's desired-state
 * interpolator and by the wsg controller.
 */
module JointState {
  import opened Registry
  import opened Internal

  /** The decimal digit for d. */
  function DigitChar(d: nat): char
    requires d < 10
  {
    ('0' as int + d) as char
  }

  /** "iiwa_joint_" + std::to_string(i + 1): the i-th iiwa joint, counting from 0. */
  function IiwaJointName(i: nat): string
    requires i < NumDofIiwa
  {
    "iiwa_joint_" + [DigitChar(i + 1)]
  }

  /** The joints the station's getters and setters look up. */
  predicate HasStationJoints(m: map<string, real>)
  {
    && (forall i :: 0 <= i < NumDofIiwa ==> IiwaJointName(i) in m)
    && RightSliderJoint in m
    && LeftSliderJoint in m
  }

  /** The iiwa joint names that the first k steps of the setters' loops write. */
  function IiwaJointNamesBelow(k: nat): set<string>
    requires k <= NumDofIiwa
  {
    set i | 0 <= i < k :: IiwaJointName(i)
  }

  /** The values after the first k steps of a setter's loop: joint i gets q[i] for i < k. */
  function WriteIiwaJoints(m: map<string, real>, q: seq<real>, k: nat): map<string, real>
    requires k <= |q| && k <= NumDofIiwa
    decreases k
  {
    if k == 0 then m else WriteIiwaJoints(m, q, k - 1)[IiwaJointName(k - 1) := q[k - 1]]
  }

  /** The values of the seven iiwa joints, in joint order. */
  function ReadIiwaJoints(m: map<string, real>): (q: seq<real>)
    requires HasStationJoints(m)
    ensures |q| == NumDofIiwa
    ensures forall i :: 0 <= i < NumDofIiwa ==> q[i] == m[IiwaJointName(i)]
  {
    seq(NumDofIiwa, i requires 0 <= i < NumDofIiwa => m[IiwaJointName(i)])
  }

  /** SetWsgPosition/SetWsgVelocity's split of an opening q: right finger q/2, left finger -q/2. */
  function FingerTranslations(q: real): (rl: (real, real))
    ensures rl.0 - rl.1 == q
    ensures rl.0 == -rl.1
  {
    (q / 2.0, -q / 2.0)
  }

  /** The fingers' values after the split of q. */
  function WriteFingers(m: map<string, real>, q: real): map<string, real>
  {
    m[RightSliderJoint := FingerTranslations(q).0][LeftSliderJoint := FingerTranslations(q).1]
  }

  /** GetWsgPosition/GetWsgVelocity's expression: right finger minus left finger. */
  function FingerOpening(m: map<string, real>): real
    requires RightSliderJoint in m && LeftSliderJoint in m
  {
    m[RightSliderJoint] - m[LeftSliderJoint]
  }

  /** Distinct joints have distinct names. */
  lemma IiwaJointNamesDistinct(i: nat, j: nat)
    requires i < NumDofIiwa && j < NumDofIiwa
    ensures i != j ==> IiwaJointName(i) != IiwaJointName(j)
    ensures IiwaJointName(i) != RightSliderJoint && IiwaJointName(i) != LeftSliderJoint
  {
    if i != j {
      assert IiwaJointName(i)[11] != IiwaJointName(j)[11];
    }
    assert IiwaJointName(i)[0] != RightSliderJoint[0];
    assert IiwaJointName(i)[0] != LeftSliderJoint[0];
  }

  /** After k steps joint i < k holds q[i]; every other name keeps its value; no name is lost. */
  lemma {:induction false} WriteIiwaJointsSpec(m: map<string, real>, q: seq<real>, k: nat)
    requires k <= |q| && k <= NumDofIiwa
    ensures WriteIiwaJoints(m, q, k).Keys == m.Keys + IiwaJointNamesBelow(k)
    ensures forall i :: 0 <= i < k ==> WriteIiwaJoints(m, q, k)[IiwaJointName(i)] == q[i]
    ensures forall n :: n in m && n !in IiwaJointNamesBelow(k) ==> WriteIiwaJoints(m, q, k)[n] == m[n]
    decreases k
  {
    if k > 0 {
      WriteIiwaJointsSpec(m, q, k - 1);
      forall i | 0 <= i < k - 1
        ensures IiwaJointName(i) != IiwaJointName(k - 1)
      {
        IiwaJointNamesDistinct(i, k - 1);
      }
      assert IiwaJointNamesBelow(k) == IiwaJointNamesBelow(k - 1) + {IiwaJointName(k - 1)};
    }
  }

  /**
   * Writing all seven iiwa joints and reading them back gives q; the
   * fingers and every other joint keep their values.
   */
  lemma ReadAfterWriteIiwaJoints(m: map<string, real>, q: seq<real>)
    requires HasStationJoints(m) && |q| == NumDofIiwa
    ensures HasStationJoints(WriteIiwaJoints(m, q, NumDofIiwa))
    ensures ReadIiwaJoints(WriteIiwaJoints(m, q, NumDofIiwa)) == q
    ensures WriteIiwaJoints(m, q, NumDofIiwa).Keys == m.Keys
    ensures FingerOpening(WriteIiwaJoints(m, q, NumDofIiwa)) == FingerOpening(m)
  {
    var w := WriteIiwaJoints(m, q, NumDofIiwa);
    WriteIiwaJointsSpec(m, q, NumDofIiwa);
    assert IiwaJointNamesBelow(NumDofIiwa) <= m.Keys;
    forall n | n in {RightSliderJoint, LeftSliderJoint}
      ensures n !in IiwaJointNamesBelow(NumDofIiwa)
    {
      forall i | 0 <= i < NumDofIiwa
        ensures IiwaJointName(i) != n
      {
        IiwaJointNamesDistinct(i, i);
      }
    }
  }

  /**
   * Splitting an opening over the fingers and reading it back gives the
   * opening; the iiwa joints keep their values.
   */
  lemma OpeningAfterWriteFingers(m: map<string, real>, q: real)
    requires HasStationJoints(m)
    ensures HasStationJoints(WriteFingers(m, q))
    ensures FingerOpening(WriteFingers(m, q)) == q
    ensures ReadIiwaJoints(WriteFingers(m, q)) == ReadIiwaJoints(m)
  {
  }

  /** The joint state held by a context of the built station. */
  class StationContext {
    /** Joint positions (revolute angles, prismatic translations) by joint name. */
    var positions: map<string, real>
    /** Joint rates by joint name. */
    var velocities: map<string, real>
    /** The position the iiwa's desired-state interpolator differentiates from. */
    var iiwaPositionHistory: seq<real>
    /** The position the wsg controller differentiates from. */
    var wsgPositionHistory: real

    ghost predicate Valid()
      reads this
    {
      HasStationJoints(positions) && HasStationJoints(velocities)
    }
  }
}
