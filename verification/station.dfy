/**
 * The manipulation station: a builder that collects controller gains, the
 * iiwa and wsg registrations and a camera table, and freezes them when the
 * plant is finalized; after that, direct joint-state setters and getters on a
 * context of the built station.
 */
module Station {
  import opened Wrappers
  import opened Spatial
  import opened StringOrder
  import opened Registry
  import opened JointState
  import opened Internal

  /** A frame on the world body: the only frames the station can place a camera statically from. */
  predicate IsAnchored(frame: FrameHandle)
  {
    frame.bodyIndex == WorldFrame.bodyIndex
  }

  /** The pose of a camera in its parent frame's body: the parent frame's fixed pose, composed with X_PC. */
  function StaticCameraPose(info: CameraInformation): RigidTransform
  {
    Multiply(info.parentFrame.poseInBody, info.X_PC)
  }

  class ManipulationStation {
    const timeStep: real
    var plantFinalized: bool
    var iiwaKp: seq<real>
    var iiwaKi: seq<real>
    var iiwaKd: seq<real>
    var wsgKp: real
    var wsgKd: real
    var iiwaModel: ModelInformation
    var wsgModel: ModelInformation
    var cameraInformation: map<string, CameraInformation>

    /** The fields, as the state the step functions of module Registry act on. */
    ghost function State(): StationState
      reads this
    {
      StationState(plantFinalized, iiwaKp, iiwaKi, iiwaKd, wsgKp, wsgKd,
                   iiwaModel, wsgModel, cameraInformation)
    }

    ghost predicate Valid()
      reads this
    {
      WellFormed(State())
    }

    /**
     * Default gains: iiwa kp 100 and ki 1 on every joint, kd the critical
     * damping 2 * sqrt(kp); the wsg gains are the defaults passed in.
     */
    constructor (timeStep: real, wsgKp: real, wsgKd: real)
      requires wsgKp >= 0.0 && wsgKd >= 0.0
      ensures Valid()
      ensures State() == InitialState(wsgKp, wsgKd)
      ensures this.timeStep == timeStep
    {
      var kp := seq(NumDofIiwa, _ => DefaultIiwaKp);
      var kd: seq<real> := [];
      for i := 0 to NumDofIiwa
        invariant |kd| == i
        invariant forall j :: 0 <= j < i ==> kd[j] == 2.0 * RootDefaultIiwaKp
        invariant forall j :: 0 <= j < i ==> CriticallyDamped(kp[j], kd[j])
      {
        // Critical damping; kp[i] is the default, whose square root is written out.
        kd := kd + [2.0 * RootDefaultIiwaKp];
      }
      this.timeStep := timeStep;
      plantFinalized := false;
      iiwaKp := kp;
      iiwaKi := seq(NumDofIiwa, _ => DefaultIiwaKi);
      iiwaKd := kd;
      this.wsgKp := wsgKp;
      this.wsgKd := wsgKd;
      iiwaModel := Unregistered;
      wsgModel := Unregistered;
      cameraInformation := map[];
    }

    /** Replaces one iiwa gain vector; throws after finalize, on a length change or a negative entry. */
    method SetIiwaGains(which: IiwaGains, newGains: seq<real>) returns (status: Status)
      requires Valid()
      modifies this
      ensures Valid()
      ensures Apply(old(State()), Op.SetIiwaGains(which, newGains)) == Transition(State(), status)
    {
      if plantFinalized {
        return Throws(PlantFinalized);
      }
      var gains := match which
        case PositionGains => iiwaKp
        case IntegralGains => iiwaKi
        case VelocityGains => iiwaKd;
      if |newGains| != |gains| {
        return Throws(GainSizeMismatch);
      }
      if !NonNegative(newGains) {
        return Throws(NegativeGain);
      }
      match which {
        case PositionGains => iiwaKp := newGains;
        case IntegralGains => iiwaKi := newGains;
        case VelocityGains => iiwaKd := newGains;
      }
      return Ok;
    }

    /** Replaces the wsg gains; throws after finalize or on a negative gain. */
    method SetWsgGains(kp: real, kd: real) returns (status: Status)
      requires Valid()
      modifies this
      ensures Valid()
      ensures Apply(old(State()), Op.SetWsgGains(kp, kd)) == Transition(State(), status)
    {
      if plantFinalized {
        return Throws(PlantFinalized);
      }
      if !(kp >= 0.0 && kd >= 0.0) {
        return Throws(NegativeGain);
      }
      wsgKp := kp;
      wsgKd := kd;
      return Ok;
    }

    /** Records how the iiwa was welded; its parent frame must be the world frame. */
    method RegisterIiwaControllerModel(
      modelPath: string, iiwaInstance: ModelInstanceIndex,
      parentFrame: FrameHandle, childFrame: FrameHandle, X_PC: RigidTransform)
      returns (status: Status)
      requires Valid()
      modifies this
      ensures Valid()
      ensures Apply(old(State()), Op.RegisterIiwaControllerModel(modelPath, iiwaInstance, parentFrame, childFrame, X_PC))
              == Transition(State(), status)
    {
      if parentFrame.name != WorldFrame.name {
        return Throws(ParentNotWorld);
      }
      iiwaModel := iiwaModel.(modelPath := modelPath);
      iiwaModel := iiwaModel.(parentFrame := Some(parentFrame));
      iiwaModel := iiwaModel.(childFrame := Some(childFrame));
      iiwaModel := iiwaModel.(X_PC := X_PC);
      iiwaModel := iiwaModel.(modelInstance := iiwaInstance);
      return Ok;
    }

    /** Records how the wsg was welded. */
    method RegisterWsgControllerModel(
      modelPath: string, wsgInstance: ModelInstanceIndex,
      parentFrame: FrameHandle, childFrame: FrameHandle, X_PC: RigidTransform)
      requires Valid()
      modifies this
      ensures Valid()
      ensures Apply(old(State()), Op.RegisterWsgControllerModel(modelPath, wsgInstance, parentFrame, childFrame, X_PC))
              == Transition(State(), Ok)
    {
      wsgModel := wsgModel.(modelPath := modelPath);
      wsgModel := wsgModel.(parentFrame := Some(parentFrame));
      wsgModel := wsgModel.(childFrame := Some(childFrame));
      wsgModel := wsgModel.(X_PC := X_PC);
      wsgModel := wsgModel.(modelInstance := wsgInstance);
    }

    /** Sets the camera table's entry for `name`, overwriting an earlier one. */
    method RegisterRgbdCamera(
      name: string, parentFrame: FrameHandle, X_PC: RigidTransform, properties: DepthCameraProperties)
      requires Valid()
      modifies this
      ensures Valid()
      ensures Apply(old(State()), Op.RegisterRgbdCamera(name, parentFrame, X_PC, properties))
              == Transition(State(), Ok)
    {
      var info := CameraInformation(parentFrame, X_PC, properties);
      cameraInformation := cameraInformation[name := info];
    }

    /** Checks that the iiwa and the wsg are registered, then finalizes the plant (one way). */
    method Finalize() returns (status: Status)
      requires Valid()
      modifies this
      ensures Valid()
      ensures Apply(old(State()), Op.Finalize) == Transition(State(), status)
    {
      if !iiwaModel.modelInstance.ModelInstanceIndex? {
        return Throws(IiwaNotRegistered);
      }
      if !wsgModel.modelInstance.ModelInstanceIndex? {
        return Throws(WsgNotRegistered);
      }
      if plantFinalized {
        return Throws(AlreadyFinalized);
      }
      plantFinalized := true;
      return Ok;
    }

    /** The camera names in the table's key order: each registered name once, ascending. */
    method GetCameraNames() returns (names: seq<string>)
      ensures StrictlyIncreasing(names)
      ensures forall n :: n in names <==> n in cameraInformation
      ensures |names| == |cameraInformation|
    {
      names := [];
      var remaining := cameraInformation.Keys;
      while remaining != {}
        invariant remaining <= cameraInformation.Keys
        invariant forall n :: n in cameraInformation ==> (n in names <==> n !in remaining)
        invariant forall i :: 0 <= i < |names| ==> names[i] in cameraInformation
        invariant StrictlyIncreasing(names)
        invariant forall i, r :: 0 <= i < |names| && r in remaining ==> Less(names[i], r)
        invariant |names| + |remaining| == |cameraInformation.Keys|
        decreases remaining
      {
        LeastExists(remaining);
        var least :| least in remaining && forall x :: x in remaining && x != least ==> Less(least, x);
        names := names + [least];
        remaining := remaining - {least};
      }
    }

    /**
     * The pose of every camera whose parent frame is on the world body, keyed
     * by camera name: the parent frame's fixed pose composed with X_PC.
     */
    method GetStaticCameraPosesInWorld() returns (poses: map<string, RigidTransform>)
      ensures forall n :: n in poses <==> n in cameraInformation && IsAnchored(cameraInformation[n].parentFrame)
      ensures forall n :: n in poses ==> poses[n] == StaticCameraPose(cameraInformation[n])
    {
      poses := map[];
      var remaining := cameraInformation.Keys;
      while remaining != {}
        invariant remaining <= cameraInformation.Keys
        invariant forall n :: n in poses <==>
          n in cameraInformation && n !in remaining && IsAnchored(cameraInformation[n].parentFrame)
        invariant forall n :: n in poses ==> poses[n] == StaticCameraPose(cameraInformation[n])
        decreases remaining
      {
        var name :| name in remaining;
        var info := cameraInformation[name];
        if IsAnchored(info.parentFrame) {
          poses := poses[name := StaticCameraPose(info)];
        }
        remaining := remaining - {name};
      }
    }

    /** The seven iiwa joint angles, in joint order. */
    method GetIiwaPosition(stationContext: StationContext) returns (q: seq<real>)
      requires stationContext.Valid()
      ensures q == ReadIiwaJoints(stationContext.positions)
    {
      var a := new real[NumDofIiwa];
      for i := 0 to NumDofIiwa
        invariant forall j :: 0 <= j < i ==> a[j] == stationContext.positions[IiwaJointName(j)]
      {
        a[i] := stationContext.positions[IiwaJointName(i)];
      }
      q := a[..];
    }

    /** Sets the seven iiwa joint angles, and the interpolator's position history to match. */
    method SetIiwaPosition(q: seq<real>, stationContext: StationContext)
      requires stationContext.Valid() && |q| == NumDofIiwa
      modifies stationContext
      ensures stationContext.Valid()
      ensures stationContext.positions == WriteIiwaJoints(old(stationContext.positions), q, NumDofIiwa)
      ensures ReadIiwaJoints(stationContext.positions) == q
      ensures FingerOpening(stationContext.positions) == FingerOpening(old(stationContext.positions))
      ensures stationContext.iiwaPositionHistory == q
      ensures stationContext.velocities == old(stationContext.velocities)
      ensures stationContext.wsgPositionHistory == old(stationContext.wsgPositionHistory)
    {
      for i := 0 to NumDofIiwa
        invariant stationContext.positions == WriteIiwaJoints(old(stationContext.positions), q, i)
        invariant stationContext.velocities == old(stationContext.velocities)
        invariant stationContext.iiwaPositionHistory == old(stationContext.iiwaPositionHistory)
        invariant stationContext.wsgPositionHistory == old(stationContext.wsgPositionHistory)
      {
        stationContext.positions := stationContext.positions[IiwaJointName(i) := q[i]];
      }
      ReadAfterWriteIiwaJoints(old(stationContext.positions), q);
      stationContext.iiwaPositionHistory := q;
    }

    /** The seven iiwa joint rates, in joint order. */
    method GetIiwaVelocity(stationContext: StationContext) returns (v: seq<real>)
      requires stationContext.Valid()
      ensures v == ReadIiwaJoints(stationContext.velocities)
    {
      var a := new real[NumDofIiwa];
      for i := 0 to NumDofIiwa
        invariant forall j :: 0 <= j < i ==> a[j] == stationContext.velocities[IiwaJointName(j)]
      {
        a[i] := stationContext.velocities[IiwaJointName(i)];
      }
      v := a[..];
    }

    /** Sets the seven iiwa joint rates; no history is touched. */
    method SetIiwaVelocity(v: seq<real>, stationContext: StationContext)
      requires stationContext.Valid() && |v| == NumDofIiwa
      modifies stationContext
      ensures stationContext.Valid()
      ensures stationContext.velocities == WriteIiwaJoints(old(stationContext.velocities), v, NumDofIiwa)
      ensures ReadIiwaJoints(stationContext.velocities) == v
      ensures FingerOpening(stationContext.velocities) == FingerOpening(old(stationContext.velocities))
      ensures stationContext.positions == old(stationContext.positions)
      ensures stationContext.iiwaPositionHistory == old(stationContext.iiwaPositionHistory)
      ensures stationContext.wsgPositionHistory == old(stationContext.wsgPositionHistory)
    {
      for i := 0 to NumDofIiwa
        invariant stationContext.velocities == WriteIiwaJoints(old(stationContext.velocities), v, i)
        invariant stationContext.positions == old(stationContext.positions)
        invariant stationContext.iiwaPositionHistory == old(stationContext.iiwaPositionHistory)
        invariant stationContext.wsgPositionHistory == old(stationContext.wsgPositionHistory)
      {
        stationContext.velocities := stationContext.velocities[IiwaJointName(i) := v[i]];
      }
      ReadAfterWriteIiwaJoints(old(stationContext.velocities), v);
    }

    /** The gripper opening: right finger translation minus left finger translation. */
    function GetWsgPosition(stationContext: StationContext): (r: real)
      reads stationContext
      requires stationContext.Valid()
      ensures r == stationContext.positions[RightSliderJoint] - stationContext.positions[LeftSliderJoint]
      ensures stationContext.positions[RightSliderJoint] == -stationContext.positions[LeftSliderJoint] ==>
        WriteFingers(stationContext.positions, r) == stationContext.positions
    {
      FingerOpening(stationContext.positions)
    }

    /** The gripper opening rate: right finger rate minus left finger rate. */
    function GetWsgVelocity(stationContext: StationContext): (r: real)
      reads stationContext
      requires stationContext.Valid()
      ensures r == stationContext.velocities[RightSliderJoint] - stationContext.velocities[LeftSliderJoint]
      ensures stationContext.velocities[RightSliderJoint] == -stationContext.velocities[LeftSliderJoint] ==>
        WriteFingers(stationContext.velocities, r) == stationContext.velocities
    {
      FingerOpening(stationContext.velocities)
    }

    /** Opens the gripper to q (right finger q/2, left -q/2) and sets the wsg controller's history to q. */
    method SetWsgPosition(q: real, stationContext: StationContext)
      requires stationContext.Valid()
      modifies stationContext
      ensures stationContext.Valid()
      ensures stationContext.positions == WriteFingers(old(stationContext.positions), q)
      ensures GetWsgPosition(stationContext) == q
      ensures ReadIiwaJoints(stationContext.positions) == ReadIiwaJoints(old(stationContext.positions))
      ensures stationContext.wsgPositionHistory == q
      ensures stationContext.velocities == old(stationContext.velocities)
      ensures stationContext.iiwaPositionHistory == old(stationContext.iiwaPositionHistory)
    {
      OpeningAfterWriteFingers(stationContext.positions, q);
      stationContext.positions := stationContext.positions[RightSliderJoint := q / 2.0];
      stationContext.positions := stationContext.positions[LeftSliderJoint := -q / 2.0];
      stationContext.wsgPositionHistory := q;
    }

    /** Sets the gripper opening rate to v (right finger v/2, left -v/2); no history is touched. */
    method SetWsgVelocity(v: real, stationContext: StationContext)
      requires stationContext.Valid()
      modifies stationContext
      ensures stationContext.Valid()
      ensures stationContext.velocities == WriteFingers(old(stationContext.velocities), v)
      ensures GetWsgVelocity(stationContext) == v
      ensures ReadIiwaJoints(stationContext.velocities) == ReadIiwaJoints(old(stationContext.velocities))
      ensures stationContext.positions == old(stationContext.positions)
      ensures stationContext.iiwaPositionHistory == old(stationContext.iiwaPositionHistory)
      ensures stationContext.wsgPositionHistory == old(stationContext.wsgPositionHistory)
    {
      OpeningAfterWriteFingers(stationContext.velocities, v);
      stationContext.velocities := stationContext.velocities[RightSliderJoint := v / 2.0];
      stationContext.velocities := stationContext.velocities[LeftSliderJoint := -v / 2.0];
    }
  }
}
