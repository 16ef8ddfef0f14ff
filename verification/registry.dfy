/**
 * The set-up bookkeeping of the manipulation station as a pure state machine:
 * the controller gains, the registered iiwa and wsg models, the camera table
 * and whether the plant is finalized. Each operation is a step function from
 * the state before the call to the state after it and the call's status; a
 * call that throws leaves the state as it was. The class in module Station
 * keeps its fields in step with these functions.
 */
module Registry {
  import opened Wrappers
  import opened Spatial

  /** Joints of the iiwa arm. */
  const NumDofIiwa: nat := 7

  /** Default iiwa gains: proportional 100, integral 1, derivative 2 * sqrt(100). */
  const DefaultIiwaKp: real := 100.0
  const DefaultIiwaKi: real := 1.0
  /** sqrt(DefaultIiwaKp), written out: the model has no real square root. */
  const RootDefaultIiwaKp: real := 10.0

  /** The world body's index and the name of the world frame in the multibody plant. */
  const WorldBodyIndex: nat := 0
  const WorldFrameName: string := "WorldBody"

  /** A model instance index; a default-constructed one is invalid. */
  datatype ModelInstanceIndex = InvalidIndex | ModelInstanceIndex(index: nat)

  /** A frame of the plant: its name, the index of its body, its fixed pose in that body's frame. */
  datatype FrameHandle = FrameHandle(name: string, bodyIndex: nat, poseInBody: RigidTransform)

  /** The plant's world frame. */
  const WorldFrame: FrameHandle :=
    FrameHandle(WorldFrameName, WorldBodyIndex, Identity(BodyFrame(WorldFrameName)))

  /** How a model was welded into the plant; the frames are pointers, null until registered. */
  datatype ModelInformation = ModelInformation(
    modelPath: string,
    parentFrame: Option<FrameHandle>,
    childFrame: Option<FrameHandle>,
    X_PC: RigidTransform,
    modelInstance: ModelInstanceIndex)

  /** A default-constructed ModelInformation: nothing registered yet. */
  const Unregistered: ModelInformation :=
    ModelInformation("", None, None, Identity(FixedFrame("")), InvalidIndex)

  datatype Fidelity = Low | Medium | High

  /** Depth camera properties: image size, vertical field of view, fidelity, depth range. */
  datatype DepthCameraProperties = DepthCameraProperties(
    width: int, height: int, fovY: real, fidelity: Fidelity, zNear: real, zFar: real)

  /** A camera's entry in the camera table. */
  datatype CameraInformation = CameraInformation(
    parentFrame: FrameHandle, X_PC: RigidTransform, properties: DepthCameraProperties)

  /** Which iiwa gain vector a setter replaces. */
  datatype IiwaGains = PositionGains | IntegralGains | VelocityGains

  /** Why a call threw. */
  datatype Error =
    | PlantFinalized
    | GainSizeMismatch
    | NegativeGain
    | ParentNotWorld
    | IiwaNotRegistered
    | WsgNotRegistered
    | AlreadyFinalized

  datatype Status = Ok | Throws(error: Error)

  datatype StationState = StationState(
    plantFinalized: bool,
    iiwaKp: seq<real>,
    iiwaKi: seq<real>,
    iiwaKd: seq<real>,
    wsgKp: real,
    wsgKd: real,
    iiwaModel: ModelInformation,
    wsgModel: ModelInformation,
    cameraInformation: map<string, CameraInformation>)

  /** The state after a call and the call's status. */
  datatype Transition = Transition(next: StationState, status: Status)

  predicate NonNegative(gains: seq<real>)
  {
    forall i :: 0 <= i < |gains| ==> gains[i] >= 0.0
  }

  /** kd = 2 * sqrt(kp): the critical-damping derivative gain for kp. */
  ghost predicate CriticallyDamped(kp: real, kd: real)
  {
    kd >= 0.0 && kd * kd == 4.0 * kp
  }

  /** What every reachable state satisfies: seven non-negative gains per iiwa vector, non-negative wsg gains. */
  ghost predicate WellFormed(s: StationState)
  {
    && |s.iiwaKp| == NumDofIiwa && |s.iiwaKi| == NumDofIiwa && |s.iiwaKd| == NumDofIiwa
    && NonNegative(s.iiwaKp) && NonNegative(s.iiwaKi) && NonNegative(s.iiwaKd)
    && s.wsgKp >= 0.0 && s.wsgKd >= 0.0
  }

  /** The iiwa gain vector `which` selects. */
  function IiwaGain(s: StationState, which: IiwaGains): seq<real>
  {
    match which
    case PositionGains => s.iiwaKp
    case IntegralGains => s.iiwaKi
    case VelocityGains => s.iiwaKd
  }

  /** The gains of a freshly constructed station (the wsg defaults are declared outside this file). */
  function InitialState(wsgKp: real, wsgKd: real): (s: StationState)
    requires wsgKp >= 0.0 && wsgKd >= 0.0
    ensures WellFormed(s) && !s.plantFinalized && s.cameraInformation == map[]
    ensures forall i :: 0 <= i < NumDofIiwa ==>
      s.iiwaKp[i] == 100.0 && s.iiwaKi[i] == 1.0 && s.iiwaKd[i] == 20.0
    ensures forall i :: 0 <= i < NumDofIiwa ==> CriticallyDamped(s.iiwaKp[i], s.iiwaKd[i])
    ensures !s.iiwaModel.modelInstance.ModelInstanceIndex? && !s.wsgModel.modelInstance.ModelInstanceIndex?
  {
    StationState(
      false,
      seq(NumDofIiwa, _ => DefaultIiwaKp),
      seq(NumDofIiwa, _ => DefaultIiwaKi),
      seq(NumDofIiwa, _ => 2.0 * RootDefaultIiwaKp),
      wsgKp, wsgKd, Unregistered, Unregistered, map[])
  }

  /** SetIiwaGains: refuses after finalize, on a length change, on a negative entry; then replaces that vector. */
  function SetIiwaGainsStep(s: StationState, which: IiwaGains, newGains: seq<real>): (t: Transition)
    ensures t.status == Ok <==>
      !s.plantFinalized && |newGains| == |IiwaGain(s, which)| && NonNegative(newGains)
    ensures s.plantFinalized ==> t.status == Throws(PlantFinalized)
    ensures t.status != Ok ==> t.next == s
    ensures t.status == Ok ==>
      && IiwaGain(t.next, which) == newGains
      && (forall w :: w != which ==> IiwaGain(t.next, w) == IiwaGain(s, w))
      && t.next.(iiwaKp := s.iiwaKp, iiwaKi := s.iiwaKi, iiwaKd := s.iiwaKd) == s
  {
    if s.plantFinalized then Transition(s, Throws(PlantFinalized))
    else if |newGains| != |IiwaGain(s, which)| then Transition(s, Throws(GainSizeMismatch))
    else if !NonNegative(newGains) then Transition(s, Throws(NegativeGain))
    else
      match which
      case PositionGains => Transition(s.(iiwaKp := newGains), Ok)
      case IntegralGains => Transition(s.(iiwaKi := newGains), Ok)
      case VelocityGains => Transition(s.(iiwaKd := newGains), Ok)
  }

  /** SetWsgGains: refuses after finalize or on a negative gain; then replaces both. */
  function SetWsgGainsStep(s: StationState, kp: real, kd: real): (t: Transition)
    ensures t.status == Ok <==> !s.plantFinalized && kp >= 0.0 && kd >= 0.0
    ensures s.plantFinalized ==> t.status == Throws(PlantFinalized)
    ensures t.status != Ok ==> t.next == s
    ensures t.status == Ok ==> t.next == s.(wsgKp := kp, wsgKd := kd)
  {
    if s.plantFinalized then Transition(s, Throws(PlantFinalized))
    else if !(kp >= 0.0 && kd >= 0.0) then Transition(s, Throws(NegativeGain))
    else Transition(s.(wsgKp := kp, wsgKd := kd), Ok)
  }

  /** The record a Register*ControllerModel call stores. */
  function Registration(
    modelPath: string, instance: ModelInstanceIndex,
    parentFrame: FrameHandle, childFrame: FrameHandle, X_PC: RigidTransform): ModelInformation
  {
    ModelInformation(modelPath, Some(parentFrame), Some(childFrame), X_PC, instance)
  }

  /** RegisterIiwaControllerModel: the parent frame must be the world frame (compared by name). */
  function RegisterIiwaStep(
    s: StationState, modelPath: string, instance: ModelInstanceIndex,
    parentFrame: FrameHandle, childFrame: FrameHandle, X_PC: RigidTransform): (t: Transition)
    ensures t.status == Ok <==> parentFrame.name == WorldFrame.name
    ensures t.status != Ok ==> t.next == s
    ensures t.status == Ok ==>
      && t.next.iiwaModel.modelPath == modelPath
      && t.next.iiwaModel.parentFrame == Some(parentFrame)
      && t.next.iiwaModel.childFrame == Some(childFrame)
      && t.next.iiwaModel.X_PC == X_PC
      && t.next.iiwaModel.modelInstance == instance
      && t.next.(iiwaModel := s.iiwaModel) == s
  {
    if parentFrame.name != WorldFrame.name then Transition(s, Throws(ParentNotWorld))
    else Transition(s.(iiwaModel := Registration(modelPath, instance, parentFrame, childFrame, X_PC)), Ok)
  }

  /** RegisterWsgControllerModel: never throws; stores the record. */
  function RegisterWsgStep(
    s: StationState, modelPath: string, instance: ModelInstanceIndex,
    parentFrame: FrameHandle, childFrame: FrameHandle, X_PC: RigidTransform): (t: Transition)
    ensures t.status == Ok
    ensures t.next.wsgModel.modelPath == modelPath
    ensures t.next.wsgModel.parentFrame == Some(parentFrame)
    ensures t.next.wsgModel.childFrame == Some(childFrame)
    ensures t.next.wsgModel.X_PC == X_PC
    ensures t.next.wsgModel.modelInstance == instance
    ensures t.next.(wsgModel := s.wsgModel) == s
  {
    Transition(s.(wsgModel := Registration(modelPath, instance, parentFrame, childFrame, X_PC)), Ok)
  }

  /** RegisterRgbdCamera: sets the entry for `name`, overwriting an earlier one. */
  function RegisterCameraStep(
    s: StationState, name: string, parentFrame: FrameHandle, X_PC: RigidTransform,
    properties: DepthCameraProperties): (t: Transition)
    ensures t.status == Ok
    ensures t.next.cameraInformation.Keys == s.cameraInformation.Keys + {name}
    ensures t.next.cameraInformation[name] == CameraInformation(parentFrame, X_PC, properties)
    ensures forall n :: n in s.cameraInformation && n != name ==>
      t.next.cameraInformation[n] == s.cameraInformation[n]
    ensures t.next.(cameraInformation := s.cameraInformation) == s
  {
    var info := CameraInformation(parentFrame, X_PC, properties);
    Transition(s.(cameraInformation := s.cameraInformation[name := info]), Ok)
  }

  /**
   * Finalize, up to the plant's one-way flip: both model instances must be
   * valid; a plant that is already finalized refuses a second finalize.
   */
  function FinalizeStep(s: StationState): (t: Transition)
    ensures t.status == Ok <==>
      s.iiwaModel.modelInstance.ModelInstanceIndex? && s.wsgModel.modelInstance.ModelInstanceIndex?
      && !s.plantFinalized
    ensures !s.iiwaModel.modelInstance.ModelInstanceIndex? ==> t.status == Throws(IiwaNotRegistered)
    ensures t.status != Ok ==> t.next == s
    ensures t.status == Ok ==> t.next == s.(plantFinalized := true)
  {
    if !s.iiwaModel.modelInstance.ModelInstanceIndex? then Transition(s, Throws(IiwaNotRegistered))
    else if !s.wsgModel.modelInstance.ModelInstanceIndex? then Transition(s, Throws(WsgNotRegistered))
    else if s.plantFinalized then Transition(s, Throws(AlreadyFinalized))
    else Transition(s.(plantFinalized := true), Ok)
  }

  /** The set-up calls a client can make, in the order it makes them. */
  datatype Op =
    | SetIiwaGains(which: IiwaGains, gains: seq<real>)
    | SetWsgGains(kp: real, kd: real)
    | RegisterIiwaControllerModel(path: string, instance: ModelInstanceIndex,
                                  parent: FrameHandle, child: FrameHandle, pose: RigidTransform)
    | RegisterWsgControllerModel(path: string, instance: ModelInstanceIndex,
                                 parent: FrameHandle, child: FrameHandle, pose: RigidTransform)
    | RegisterRgbdCamera(name: string, parent: FrameHandle, pose: RigidTransform,
                         properties: DepthCameraProperties)
    | Finalize

  function Apply(s: StationState, op: Op): (t: Transition)
    ensures t.status != Ok ==> t.next == s
    ensures WellFormed(s) ==> WellFormed(t.next)
    ensures s.plantFinalized ==> t.next.plantFinalized
    ensures s.plantFinalized && (op.SetIiwaGains? || op.SetWsgGains?) ==> t.status == Throws(PlantFinalized)
    ensures t.next.cameraInformation ==
      if op.RegisterRgbdCamera?
      then s.cameraInformation[op.name := CameraInformation(op.parent, op.pose, op.properties)]
      else s.cameraInformation
  {
    match op
    case SetIiwaGains(which, gains) => SetIiwaGainsStep(s, which, gains)
    case SetWsgGains(kp, kd) => SetWsgGainsStep(s, kp, kd)
    case RegisterIiwaControllerModel(path, instance, parent, child, pose) =>
      RegisterIiwaStep(s, path, instance, parent, child, pose)
    case RegisterWsgControllerModel(path, instance, parent, child, pose) =>
      RegisterWsgStep(s, path, instance, parent, child, pose)
    case RegisterRgbdCamera(name, parent, pose, properties) =>
      RegisterCameraStep(s, name, parent, pose, properties)
    case Finalize => FinalizeStep(s)
  }

  /** The state after a sequence of calls. */
  function Run(s: StationState, ops: seq<Op>): StationState
    decreases |ops|
  {
    if ops == [] then s else Run(Apply(s, ops[0]).next, ops[1..])
  }

  /** Every sequence of calls keeps the gains well formed. */
  lemma {:induction false} RunPreservesWellFormed(s: StationState, ops: seq<Op>)
    requires WellFormed(s)
    ensures WellFormed(Run(s, ops))
    decreases |ops|
  {
    if ops != [] {
      RunPreservesWellFormed(Apply(s, ops[0]).next, ops[1..]);
    }
  }

  /** Once the plant is finalized it stays finalized, and no later call changes a gain. */
  lemma {:induction false} GainsFrozenAfterFinalize(s: StationState, ops: seq<Op>)
    requires s.plantFinalized
    ensures Run(s, ops).plantFinalized
    ensures Run(s, ops).iiwaKp == s.iiwaKp && Run(s, ops).iiwaKi == s.iiwaKi
    ensures Run(s, ops).iiwaKd == s.iiwaKd
    ensures Run(s, ops).wsgKp == s.wsgKp && Run(s, ops).wsgKd == s.wsgKd
    decreases |ops|
  {
    if ops != [] {
      var t := Apply(s, ops[0]);
      assert t.next.iiwaKp == s.iiwaKp && t.next.iiwaKi == s.iiwaKi && t.next.iiwaKd == s.iiwaKd;
      assert t.next.wsgKp == s.wsgKp && t.next.wsgKd == s.wsgKd;
      GainsFrozenAfterFinalize(t.next, ops[1..]);
    }
  }

  /** A successful Finalize can never succeed again, whatever is called in between. */
  lemma FinalizeSucceedsOnce(s: StationState, ops: seq<Op>)
    requires Apply(s, Finalize).status == Ok
    ensures Apply(Run(Apply(s, Finalize).next, ops), Finalize).status != Ok
  {
    GainsFrozenAfterFinalize(Apply(s, Finalize).next, ops);
  }

  /** The camera names a sequence of calls registers. */
  function RegisteredCameraNames(ops: seq<Op>): set<string>
    decreases |ops|
  {
    if ops == [] then {}
    else (if ops[0].RegisterRgbdCamera? then {ops[0].name} else {}) + RegisteredCameraNames(ops[1..])
  }

  /** The entry the last registration under `name` in `ops` makes, if there is one. */
  function LastCameraRegistration(ops: seq<Op>, name: string): Option<CameraInformation>
    decreases |ops|
  {
    if ops == [] then None
    else
      var later := LastCameraRegistration(ops[1..], name);
      if later.Some? then later
      else if ops[0].RegisterRgbdCamera? && ops[0].name == name
      then Some(CameraInformation(ops[0].parent, ops[0].pose, ops[0].properties))
      else None
  }

  /** The camera table holds one entry per distinct name ever registered, and nothing else. */
  lemma {:induction false} CameraNamesAfterRun(s: StationState, ops: seq<Op>)
    ensures Run(s, ops).cameraInformation.Keys == s.cameraInformation.Keys + RegisteredCameraNames(ops)
    decreases |ops|
  {
    if ops != [] {
      CameraNamesAfterRun(Apply(s, ops[0]).next, ops[1..]);
    }
  }

  /** Each name's entry is the one from its last registration; names never registered keep theirs. */
  lemma {:induction false} LastCameraRegistrationWins(s: StationState, ops: seq<Op>, name: string)
    ensures var last := LastCameraRegistration(ops, name);
      && (last.Some? ==> name in Run(s, ops).cameraInformation
                         && Run(s, ops).cameraInformation[name] == last.value)
      && (last.None? ==> (name in Run(s, ops).cameraInformation <==> name in s.cameraInformation))
      && (last.None? && name in s.cameraInformation ==>
            Run(s, ops).cameraInformation[name] == s.cameraInformation[name])
    decreases |ops|
  {
    if ops != [] {
      var t := Apply(s, ops[0]);
      LastCameraRegistrationWins(t.next, ops[1..], name);
    }
  }
}
