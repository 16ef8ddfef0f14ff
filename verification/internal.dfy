/**
 * The composite rigid body that stands in for the whole gripper (its main
 * body and both fingers, with the finger sliders at zero travel) in the
 * controller's plant: `internal::MakeCompositeGripperInertia`.
 */
module Internal {
  import opened Wrappers
  import opened Spatial

  const LeftFingerBody: string := "left_finger"
  const RightFingerBody: string := "right_finger"
  const LeftSliderJoint: string := "left_finger_sliding_joint"
  const RightSliderJoint: string := "right_finger_sliding_joint"

  /** A frame fixed to a body, with its pose in that body's frame (its fixed pose in body frame). */
  datatype FrameOnBody = FrameOnBody(body: string, poseInBody: RigidTransform)

  /** A prismatic joint: frame P on its parent body and frame C on its child body. */
  datatype SliderJoint = SliderJoint(frameOnParent: FrameOnBody, frameOnChild: FrameOnBody)

  /** The part of the parsed and finalized gripper plant that the computation looks up by name. */
  datatype GripperPlant = GripperPlant(
    frameBodies: map<string, string>,               // frame name -> name of the body it is on
    spatialInertias: map<string, SpatialInertia>,   // body name -> its default spatial inertia
    joints: map<string, SliderJoint>)               // joint name -> joint

  /** A failed by-name lookup; the plant throws for each of them. */
  datatype LookupError = NoSuchFrame(name: string) | NoSuchBody(name: string) | NoSuchJoint(name: string)

  /** What the lookups yield: the gripper body G, the fingers L and R, and their sliders. */
  datatype GripperParts = GripperParts(
    gripperBody: string,
    M_GGo_G: SpatialInertia,
    M_LLo_L: SpatialInertia,
    M_RRo_R: SpatialInertia,
    leftSlider: SliderJoint,
    rightSlider: SliderJoint)

  /** Every name the computation looks up is present. */
  predicate HasGripperParts(plant: GripperPlant, gripperBodyFrameName: string)
  {
    && gripperBodyFrameName in plant.frameBodies
    && plant.frameBodies[gripperBodyFrameName] in plant.spatialInertias
    && LeftFingerBody in plant.spatialInertias
    && RightFingerBody in plant.spatialInertias
    && LeftSliderJoint in plant.joints
    && RightSliderJoint in plant.joints
  }

  /**
   * The by-name lookups in the order they are made, each written as the error
   * it raises: the gripper frame, the body it is on, both fingers, both sliders.
   */
  function Lookups(plant: GripperPlant, gripperBodyFrameName: string): seq<LookupError>
  {
    var G := if gripperBodyFrameName in plant.frameBodies then plant.frameBodies[gripperBodyFrameName] else "";
    [NoSuchFrame(gripperBodyFrameName), NoSuchBody(G), NoSuchBody(LeftFingerBody),
     NoSuchBody(RightFingerBody), NoSuchJoint(LeftSliderJoint), NoSuchJoint(RightSliderJoint)]
  }

  /** The lookup `e` stands for finds nothing. */
  predicate Missing(plant: GripperPlant, e: LookupError)
  {
    match e
    case NoSuchFrame(name) => name !in plant.frameBodies
    case NoSuchBody(name) => name !in plant.spatialInertias
    case NoSuchJoint(name) => name !in plant.joints
  }

  /** Lookup k is the first of `lookups` that finds nothing. */
  predicate FirstMissingAt(plant: GripperPlant, lookups: seq<LookupError>, k: int)
  {
    && 0 <= k < |lookups| && Missing(plant, lookups[k])
    && forall j :: 0 <= j < k ==> !Missing(plant, lookups[j])
  }

  /** The lookups, in the order the source performs them; the first missing name throws. */
  function FindGripperParts(plant: GripperPlant, gripperBodyFrameName: string): (r: Result<GripperParts, LookupError>)
    ensures r.Success? <==> HasGripperParts(plant, gripperBodyFrameName)
    ensures r.Success? ==>
      var G := plant.frameBodies[gripperBodyFrameName];
      r.value == GripperParts(G, plant.spatialInertias[G], plant.spatialInertias[LeftFingerBody],
                              plant.spatialInertias[RightFingerBody],
                              plant.joints[LeftSliderJoint], plant.joints[RightSliderJoint])
    ensures r.Failure? ==>
      var lookups := Lookups(plant, gripperBodyFrameName);
      exists k :: FirstMissingAt(plant, lookups, k) && lookups[k] == r.error
  {
    var lookups := Lookups(plant, gripperBodyFrameName);
    if gripperBodyFrameName !in plant.frameBodies then
      assert FirstMissingAt(plant, lookups, 0);
      Failure(NoSuchFrame(gripperBodyFrameName))
    else
      var G := plant.frameBodies[gripperBodyFrameName];
      if G !in plant.spatialInertias then
        assert FirstMissingAt(plant, lookups, 1);
        Failure(NoSuchBody(G))
      else if LeftFingerBody !in plant.spatialInertias then
        assert FirstMissingAt(plant, lookups, 2);
        Failure(NoSuchBody(LeftFingerBody))
      else if RightFingerBody !in plant.spatialInertias then
        assert FirstMissingAt(plant, lookups, 3);
        Failure(NoSuchBody(RightFingerBody))
      else if LeftSliderJoint !in plant.joints then
        assert FirstMissingAt(plant, lookups, 4);
        Failure(NoSuchJoint(LeftSliderJoint))
      else if RightSliderJoint !in plant.joints then
        assert FirstMissingAt(plant, lookups, 5);
        Failure(NoSuchJoint(RightSliderJoint))
      else Success(GripperParts(G, plant.spatialInertias[G], plant.spatialInertias[LeftFingerBody],
                                plant.spatialInertias[RightFingerBody],
                                plant.joints[LeftSliderJoint], plant.joints[RightSliderJoint]))
  }

  /**
   * The pose X_GF of a finger F in the gripper frame G when its slider is at
   * zero travel: X_GP * X_FC^-1, where X_GP is the pose of the slider's parent
   * frame P on G and X_FC the pose of its child frame C on F.
   */
  function CalcFingerPoseInGripperFrame(slider: SliderJoint): (X_GF: RigidTransform)
    ensures X_GF.base == slider.frameOnParent.poseInBody.base
    ensures X_GF.target == slider.frameOnChild.poseInBody.base
  {
    var X_GP := slider.frameOnParent.poseInBody;
    var X_FC := slider.frameOnChild.poseInBody;
    Multiply(X_GP, Inverse(X_FC))
  }

  /**
   * The spatial inertia of finger F about the gripper origin Go, expressed in G:
   * re-express by R_GF, then shift by p_FoGo_G = -p_GoFo_G.
   */
  function CalcFingerSpatialInertiaInGripperFrame(M_FFo_F: SpatialInertia, X_GF: RigidTransform): (M_FGo_G: SpatialInertia)
    requires M_FFo_F.about == X_GF.target && M_FFo_F.expressedIn == X_GF.target
    ensures M_FGo_G.mass == M_FFo_F.mass
    ensures M_FGo_G.bodies == M_FFo_F.bodies
    ensures M_FGo_G.about == X_GF.base && M_FGo_G.expressedIn == X_GF.base
  {
    var M_FFo_G := ReExpress(M_FFo_F, Rotation(X_GF));
    var p_FoGo_G := Negate(Translation(X_GF));
    Shift(M_FFo_G, p_FoGo_G)
  }

  /** The reference value of the composite: M_GGo_G + M_LGo_G + M_RGo_G, in that order. */
  function CompositeOf(parts: GripperParts): (M_CGo_G: SpatialInertia)
    requires WellAttached(parts)
    ensures M_CGo_G.mass == parts.M_GGo_G.mass + parts.M_LLo_L.mass + parts.M_RRo_R.mass
    ensures M_CGo_G.bodies == parts.M_GGo_G.bodies + parts.M_LLo_L.bodies + parts.M_RRo_R.bodies
  {
    var X_GL := CalcFingerPoseInGripperFrame(parts.leftSlider);
    var X_GR := CalcFingerPoseInGripperFrame(parts.rightSlider);
    Add(Add(parts.M_GGo_G, CalcFingerSpatialInertiaInGripperFrame(parts.M_LLo_L, X_GL)),
        CalcFingerSpatialInertiaInGripperFrame(parts.M_RRo_R, X_GR))
  }

  /** A body's default spatial inertia is about its own origin, expressed in its own frame. */
  predicate AboutOwnOrigin(M: SpatialInertia, body: string)
  {
    M.about == BodyFrame(body) && M.expressedIn == BodyFrame(body)
  }

  /**
   * The slider joins `parent` to `child`: P is fixed on the parent body, C on the
   * child body, and at zero travel P coincides with C.
   */
  predicate JoinsAtZeroTravel(slider: SliderJoint, parent: string, child: string)
  {
    && slider.frameOnParent.poseInBody.base == BodyFrame(parent)
    && slider.frameOnChild.poseInBody.base == BodyFrame(child)
    && slider.frameOnParent.poseInBody.target == slider.frameOnChild.poseInBody.target
  }

  /** The gripper model is shaped as the computation assumes. */
  predicate WellAttached(parts: GripperParts)
  {
    && AboutOwnOrigin(parts.M_GGo_G, parts.gripperBody)
    && AboutOwnOrigin(parts.M_LLo_L, LeftFingerBody)
    && AboutOwnOrigin(parts.M_RRo_R, RightFingerBody)
    && JoinsAtZeroTravel(parts.leftSlider, parts.gripperBody, LeftFingerBody)
    && JoinsAtZeroTravel(parts.rightSlider, parts.gripperBody, RightFingerBody)
  }

  /**
   * At zero travel the finger pose is the pose of the finger's body frame in
   * the gripper's body frame, and the product X_GP * X_CF is well chained.
   */
  lemma FingerPoseIsInGripperFrame(slider: SliderJoint, gripper: string, finger: string)
    requires JoinsAtZeroTravel(slider, gripper, finger)
    ensures Chains(slider.frameOnParent.poseInBody, Inverse(slider.frameOnChild.poseInBody))
    ensures CalcFingerPoseInGripperFrame(slider).base == BodyFrame(gripper)
    ensures CalcFingerPoseInGripperFrame(slider).target == BodyFrame(finger)
  {
  }

  /**
   * The order of the finger step matters: re-expressing in G and then
   * shifting by p_FoGo_G has agreeing operands, while shifting first does
   * not, because p_FoGo_G is expressed in G and the finger's inertia is
   * still expressed in F.
   */
  lemma FingerInertiaOperandsAgree(M_FFo_F: SpatialInertia, X_GF: RigidTransform)
    requires M_FFo_F.about == X_GF.target && M_FFo_F.expressedIn == X_GF.target
    ensures CanReExpress(M_FFo_F, Rotation(X_GF))
    ensures CanShift(ReExpress(M_FFo_F, Rotation(X_GF)), Negate(Translation(X_GF)))
    ensures CanShift(M_FFo_F, Negate(Translation(X_GF))) <==> X_GF.target == X_GF.base
  {
  }

  /**
   * On a well-attached gripper every operation of the composite gets operands
   * referred to the same point and frame, and the composite is about the
   * gripper origin Go, expressed in G.
   */
  lemma CompositeIsAboutGripperOrigin(parts: GripperParts)
    requires WellAttached(parts)
    ensures
      var G := BodyFrame(parts.gripperBody);
      var X_GL := CalcFingerPoseInGripperFrame(parts.leftSlider);
      var X_GR := CalcFingerPoseInGripperFrame(parts.rightSlider);
      var M_LGo_G := CalcFingerSpatialInertiaInGripperFrame(parts.M_LLo_L, X_GL);
      var M_RGo_G := CalcFingerSpatialInertiaInGripperFrame(parts.M_RRo_R, X_GR);
      && X_GL.base == G && X_GL.target == BodyFrame(LeftFingerBody)
      && X_GR.base == G && X_GR.target == BodyFrame(RightFingerBody)
      && CanAdd(parts.M_GGo_G, M_LGo_G)
      && CanAdd(Add(parts.M_GGo_G, M_LGo_G), M_RGo_G)
      && CompositeOf(parts).about == G
      && CompositeOf(parts).expressedIn == G
  {
  }

  /**
   * Looks up the gripper body and fingers, places each finger's spatial
   * inertia about Go in G, and accumulates base, left, right with `+=`.
   * The plant is what parsing the gripper's model file yields.
   */
  method MakeCompositeGripperInertia(plant: GripperPlant, gripperBodyFrameName: string)
    returns (r: Result<SpatialInertia, LookupError>)
    requires FindGripperParts(plant, gripperBodyFrameName).Success? ==>
      WellAttached(FindGripperParts(plant, gripperBodyFrameName).value)
    ensures r.Success? <==> HasGripperParts(plant, gripperBodyFrameName)
    ensures FindGripperParts(plant, gripperBodyFrameName).Failure? ==>
      r == Failure(FindGripperParts(plant, gripperBodyFrameName).error)
    ensures FindGripperParts(plant, gripperBodyFrameName).Success? ==>
      r == Success(CompositeOf(FindGripperParts(plant, gripperBodyFrameName).value))
  {
    var found := FindGripperParts(plant, gripperBodyFrameName);
    if found.Failure? {
      return Failure(found.error);
    }
    var parts := found.value;
    var X_GL := CalcFingerPoseInGripperFrame(parts.leftSlider);
    var X_GR := CalcFingerPoseInGripperFrame(parts.rightSlider);
    var M_LGo_G := CalcFingerSpatialInertiaInGripperFrame(parts.M_LLo_L, X_GL);
    var M_RGo_G := CalcFingerSpatialInertiaInGripperFrame(parts.M_RRo_R, X_GR);
    var M_CGo_G := parts.M_GGo_G;
    M_CGo_G := Add(M_CGo_G, M_LGo_G);
    M_CGo_G := Add(M_CGo_G, M_RGo_G);
    return Success(M_CGo_G);
  }
}
