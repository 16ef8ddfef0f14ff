/**
 * Stand-ins for the rigid-transform and spatial-inertia types of the multibody
 * library. Their numeric internals (matrix products, the parallel-axis term,
 * floating point) belong to the library and are left uninterpreted: a value is
 * a symbolic term recording which operations were applied to which operands.
 * What IS interpreted is the bookkeeping the monogram notation of the source
 * carries in its names:
 *   X_AB  the pose of frame B in frame A               (base A, target B)
 *   R_AB  the orientation of frame B in frame A        (base A, target B)
 *   p_PQ_E  the position of Q's origin from P's origin, expressed in E
 *   M_SP_E  the spatial inertia of body set S about P's origin, expressed in E
 * together with the mass of a spatial inertia, which re-expressing and shifting
 * keep and which `+=` adds. An operation on a spatial inertia requires operands
 * that agree in these labels, so that a computation that re-expresses, shifts
 * or adds in the wrong order, or with the wrong operand, is not well formed.
 */
module Spatial {

  /** A frame: the frame of a body, or a frame fixed to a body at some pose. */
  datatype Frame = BodyFrame(body: string) | FixedFrame(name: string)

  /** Symbolic pose values: leaves come from a model file. */
  datatype PoseTerm =
    | PoseValue(id: string)
    | IdentityPose
    | Product(left: PoseTerm, right: PoseTerm)
    | Inverted(pose: PoseTerm)

  /** Symbolic rotation values: the rotation part of a pose. */
  datatype RotationTerm = RotationPart(pose: PoseTerm)

  /** Symbolic position vectors: the translation part of a pose, or its negation. */
  datatype VectorTerm = TranslationPart(pose: PoseTerm) | Negated(vector: VectorTerm)

  /** Symbolic centre of mass and rotational inertia. */
  datatype MomentsTerm =
    | MomentsValue(id: string)
    | ReExpressed(moments: MomentsTerm, rotation: RotationTerm)
    | Shifted(moments: MomentsTerm, offset: VectorTerm)
    | Summed(first: MomentsTerm, second: MomentsTerm)

  /** X_AB, with A the base frame and B the target frame. */
  datatype RigidTransform = RigidTransform(base: Frame, target: Frame, value: PoseTerm)

  /** R_AB, with A the base frame and B the target frame. */
  datatype RotationMatrix = RotationMatrix(base: Frame, target: Frame, value: RotationTerm)

  /** p_PQ_E: from the origin of `tail` to the origin of `head`, expressed in `expressedIn`. */
  datatype Position = Position(tail: Frame, head: Frame, expressedIn: Frame, value: VectorTerm)

  /** M_SP_E: the bodies S it stands for, the point P (origin of `about`), the frame E. */
  datatype SpatialInertia = SpatialInertia(
    bodies: multiset<string>,
    about: Frame,
    expressedIn: Frame,
    mass: real,
    moments: MomentsTerm)

  /** The identity pose of a frame in itself (a default-constructed transform). */
  function Identity(f: Frame): RigidTransform
  {
    RigidTransform(f, f, IdentityPose)
  }

  /** X_AB * X_BC: meaningful when the target of the first is the base of the second. */
  predicate Chains(X_AB: RigidTransform, X_BC: RigidTransform)
  {
    X_AB.target == X_BC.base
  }

  /** The product X_AB * X_BC = X_AC. */
  function Multiply(X_AB: RigidTransform, X_BC: RigidTransform): RigidTransform
  {
    RigidTransform(X_AB.base, X_BC.target, Product(X_AB.value, X_BC.value))
  }

  /** X_AB.inverse() = X_BA. */
  function Inverse(X_AB: RigidTransform): RigidTransform
  {
    RigidTransform(X_AB.target, X_AB.base, Inverted(X_AB.value))
  }

  /** X_AB.rotation() = R_AB. */
  function Rotation(X_AB: RigidTransform): RotationMatrix
  {
    RotationMatrix(X_AB.base, X_AB.target, RotationPart(X_AB.value))
  }

  /** X_AB.translation() = p_AoBo_A. */
  function Translation(X_AB: RigidTransform): Position
  {
    Position(X_AB.base, X_AB.target, X_AB.base, TranslationPart(X_AB.value))
  }

  /** -p_PQ_E = p_QP_E. */
  function Negate(p: Position): Position
  {
    Position(p.head, p.tail, p.expressedIn, Negated(p.value))
  }

  /** M_SP_E.ReExpress(R_AE) is meaningful when M is expressed in R's target frame. */
  predicate CanReExpress(M: SpatialInertia, R_AE: RotationMatrix)
  {
    M.expressedIn == R_AE.target
  }

  /** M_SP_E.ReExpress(R_AE) = M_SP_A: same point, same mass, new frame. */
  function ReExpress(M: SpatialInertia, R_AE: RotationMatrix): SpatialInertia
    requires CanReExpress(M, R_AE)
  {
    SpatialInertia(M.bodies, M.about, R_AE.base, M.mass, ReExpressed(M.moments, R_AE.value))
  }

  /** M_SP_E.Shift(p_PQ_E) is meaningful when p starts at M's point and is expressed in M's frame. */
  predicate CanShift(M: SpatialInertia, p_PQ_E: Position)
  {
    M.about == p_PQ_E.tail && M.expressedIn == p_PQ_E.expressedIn
  }

  /** M_SP_E.Shift(p_PQ_E) = M_SQ_E: same frame, same mass, new point. */
  function Shift(M: SpatialInertia, p_PQ_E: Position): SpatialInertia
    requires CanShift(M, p_PQ_E)
  {
    SpatialInertia(M.bodies, p_PQ_E.head, M.expressedIn, M.mass, Shifted(M.moments, p_PQ_E.value))
  }

  /** `a += b` is meaningful when both are about the same point and expressed in the same frame. */
  predicate CanAdd(a: SpatialInertia, b: SpatialInertia)
  {
    a.about == b.about && a.expressedIn == b.expressedIn
  }

  /** `a += b`: the composite of both body sets, masses added. */
  function Add(a: SpatialInertia, b: SpatialInertia): SpatialInertia
    requires CanAdd(a, b)
  {
    SpatialInertia(a.bodies + b.bodies, a.about, a.expressedIn, a.mass + b.mass, Summed(a.moments, b.moments))
  }
}
