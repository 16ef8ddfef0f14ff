# Manipulation station set-up bookkeeping, in Dafny

This project models the set-up core of Drake's `ManipulationStation`
(`examples/manipulation_station/manipulation_station.cc`): a builder that

- keeps the iiwa arm's controller gains (`iiwa_kp_`, `iiwa_ki_`, `iiwa_kd_`) and the
  wsg gripper's (`wsg_kp_`, `wsg_kd_`), which may be changed only until the plant is finalized;
- records how the iiwa and the wsg were welded into the plant (model path, parent
  frame, child frame, `X_PC`, model instance). The iiwa must hang from the world frame;
- keeps a camera table keyed by name, where a later registration overwrites an earlier one,
  lists its names, and gives the poses of the cameras that are fixed to the world;
- finalizes the plant only once both the iiwa and the wsg are registered. This
  one-way flip locks every gain setter;
- after the build, sets and reads the iiwa joint angles and rates and the gripper opening
  and its rate. The position setters also reset the position history that the controllers
  differentiate from;
- computes the composite spatial inertia of the gripper (`internal::MakeCompositeGripperInertia`):
  the gripper body plus both fingers, each finger re-expressed and shifted into the gripper frame.

Files and modules:

- `spatial.dfy`, module `Spatial`: rigid transforms and spatial inertias as symbolic values.
  Each value carries the frames and points of its monogram name (`X_AB`, `p_PQ_E`, `M_SP_E`),
  its mass and the set of bodies it stands for. The numeric internals stay uninterpreted.
  The predicates `Chains`, `CanReExpress`, `CanShift` and `CanAdd` say when an operation's
  operands agree.
- `internal.dfy`, module `Internal`: `MakeCompositeGripperInertia` and its two lambdas.
- `registry.dfy`, module `Registry`: the station's set-up state as a value. Each set-up call
  is a step function. `Apply` and `Run` play a sequence of calls, and lemmas cover such sequences.
- `joint_state.dfy`, module `JointState`: a built station's context (joint values by joint
  name, the two position histories) and the read/write functions that specify the
  joint-state setters and getters.
- `string_order.dfy`, module `StringOrder`: the key order of a `std::map<std::string, …>`.
- `station.dfy`, module `Station`: class `ManipulationStation`. It has the source's fields.
  Its methods are proved to follow the step functions of `Registry` and the read/write functions
  of `JointState`.
- `wrappers.dfy`, module `Wrappers`: `Option` and `Result`.

A call that throws in the source returns `Throws(error)` here and leaves the state unchanged.
In the gain setters and the registration calls, every check runs before any assignment, so this
matches the source. `Finalize` is the exception: some of its throws come after the plant is
finalized, and those are not modelled (see "Left out").

Where the code and the intended design of the station differ, the model follows the code:

- cameras and the iiwa and wsg models can still be registered after `Finalize`;
- registering the iiwa or the wsg a second time overwrites the first registration;
- `RegisterWsgControllerModel` does not check the wsg's parent frame. The frame is looked up by
  name in the controller's iiwa model only when `Finalize` builds the controller plant
  (lines 320-322); that later throw is not modelled;
- the iiwa's parent frame is compared with the world frame by name only;
- a second `Finalize` fails, although the station itself has no check for it. On the second call,
  building the controller model (line 336) first adds the iiwa model (lines 299-300) to the
  controller plant that the first call finalized (line 378). That throws before the station's
  plant is reached at line 341. The model reports this as `AlreadyFinalized`, after the two
  registration checks, as in the code.

## Model

| member | source | states |
|---|---|---|
| `Internal.FindGripperParts` | examples/manipulation_station/manipulation_station.cc:62-73 | the gripper body, both fingers and both sliders are found exactly when every looked-up name exists; a failure reports the first lookup, in the source's order (frame, its body, left finger, right finger, left slider, right slider), that finds nothing |
| `Internal.CalcFingerPoseInGripperFrame` | examples/manipulation_station/manipulation_station.cc:74-87 | `X_GP * X_FC⁻¹` is a pose from the slider parent's body frame G to the finger's body frame F |
| `Internal.FingerPoseIsInGripperFrame` | examples/manipulation_station/manipulation_station.cc:83-91 | when the slider joins G to F and P coincides with C at zero travel, the product is well chained and gives X_GF |
| `Internal.CalcFingerSpatialInertiaInGripperFrame` | examples/manipulation_station/manipulation_station.cc:94-101 | for a finger inertia about Fo and expressed in F (the target of `X_GF`): re-expressing by `R_GF` and then shifting by `-p_GoFo_G` gets agreeing operands at each step, as the spatial operations require; the result is about Go, expressed in G, with the finger's mass and bodies |
| `Internal.FingerInertiaOperandsAgree` | examples/manipulation_station/manipulation_station.cc:97-99 | re-expressing first and shifting second has agreeing operands; shifting first agrees only when F and G are the same frame, since `p_FoGo_G` is expressed in G |
| `Internal.CompositeOf` | examples/manipulation_station/manipulation_station.cc:102-111 | on a well-attached gripper (so that every `+=` has agreeing operands): composite mass is base + left + right mass; the composite stands for exactly the three bodies |
| `Internal.CompositeIsAboutGripperOrigin` | examples/manipulation_station/manipulation_station.cc:105-111 | on a well-attached gripper both `+=` get operands about Go in G, and the composite is about Go, expressed in G |
| `Internal.MakeCompositeGripperInertia` | examples/manipulation_station/manipulation_station.cc:55-112 | fails with the first missing name; otherwise returns `M_GGo_G + F(M_LLo_L, X_GL) + F(M_RRo_R, X_GR)` accumulated in that order |
| `Registry.InitialState` | examples/manipulation_station/manipulation_station.cc:161-167 | after construction kp is seven 100s, ki seven 1s, kd seven 20s = 2·sqrt(kp) (critically damped); nothing registered, no cameras, plant not finalized |
| `Station.ManipulationStation.constructor` | examples/manipulation_station/manipulation_station.cc:155-182 | the constructed station's fields are the initial state, and the gain invariant holds |
| `Registry.SetIiwaGainsStep` | examples/manipulation_station/manipulation_station.cc:666-673 | succeeds iff the plant is not finalized, the length is unchanged and no entry is negative; a finalized plant throws; on success only the chosen vector changes, to exactly the new gains; on failure nothing changes |
| `Station.ManipulationStation.SetIiwaGains` | examples/manipulation_station/manipulation_station.cc:666-673 | the new fields and the status are those of `SetIiwaGainsStep`; the gain invariant is kept |
| `Registry.SetWsgGainsStep` | examples/manipulation_station/manipulation_station.cc:658-664 | succeeds iff not finalized and kp, kd ≥ 0; then sets exactly kp and kd; on failure nothing changes |
| `Station.ManipulationStation.SetWsgGains` | examples/manipulation_station/manipulation_station.cc:658-664 | the new fields and the status are those of `SetWsgGainsStep` |
| `Registry.RegisterIiwaStep` | examples/manipulation_station/manipulation_station.cc:675-695 | succeeds iff the parent frame's name is the world frame's; then stores exactly the path, both frames, `X_PC` and the instance, and nothing else changes |
| `Station.ManipulationStation.RegisterIiwaControllerModel` | examples/manipulation_station/manipulation_station.cc:675-695 | the new fields and the status are those of `RegisterIiwaStep` |
| `Registry.RegisterWsgStep` | examples/manipulation_station/manipulation_station.cc:697-710 | never fails; stores exactly the path, both frames, `X_PC` and the instance, and nothing else changes |
| `Station.ManipulationStation.RegisterWsgControllerModel` | examples/manipulation_station/manipulation_station.cc:697-710 | the new fields are those of `RegisterWsgStep` |
| `Registry.RegisterCameraStep` | examples/manipulation_station/manipulation_station.cc:712-723 | the table's names gain `name`; its entry is the new one; every other entry is untouched |
| `Station.ManipulationStation.RegisterRgbdCamera` | examples/manipulation_station/manipulation_station.cc:712-723 | the new camera table is that of `RegisterCameraStep` |
| `Registry.FinalizeStep` | examples/manipulation_station/manipulation_station.cc:331-341 | of the throw paths it models: succeeds iff both model instances are valid and the plant is not yet finalized; an unregistered iiwa is reported first; success only flips the plant to finalized |
| `Station.ManipulationStation.Finalize` | examples/manipulation_station/manipulation_station.cc:331-341 | the new fields and the status are those of `FinalizeStep` |
| `Registry.Apply` | examples/manipulation_station/manipulation_station.cc:658-673 | any failed call leaves the state unchanged; the gain invariant is kept; finalized stays finalized; a gain setter on a finalized plant throws; only camera registration changes the camera table |
| `Registry.RunPreservesWellFormed` | examples/manipulation_station/manipulation_station.cc:666-673 | after any sequence of calls every iiwa gain vector still has seven non-negative entries and the wsg gains are non-negative |
| `Registry.GainsFrozenAfterFinalize` | examples/manipulation_station/manipulation_station.cc:658-673 | once finalized, no sequence of calls un-finalizes the plant or changes any gain |
| `Registry.FinalizeSucceedsOnce` | examples/manipulation_station/manipulation_station.cc:331-341 | after a successful `Finalize`, no later `Finalize` succeeds, whatever is called in between |
| `Registry.CameraNamesAfterRun` | examples/manipulation_station/manipulation_station.cc:712-723 | the camera table's names are the earlier names plus every name registered, each once |
| `Registry.LastCameraRegistrationWins` | examples/manipulation_station/manipulation_station.cc:722 | each name's entry is the one from its last registration; a name never registered keeps its entry or its absence |
| `StringOrder.LeastExists` | examples/manipulation_station/manipulation_station.cc:652 | a non-empty set of keys has a least key, the one a `std::map` visits first |
| `Station.ManipulationStation.GetCameraNames` | examples/manipulation_station/manipulation_station.cc:648-656 | returns every key of the camera table exactly once, in strictly increasing key order, so its length is the number of distinct names |
| `Station.ManipulationStation.GetStaticCameraPosesInWorld` | examples/manipulation_station/manipulation_station.cc:725-749 | has an entry exactly for the cameras whose parent frame is on the world body; each entry is the parent frame's fixed pose composed with `X_PC`; so its keys are a subset of the camera names |
| `JointState.IiwaJointNamesDistinct` | examples/manipulation_station/manipulation_station.cc:505-509 | the names `iiwa_joint_1` … `iiwa_joint_7` are pairwise distinct and differ from the finger sliders' names |
| `JointState.ReadIiwaJoints` | examples/manipulation_station/manipulation_station.cc:504-511 | entry i is the value of joint `iiwa_joint_<i+1>`, for the seven joints |
| `JointState.WriteIiwaJointsSpec` | examples/manipulation_station/manipulation_station.cc:523-528 | after the first k loop steps joints 1..k hold q, every other joint keeps its value, no joint is lost |
| `JointState.ReadAfterWriteIiwaJoints` | examples/manipulation_station/manipulation_station.cc:514-538 | writing the seven joints and reading them back gives q; the gripper opening is unchanged |
| `Station.ManipulationStation.GetIiwaPosition` | examples/manipulation_station/manipulation_station.cc:498-512 | returns the seven iiwa joint angles in joint order |
| `Station.ManipulationStation.SetIiwaPosition` | examples/manipulation_station/manipulation_station.cc:514-538 | the angles read back as q; the interpolator's position history becomes q; rates, gripper and the wsg history are unchanged |
| `Station.ManipulationStation.GetIiwaVelocity` | examples/manipulation_station/manipulation_station.cc:540-554 | returns the seven iiwa joint rates in joint order |
| `Station.ManipulationStation.SetIiwaVelocity` | examples/manipulation_station/manipulation_station.cc:556-571 | the rates read back as v; positions and both histories are unchanged |
| `Station.ManipulationStation.GetWsgPosition` | examples/manipulation_station/manipulation_station.cc:573-588 | the opening is the right finger's translation minus the left finger's; when the fingers are symmetric, writing the opening back with the setter's split leaves the positions unchanged |
| `Station.ManipulationStation.GetWsgVelocity` | examples/manipulation_station/manipulation_station.cc:590-605 | the opening rate is the right finger's rate minus the left finger's; when the rates are symmetric, writing it back with the split leaves the rates unchanged |
| `JointState.FingerTranslations` | examples/manipulation_station/manipulation_station.cc:614-621 | the right and left finger values are opposite and differ by exactly q |
| `JointState.OpeningAfterWriteFingers` | examples/manipulation_station/manipulation_station.cc:573-588 | after the split of q, right minus left is q, and the iiwa joints are unchanged |
| `Station.ManipulationStation.SetWsgPosition` | examples/manipulation_station/manipulation_station.cc:607-629 | the right finger is at q/2 and the left at -q/2, so `GetWsgPosition` returns q; the wsg controller's history becomes q; rates and the iiwa history are unchanged |
| `Station.ManipulationStation.SetWsgVelocity` | examples/manipulation_station/manipulation_station.cc:631-646 | the finger rates split v the same way, so `GetWsgVelocity` returns v; positions and both histories are unchanged |

## Left out

- `Finalize`'s diagram wiring (lines 343-495) is not modelled. It is a series of calls into framework systems that are not part of this model: the inverse dynamics controller, the adder, the demultiplexer, the interpolator, the wsg controller, the scene graphs and the cameras.
- `MakeIiwaControllerModel` (lines 294-329) is not modelled: parsing, welding and adding bodies to the controller plant are calls into the multibody library. The composite inertia it adds is modelled.
- `SetupDefaultStation` (lines 184-292) and `get_camera_poses` (lines 115-127) are not modelled. They load model files found with `FindResourceOrThrow` and feed hard-coded floating-point poses and camera intrinsics (the `atan` field of view) to the modelled registration calls.
- `AddAndWeldModelFrom` (lines 139-151) is not modelled, including its duplicate-model-name check: it parses a file and welds frames in the plant.
- The constructor's creation of the plant and scene graph and the gravity field (lines 156-159 and 172-181) are not modelled: they are library objects.
- The numeric internals of `RigidTransform` (product, inverse, rotation, translation) and of `SpatialInertia` (`ReExpress`, `Shift`, `+=`) are left uninterpreted; only mass, frames, points and bodies are tracked. As a result, the composite's centre of mass and rotational inertia are not shown to be independent of the order of accumulation.
- Reals are exact here; the source computes with doubles, so `q/2` and `-q/2` are exact halves only in this model.
- `Registry.FinalizeStep` models only the two registration checks (lines 333-334), the refusal of a second call and the plant's flip at line 341. It does not model these other throws:
  - a missing gripper frame, body or joint while the controller model is built (lines 315-316, the failures `Internal.FindGripperParts` models);
  - the iiwa child frame or the wsg parent frame being absent from the controller's iiwa model (lines 304-305 and 320-322);
  - a camera whose parent body has no geometry frame (line 464). That throw comes after the plant was finalized at line 341, so in the source such a call throws and still leaves the plant finalized.
- `Station.ManipulationStation.Finalize` follows `Registry.FinalizeStep` and leaves out the same throws.
- `Internal.MakeCompositeGripperInertia` requires that, once every part is found, the gripper model is well attached: each body's inertia is about its own origin and in its own frame, and each slider is fixed on the gripper and on its finger and joins them at zero travel. This is the shape the comments at lines 75-93 assume. A model file without that shape is not modelled. `Internal.CompositeOf` has the same precondition.
- `MakeCompositeGripperInertia` takes the parsed gripper plant as a parameter. Parsing the model file and finalizing that plant are file input and library code.
- `Station.ManipulationStation.constructor`: the default wsg gains are declared in `manipulation_station.h`, which is not part of this model, so they are parameters (required non-negative). `std::sqrt` is evaluated only at the default kp of 100, and its root 10 is written out, because Dafny has no real square root.
- The joint-state getters and setters look joints up by name only. The source scopes the finger-slider lookups to the wsg model instance; names are assumed unique in the station's plant. A missing joint or a joint of the wrong type would make the plant throw; the model requires a context that has every joint.
- `DRAKE_DEMAND(station_context != nullptr)` and `DRAKE_DEMAND(q.size() == kNumDofIiwa)` become preconditions, because they abort rather than throw.
- Finding the interpolator and the wsg controller by name with a `dynamic_cast` is not modelled; their position histories are fields of the context.
- `StringOrder.Less` compares characters by code point, whereas `std::string` compares bytes as unsigned char. The two orders agree on single-byte names.
- `drake/systems/analysis/test/logistic_system.h` is not part of this model: it is a floating-point test fixture unrelated to the station.
