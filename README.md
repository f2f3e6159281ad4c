# DriveJoints — per-tick control-to-constraint translation

This project models the control update of the robot simulator's Unity engine
(`DriveJoints`). Each tick, it turns a vector of PWM control values and the
keyboard state into targets on the physics constraints of the robot's joints:

- **Keyboard mixing.** Arrow keys add ±0.5 steps into PWM slots 0 and 1 (a
  differential drive). Number keys 1 and 2 add ±0.5 into slot 2, and key 1
  wins over key 2. The array is updated in place.
- **Dispatch.** For every PWM index `i` and every skeleton node, a node is
  driven when it has a joint and a driver, the driver is a motor tagged as a
  wheel or an elevator tagged as an elevator stage, and its 1-based port
  `portA` equals `i + 1`.
  - A wheel's hinge gets target angular velocity `sign(pwm[i]) * 300`. Its
    maximum impulse is the coast friction 0.025 when the value is zero, and
    `|pwm[i] * 0.1|` otherwise.
  - An elevator's slider is powered, gets maximum force 100, and gets target
    velocity `pwm[i] * 5`.
- **Solenoid.** A one-step velocity-feedback law on the X axis of a 6-DOF
  constraint. The target is `a*dt - v·axis` with `a = maxForce.x / mass * (±1)`.
  Nothing is written when there is no 6-DOF constraint or no positive maximum
  force.
- **Queries.** The hinge angle of a child relative to its parent, and a
  child's linear position along the joint axis relative to its parent.

Files:

- `Vectors.dfy`: a real-valued `Vec3`.
- `Skeleton.dfy`: nodes, joints, drivers, drive kinds and driver tags.
- `DriveJoints.dfy`: the mappings, the key mixing, the `MotorRig` class, the
  solenoid and the queries. `MotorRig` holds the node list and the hinge and
  slider constraint state in arrays, and its `UpdateAllMotors` runs the
  source's nested loop.

The model follows these points of the C# code:

- Ports are compared as `portA == i + 1`. They are 1-based, while the PWM
  array is 0-based.
- A port outside `1..pwm.Length` is silently ignored. No error is reported.
- The solenoid is not part of the dispatch loop. It is a separate operation,
  fired with a direction.
- With a non-positive maximum force, the pressure-based fallback computes an
  acceleration and then returns, so nothing is written.

## Model

| member | source | states |
|---|---|---|
| `DriveJoints.WheelTargetVelocity` | engine/unity5/Assets/Scripts/DriveJoints.cs:116 | The wheel target equals sign(p) × 300. It is +300 exactly when p > 0, −300 exactly when p < 0, and 0 exactly when p = 0. |
| `DriveJoints.WheelMaxImpulse` | engine/unity5/Assets/Scripts/DriveJoints.cs:117 | The impulse is 0.025 when p = 0, and \|p\|·0.1 otherwise. It is always positive, and at most 0.1 when \|p\| ≤ 1. |
| `DriveJoints.ElevatorCommand` | engine/unity5/Assets/Scripts/DriveJoints.cs:129-131 | The slider motor is powered with force 100. Its velocity divided by 5 gives back p, and it is positive exactly when p is. It stays within ±5 when \|p\| ≤ 1. |
| `DriveJoints.CommandExamples` | engine/unity5/Assets/Scripts/DriveJoints.cs:116-131 | p = 0 coasts at 0.025. p = 1 gives (300, 0.1). p = −0.5 gives (−300, 0.05). An elevator at 0.3 moves at 1.5 with force 100. |
| `DriveJoints.KeyMixed` | engine/unity5/Assets/Scripts/DriveJoints.cs:84-97 | Mixing keeps the length and never changes slots 3 and up. With no key held, the vector is unchanged. |
| `DriveJoints.MixKeys` | engine/unity5/Assets/Scripts/DriveJoints.cs:84-96 | The in-place array becomes `KeyMixed` of its old contents. The flag is false exactly when a key is held and the array has fewer than 3 slots; the slots before the missing one are already updated. |
| `DriveJoints.Pwm0Delta` | engine/unity5/Assets/Scripts/DriveJoints.cs:86-90 | The slot 0 change lies in [−1, 1]. It is positive when only Up and/or Right are held, negative when only Down and/or Left are held, and 0 with no arrow key. |
| `DriveJoints.Pwm1Delta` | engine/unity5/Assets/Scripts/DriveJoints.cs:91-95 | The slot 1 change lies in [−1, 1]. It is positive when only Down and/or Right are held, negative when only Up and/or Left are held, and 0 with no arrow key. |
| `DriveJoints.Pwm2Delta` | engine/unity5/Assets/Scripts/DriveJoints.cs:96 | The slot 2 change is positive exactly when key 1 is held, and negative exactly when key 2 is held without key 1. It is 0 otherwise and never exceeds 0.5 in size. |
| `DriveJoints.UpAlone` | engine/unity5/Assets/Scripts/DriveJoints.cs:86-96 | Up alone adds +0.5 to slot 0 and −0.5 to slot 1, and leaves slot 2 alone. |
| `DriveJoints.LeftAlone` | engine/unity5/Assets/Scripts/DriveJoints.cs:86-96 | Left alone adds −0.5 to both slot 0 and slot 1, and leaves slot 2 alone. |
| `DriveJoints.UpDownCancel` | engine/unity5/Assets/Scripts/DriveJoints.cs:86-95 | Holding Up together with Down gives the same slot 0 and slot 1 deltas as holding neither. |
| `DriveJoints.ArrowSteering` | engine/unity5/Assets/Scripts/DriveJoints.cs:86-95 | The change to slot 0 minus the change to slot 1 is the forward command (Up − Down). Their sum is the turn command (Right − Left). |
| `DriveJoints.NumberKeyPrecedence` | engine/unity5/Assets/Scripts/DriveJoints.cs:96 | Slot 2 gets +0.5 if key 1 is held, else −0.5 if key 2 is held, else 0. |
| `DriveJoints.DrivenHinges` | engine/unity5/Assets/Scripts/DriveJoints.cs:111-118 | After a full dispatch, only wheel nodes can have a changed hinge, and only when their port lies in 1..\|pwm\|. |
| `DriveJoints.DrivenSliders` | engine/unity5/Assets/Scripts/DriveJoints.cs:120-132 | After a full dispatch, only elevator-stage nodes can have a changed slider, and only when their port lies in 1..\|pwm\|. |
| `DriveJoints.DispatchPerNode` | engine/unity5/Assets/Scripts/DriveJoints.cs:103-136 | The per-index guards of the loop decide each node's result. A node that no index drives keeps its hinge and slider. A node driven by index i ends with the wheel or elevator command for pwm[i]. |
| `DriveJoints.UndrivenNodesUnchanged` | engine/unity5/Assets/Scripts/DriveJoints.cs:109-125 | These nodes keep both constraints: no joint, no driver, a driver of another kind, or a port outside 1..\|pwm\|. |
| `DriveJoints.DrivenWheelBounds` | engine/unity5/Assets/Scripts/DriveJoints.cs:113-117 | Take a PWM vector within [−1, 1] and a wheel whose port is in range. Its impulse ends in (0, 0.1], and its speed is at most 300. |
| `DriveJoints.MotorRig.UpdateAllMotors` | engine/unity5/Assets/Scripts/DriveJoints.cs:79-137 | The tick mixes the keys into pwm. It then drives every hinge and slider as `DrivenHinges`/`DrivenSliders` of the mixed pwm, unless the mix failed on a short array, in which case the constraints are unchanged. |
| `DriveJoints.MotorRig.Dispatch` | engine/unity5/Assets/Scripts/DriveJoints.cs:100-136 | The nested loop over PWM indices and nodes leaves each node's hinge and slider exactly as `DrivenHinges`/`DrivenSliders` say. |
| `DriveJoints.SolenoidAcceleration` | engine/unity5/Assets/Scripts/DriveJoints.cs:31 | Acceleration × mass equals ±maxForce.x, by direction. With positive force and mass, it is positive exactly when the direction is forward. |
| `DriveJoints.SolenoidTarget` | engine/unity5/Assets/Scripts/DriveJoints.cs:29-46 | A target exists exactly when maxForce.x > 0. Its Y and Z are 0. Its X plus the axial velocity equals a·dt. |
| `DriveJoints.SolenoidDirectionFlip` | engine/unity5/Assets/Scripts/DriveJoints.cs:31-46 | Reversing the direction negates the a·dt term and keeps the feedback term. |
| `DriveJoints.SetSolenoid` | engine/unity5/Assets/Scripts/DriveJoints.cs:19-47 | With no 6-DOF constraint, nothing changes. Otherwise the target velocity becomes `SolenoidTarget`, or stays as it was when the max force is not positive. The other fields are unchanged. |
| `DriveJoints.HingeAngleIgnoresOrientation` | engine/unity5/Assets/Scripts/DriveJoints.cs:63-68 | A hinge reads as its live hinge angle, whatever the child's and parent's up axes are. |
| `DriveJoints.LinearPositionRelativeToParent` | engine/unity5/Assets/Scripts/DriveJoints.cs:49-60 | The position is the projection of the parent-minus-child offset on the world-space axis. It is 0 when the origins coincide or the axis is zero. |
| `DriveJoints.LinearPositionAlongAxis` | engine/unity5/Assets/Scripts/DriveJoints.cs:49-60 | A child displaced by s along the unit axis from its parent reads as position −s. |
| `DriveJoints.LinearPositionTranslationInvariant` | engine/unity5/Assets/Scripts/DriveJoints.cs:56-60 | Moving child and parent by the same offset leaves the linear position unchanged. |

## Left out

- `DriveJoints.AngleBetweenChildAndParent`: the hinge branch is a bare read of the hinge's angle, so the function carries no contract of its own. It returns no value for non-hinge joints. The source computes the angle between the bodies' up axes there, with `acos` and a degree conversion, which need transcendental functions.
- `DriveJoints.LinearPositionRelativeToParent` takes the joint axis already rotated into world space and normalised. The quaternion rotation and `Normalize()` need square roots.
- `DriveJoints.SetSolenoid`: requires a non-zero mass on the positive-force path. The source divides by the mass unguarded, and a zero mass there gives an IEEE infinity or NaN that reals cannot express.
- `DriveJoints.SetSolenoid`: does not model the pressure × π × radius² fallback acceleration. Its value is discarded before any write.
- Single-precision float rounding is not modelled: values and constants are reals. Examples are 0.025f and 0.1f, and the product `pwm * 0.1f`.
- Unity and Bullet plumbing become plain inputs: `GetComponent`, `GetCollisionObject`, world transforms and `Time.deltaTime`. The solenoid takes `dt` and the constraint's world-space X axis. Its body mass and velocity are fields of the constraint.
- `MotorRig` assumes every node owns a hinge slot and a slider slot. In the source, a matched node without the component throws a null-reference exception.
- `Input.GetKey`/`Input.anyKey` become the `Keys` record. `other` stands for any key outside the six that are read.
- The control vector is passed as the `pwm` array. Selecting `dioModules[0]` is not modelled (an empty module array throws). The unused `canValues` is not modelled.
- Skeleton traversal (`ListAllNodes`) is not part of this model. The node list is a given sequence in traversal order.
- `OrientRobot` (engine_research Utility/AuxFunctions.cs) is not part of this model. It wraps matrix and collision-object operations whose conventions are outside the modelled files.
- The skeleton and mesh codec is not part of this model. Neither are the exporter GUI (ExporterGUI.cs), the popup widget (Popup.cs) or the placeholder elevator script (ElevatorScript.cs): they are UI, file I/O or calls into the game engine.
