/** The parts of the skeleton that the per-tick motor update inspects:
    a node's joint to its parent, the joint's driver, the driver's kind,
    its control port and its metadata tags. */
module Skeleton {

  datatype Option<T> = None | Some(value: T)

  /** How the update loop classifies a driver's drive type: a motor, an
      elevator, or any other kind (which the loop never drives). */
  datatype DriveKind = Motor | Elevator | Other

  /** Semantic tags a driver may carry. */
  datatype DriverMeta = WheelMeta | ElevatorMeta

  /** A joint driver: its drive kind, its 1-based control port and its tags. */
  datatype JointDriver = JointDriver(kind: DriveKind, portA: int, metas: set<DriverMeta>)

  /** The skeletal joint connecting a node to its parent; it may have no driver. */
  datatype SkeletalJoint = SkeletalJoint(cDriver: Option<JointDriver>)

  /** One rigid body of the skeleton; only the root has no joint. */
  datatype RigidNode = RigidNode(joint: Option<SkeletalJoint>)

  /** The node's driver, when it has both a joint and a driver. */
  function DriverOf(n: RigidNode): Option<JointDriver> {
    if n.joint.Some? then n.joint.value.cDriver else None
  }

  /** True when the node's driver carries the tag `m`. */
  predicate HasDriverMeta(n: RigidNode, m: DriverMeta) {
    DriverOf(n).Some? && m in DriverOf(n).value.metas
  }
}
