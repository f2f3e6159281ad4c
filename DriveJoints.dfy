/** The per-tick translation from control signals to joint-constraint
    targets: keyboard mixing into the PWM vector, the wheel/elevator
    dispatch loop, the solenoid velocity-feedback law and the read-only
    joint position queries. Single-precision floats are modelled as reals. */
module DriveJoints {
  import opened Vectors
  import opened Skeleton

  const SPEED_ARROW_PWM: real := 0.5
  const WHEEL_MAX_SPEED: real := 300.0
  const MAX_MOTOR_IMPULSE: real := 0.1
  const MOTOR_COAST_FRICTION: real := 0.025
  const MAX_SLIDER_FORCE: real := 100.0
  const MAX_SLIDER_SPEED: real := 5.0

  function Abs(r: real): real {
    if r < 0.0 then -r else r
  }

  /** The sign of a control value, as -1, 0 or 1. */
  function Sign(p: real): int {
    if p > 0.0 then 1 else if p < 0.0 then -1 else 0
  }

  // ---------------------------------------------------------------------
  // Per-value mappings written into the physics constraints

  /** The motor-driven part of a hinge constraint that the update loop writes. */
  datatype HingeMotor = HingeMotor(targetMotorAngularVelocity: real, maxMotorImpulse: real)

  /** The motor-driven part of a slider constraint that the update loop writes. */
  datatype SliderMotor = SliderMotor(poweredLinearMotor: bool, maxLinearMotorForce: real,
                                     targetLinearMotorVelocity: real)

  /** A wheel spins at full speed in the direction of the control value,
      and stands still only when the value is exactly zero. */
  function WheelTargetVelocity(p: real): (v: real)
    ensures v == Sign(p) as real * WHEEL_MAX_SPEED
    ensures v == WHEEL_MAX_SPEED <==> p > 0.0
    ensures v == -WHEEL_MAX_SPEED <==> p < 0.0
    ensures v == 0.0 <==> p == 0.0
  {
    if p > 0.0 then WHEEL_MAX_SPEED else if p < 0.0 then -WHEEL_MAX_SPEED else 0.0
  }

  /** The impulse a wheel motor may apply: proportional to the magnitude of
      the control value, or the coast friction when the value is zero. */
  function WheelMaxImpulse(p: real): (m: real)
    ensures m > 0.0
    ensures p == 0.0 ==> m == MOTOR_COAST_FRICTION
    ensures p != 0.0 ==> m == Abs(p) * MAX_MOTOR_IMPULSE
    ensures -1.0 <= p <= 1.0 ==> m <= MAX_MOTOR_IMPULSE
  {
    if p == 0.0 then MOTOR_COAST_FRICTION else Abs(p * MAX_MOTOR_IMPULSE)
  }

  /** What a matched wheel's hinge holds after being driven by `p`. */
  function WheelCommand(p: real): HingeMotor {
    HingeMotor(WheelTargetVelocity(p), WheelMaxImpulse(p))
  }

  /** What a matched elevator's slider holds after being driven by `p`: a
      powered motor at the fixed force, moving in the direction of `p` at a
      speed proportional to it. */
  function ElevatorCommand(p: real): (s: SliderMotor)
    ensures s.poweredLinearMotor && s.maxLinearMotorForce == MAX_SLIDER_FORCE
    ensures s.targetLinearMotorVelocity / MAX_SLIDER_SPEED == p
    ensures s.targetLinearMotorVelocity > 0.0 <==> p > 0.0
    ensures -1.0 <= p <= 1.0 ==> Abs(s.targetLinearMotorVelocity) <= MAX_SLIDER_SPEED
  {
    SliderMotor(true, MAX_SLIDER_FORCE, p * MAX_SLIDER_SPEED)
  }

  /** Worked values: zero coasts, full forward is full speed and full
      impulse, half reverse is full reverse speed at half impulse; an
      elevator at 0.3 moves at 0.3 of its top speed. */
  lemma CommandExamples()
    ensures WheelCommand(0.0) == HingeMotor(0.0, MOTOR_COAST_FRICTION)
    ensures WheelCommand(1.0) == HingeMotor(WHEEL_MAX_SPEED, MAX_MOTOR_IMPULSE)
    ensures WheelCommand(-0.5) == HingeMotor(-WHEEL_MAX_SPEED, 0.5 * MAX_MOTOR_IMPULSE)
    ensures ElevatorCommand(0.3) == SliderMotor(true, MAX_SLIDER_FORCE, 0.3 * MAX_SLIDER_SPEED)
  {
  }

  // ---------------------------------------------------------------------
  // Keyboard mixing

  /** The keys the update reads, plus whether any other key is held
      (which alone makes the engine report that some key is down). */
  datatype Keys = Keys(up: bool, down: bool, left: bool, right: bool,
                       alpha1: bool, alpha2: bool, other: bool)

  const NoKeys: Keys := Keys(false, false, false, false, false, false, false)

  predicate AnyKey(k: Keys) {
    k.up || k.down || k.left || k.right || k.alpha1 || k.alpha2 || k.other
  }

  function Term(held: bool, delta: real): real {
    if held then delta else 0.0
  }

  /** The arrow-key contribution to PWM slot 0: Up and Right push it
      forward, Down and Left back, one step each. */
  function Pwm0Delta(k: Keys): (d: real)
    ensures -1.0 <= d <= 1.0
    ensures !k.down && !k.left && (k.up || k.right) ==> d > 0.0
    ensures !k.up && !k.right && (k.down || k.left) ==> d < 0.0
    ensures !k.up && !k.down && !k.left && !k.right ==> d == 0.0
  {
    Term(k.up, SPEED_ARROW_PWM) + Term(k.down, -SPEED_ARROW_PWM)
    + Term(k.left, -SPEED_ARROW_PWM) + Term(k.right, SPEED_ARROW_PWM)
  }

  /** The arrow-key contribution to PWM slot 1: Down and Right push it
      forward, Up and Left back, one step each. */
  function Pwm1Delta(k: Keys): (d: real)
    ensures -1.0 <= d <= 1.0
    ensures !k.up && !k.left && (k.down || k.right) ==> d > 0.0
    ensures !k.down && !k.right && (k.up || k.left) ==> d < 0.0
    ensures !k.up && !k.down && !k.left && !k.right ==> d == 0.0
  {
    Term(k.up, -SPEED_ARROW_PWM) + Term(k.down, SPEED_ARROW_PWM)
    + Term(k.left, -SPEED_ARROW_PWM) + Term(k.right, SPEED_ARROW_PWM)
  }

  /** The number-key contribution to PWM slot 2: key 1 takes precedence over key 2. */
  function Pwm2Delta(k: Keys): (d: real)
    ensures d > 0.0 <==> k.alpha1
    ensures d < 0.0 <==> !k.alpha1 && k.alpha2
    ensures d == 0.0 <==> !k.alpha1 && !k.alpha2
    ensures Abs(d) <= SPEED_ARROW_PWM
  {
    if k.alpha1 then SPEED_ARROW_PWM else if k.alpha2 then -SPEED_ARROW_PWM else 0.0
  }

  /** The PWM vector after keyboard mixing. When a key is held and the
      vector has fewer than three slots, the engine fails on the first
      missing slot; the slots before it have already been updated, which
      is exactly what this keeps. */
  function KeyMixed(pwm: seq<real>, k: Keys): (r: seq<real>)
    ensures |r| == |pwm|
    ensures forall j :: 3 <= j < |pwm| ==> r[j] == pwm[j]
    ensures !AnyKey(k) ==> r == pwm
  {
    if !AnyKey(k) then pwm
    else seq(|pwm|, j requires 0 <= j < |pwm| =>
               if j == 0 then pwm[0] + Pwm0Delta(k)
               else if j == 1 then pwm[1] + Pwm1Delta(k)
               else if j == 2 then pwm[2] + Pwm2Delta(k)
               else pwm[j])
  }

  /** Adds the keyboard contributions into `pwm` in place. `inBounds` is
      false exactly when the engine would fail on a missing slot. */
  method MixKeys(pwm: array<real>, k: Keys) returns (inBounds: bool)
    modifies pwm
    ensures pwm[..] == KeyMixed(old(pwm[..]), k)
    ensures inBounds <==> !(AnyKey(k) && pwm.Length < 3)
  {
    inBounds := true;
    if AnyKey(k) {
      if pwm.Length < 1 {
        return false;
      }
      pwm[0] := pwm[0] + Pwm0Delta(k);
      if pwm.Length < 2 {
        return false;
      }
      pwm[1] := pwm[1] + Pwm1Delta(k);
      if pwm.Length < 3 {
        return false;
      }
      pwm[2] := pwm[2] + Pwm2Delta(k);
    }
  }

  /** Holding Up and Down together contributes nothing to slots 0 and 1. */
  lemma UpDownCancel(k: Keys)
    requires k.up && k.down
    ensures Pwm0Delta(k) == Pwm0Delta(k.(up := false, down := false))
    ensures Pwm1Delta(k) == Pwm1Delta(k.(up := false, down := false))
  {
  }

  /** Slots 0 and 1 form a differential drive: their difference is the
      forward command (Up minus Down) and their sum the turn command
      (Right minus Left), each key worth one full step. */
  lemma ArrowSteering(k: Keys)
    ensures Pwm0Delta(k) - Pwm1Delta(k) == Term(k.up, 1.0) - Term(k.down, 1.0)
    ensures Pwm0Delta(k) + Pwm1Delta(k) == Term(k.right, 1.0) - Term(k.left, 1.0)
  {
  }

  /** Up alone drives slot 0 forward and slot 1 backward by one step. */
  lemma UpAlone(pwm: seq<real>)
    requires |pwm| >= 3
    ensures var r := KeyMixed(pwm, NoKeys.(up := true));
            r[0] == pwm[0] + SPEED_ARROW_PWM && r[1] == pwm[1] - SPEED_ARROW_PWM && r[2] == pwm[2]
  {
    var k := NoKeys.(up := true);
    assert AnyKey(k);
    assert Pwm0Delta(k) == SPEED_ARROW_PWM && Pwm1Delta(k) == -SPEED_ARROW_PWM && Pwm2Delta(k) == 0.0;
  }

  /** Left alone drives both slots 0 and 1 backward by one step. */
  lemma LeftAlone(pwm: seq<real>)
    requires |pwm| >= 3
    ensures var r := KeyMixed(pwm, NoKeys.(left := true));
            r[0] == pwm[0] - SPEED_ARROW_PWM && r[1] == pwm[1] - SPEED_ARROW_PWM && r[2] == pwm[2]
  {
    var k := NoKeys.(left := true);
    assert AnyKey(k);
    assert Pwm0Delta(k) == -SPEED_ARROW_PWM && Pwm1Delta(k) == -SPEED_ARROW_PWM && Pwm2Delta(k) == 0.0;
  }

  /** Key 1 wins over key 2 on slot 2; key 2 alone moves it backward. */
  lemma NumberKeyPrecedence(k: Keys)
    ensures k.alpha1 ==> Pwm2Delta(k) == SPEED_ARROW_PWM
    ensures !k.alpha1 && k.alpha2 ==> Pwm2Delta(k) == -SPEED_ARROW_PWM
    ensures !k.alpha1 && !k.alpha2 ==> Pwm2Delta(k) == 0.0
  {
  }

  // ---------------------------------------------------------------------
  // Dispatch: which node is driven by which PWM index

  /** A node whose driver is a motor tagged as a wheel. */
  predicate IsWheel(n: RigidNode) {
    DriverOf(n).Some? && DriverOf(n).value.kind == Motor && HasDriverMeta(n, WheelMeta)
  }

  /** A node whose driver is an elevator tagged as an elevator stage. */
  predicate IsElevatorStage(n: RigidNode) {
    DriverOf(n).Some? && DriverOf(n).value.kind == Elevator && HasDriverMeta(n, ElevatorMeta)
  }

  /** The guard under which PWM index `i` drives the node's hinge. */
  predicate DrivesWheel(n: RigidNode, i: int) {
    IsWheel(n) && DriverOf(n).value.portA == i + 1
  }

  /** The guard under which PWM index `i` drives the node's slider. */
  predicate DrivesElevator(n: RigidNode, i: int) {
    IsElevatorStage(n) && DriverOf(n).value.portA == i + 1
  }

  /** The 0-based PWM index a driven node listens to (its 1-based port less one). */
  function Channel(n: RigidNode): int
    requires DriverOf(n).Some?
  {
    DriverOf(n).value.portA - 1
  }

  /** A node's hinge after the PWM indices below `upto` have been dispatched. */
  function HingeAfter(n: RigidNode, pwm: seq<real>, upto: nat, h: HingeMotor): HingeMotor
    requires upto <= |pwm|
  {
    if IsWheel(n) && 0 <= Channel(n) < upto then WheelCommand(pwm[Channel(n)]) else h
  }

  /** A node's slider after the PWM indices below `upto` have been dispatched. */
  function SliderAfter(n: RigidNode, pwm: seq<real>, upto: nat, s: SliderMotor): SliderMotor
    requires upto <= |pwm|
  {
    if IsElevatorStage(n) && 0 <= Channel(n) < upto then ElevatorCommand(pwm[Channel(n)]) else s
  }

  /** Every node's hinge after a full dispatch of `pwm`. */
  function DrivenHinges(nodes: seq<RigidNode>, pwm: seq<real>, hs: seq<HingeMotor>): (r: seq<HingeMotor>)
    requires |hs| == |nodes|
    ensures |r| == |hs|
    ensures forall j :: 0 <= j < |hs| && !IsWheel(nodes[j]) ==> r[j] == hs[j]
    ensures forall j :: 0 <= j < |hs| && IsWheel(nodes[j]) && r[j] != hs[j] ==>
              1 <= DriverOf(nodes[j]).value.portA <= |pwm|
  {
    seq(|hs|, j requires 0 <= j < |hs| => HingeAfter(nodes[j], pwm, |pwm|, hs[j]))
  }

  /** Every node's slider after a full dispatch of `pwm`. */
  function DrivenSliders(nodes: seq<RigidNode>, pwm: seq<real>, ss: seq<SliderMotor>): (r: seq<SliderMotor>)
    requires |ss| == |nodes|
    ensures |r| == |ss|
    ensures forall j :: 0 <= j < |ss| && !IsElevatorStage(nodes[j]) ==> r[j] == ss[j]
    ensures forall j :: 0 <= j < |ss| && IsElevatorStage(nodes[j]) && r[j] != ss[j] ==>
              1 <= DriverOf(nodes[j]).value.portA <= |pwm|
  {
    seq(|ss|, j requires 0 <= j < |ss| => SliderAfter(nodes[j], pwm, |pwm|, ss[j]))
  }

  /** What a full dispatch does to node `j`, stated in terms of the loop's
      own per-index guards: a node that no index drives keeps both its
      constraints; a node that index `i` drives ends with the command for
      `pwm[i]`. */
  lemma DispatchPerNode(nodes: seq<RigidNode>, pwm: seq<real>, hs: seq<HingeMotor>,
                        ss: seq<SliderMotor>, j: int)
    requires |hs| == |nodes| == |ss| && 0 <= j < |nodes|
    ensures (forall i :: 0 <= i < |pwm| ==> !DrivesWheel(nodes[j], i))
            ==> DrivenHinges(nodes, pwm, hs)[j] == hs[j]
    ensures (forall i :: 0 <= i < |pwm| ==> !DrivesElevator(nodes[j], i))
            ==> DrivenSliders(nodes, pwm, ss)[j] == ss[j]
    ensures forall i :: 0 <= i < |pwm| && DrivesWheel(nodes[j], i) ==>
              DrivenHinges(nodes, pwm, hs)[j] == WheelCommand(pwm[i])
    ensures forall i :: 0 <= i < |pwm| && DrivesElevator(nodes[j], i) ==>
              DrivenSliders(nodes, pwm, ss)[j] == ElevatorCommand(pwm[i])
  {
    var n := nodes[j];
    if IsWheel(n) && 0 <= Channel(n) < |pwm| {
      assert DrivesWheel(n, Channel(n));
    }
    if IsElevatorStage(n) && 0 <= Channel(n) < |pwm| {
      assert DrivesElevator(n, Channel(n));
    }
  }

  /** Nodes with no joint, no driver, a driver of another kind, a missing
      tag or a port outside 1..|pwm| keep both constraints. */
  lemma UndrivenNodesUnchanged(nodes: seq<RigidNode>, pwm: seq<real>, hs: seq<HingeMotor>,
                               ss: seq<SliderMotor>, j: int)
    requires |hs| == |nodes| == |ss| && 0 <= j < |nodes|
    requires DriverOf(nodes[j]).None?
             || DriverOf(nodes[j]).value.kind == Other
             || !(1 <= DriverOf(nodes[j]).value.portA <= |pwm|)
    ensures DrivenHinges(nodes, pwm, hs)[j] == hs[j]
    ensures DrivenSliders(nodes, pwm, ss)[j] == ss[j]
  {
  }

  /** A driven wheel's targets over a PWM vector in the conventional range
      [-1, 1]: full speed in the value's direction, and an impulse in (0, 0.1]. */
  lemma DrivenWheelBounds(nodes: seq<RigidNode>, pwm: seq<real>, hs: seq<HingeMotor>, j: int)
    requires |hs| == |nodes| && 0 <= j < |nodes|
    requires forall i :: 0 <= i < |pwm| ==> -1.0 <= pwm[i] <= 1.0
    requires IsWheel(nodes[j]) && 1 <= DriverOf(nodes[j]).value.portA <= |pwm|
    ensures var h := DrivenHinges(nodes, pwm, hs)[j];
            0.0 < h.maxMotorImpulse <= MAX_MOTOR_IMPULSE
            && Abs(h.targetMotorAngularVelocity) <= WHEEL_MAX_SPEED
  {
  }

  // ---------------------------------------------------------------------
  // The update loop over the robot's constraints

  /** The robot at simulation time: its skeleton nodes in traversal order,
      and for each node the motor part of its hinge and slider constraints. */
  class MotorRig {
    const nodes: seq<RigidNode>
    const hinges: array<HingeMotor>
    const sliders: array<SliderMotor>

    ghost predicate Valid()
      reads this
    {
      hinges.Length == |nodes| && sliders.Length == |nodes|
    }

    constructor (nodes: seq<RigidNode>, hs: seq<HingeMotor>, ss: seq<SliderMotor>)
      requires |hs| == |nodes| == |ss|
      ensures Valid() && this.nodes == nodes
      ensures hinges[..] == hs && sliders[..] == ss
      ensures fresh(hinges) && fresh(sliders)
    {
      this.nodes := nodes;
      hinges := new HingeMotor[|hs|](i requires 0 <= i < |hs| => hs[i]);
      sliders := new SliderMotor[|ss|](i requires 0 <= i < |ss| => ss[i]);
    }

    /** One tick: mix the keyboard into `pwm`, then drive every matched
        wheel and elevator from it. When a key is held and `pwm` has fewer
        than three slots, the tick stops after the partial mix and
        `completed` is false. */
    method UpdateAllMotors(pwm: array<real>, k: Keys) returns (completed: bool)
      requires Valid()
      modifies pwm, hinges, sliders
      ensures Valid()
      ensures pwm[..] == KeyMixed(old(pwm[..]), k)
      ensures completed <==> !(AnyKey(k) && pwm.Length < 3)
      ensures completed ==> hinges[..] == DrivenHinges(nodes, pwm[..], old(hinges[..]))
      ensures completed ==> sliders[..] == DrivenSliders(nodes, pwm[..], old(sliders[..]))
      ensures !completed ==> hinges[..] == old(hinges[..]) && sliders[..] == old(sliders[..])
    {
      completed := MixKeys(pwm, k);
      if completed {
        Dispatch(pwm);
      }
    }

    /** For every PWM index and every node, drive the node's hinge or slider
        when its driver listens on that index and carries the matching tag. */
    method Dispatch(pwm: array<real>)
      requires Valid()
      modifies hinges, sliders
      ensures hinges[..] == DrivenHinges(nodes, pwm[..], old(hinges[..]))
      ensures sliders[..] == DrivenSliders(nodes, pwm[..], old(sliders[..]))
    {
      ghost var h0 := hinges[..];
      ghost var s0 := sliders[..];
      var i := 0;
      while i < pwm.Length
        invariant 0 <= i <= pwm.Length
        invariant forall j :: 0 <= j < |nodes| ==> hinges[j] == HingeAfter(nodes[j], pwm[..], i, h0[j])
        invariant forall j :: 0 <= j < |nodes| ==> sliders[j] == SliderAfter(nodes[j], pwm[..], i, s0[j])
      {
        var n := 0;
        while n < |nodes|
          invariant 0 <= n <= |nodes|
          invariant forall j :: 0 <= j < n ==> hinges[j] == HingeAfter(nodes[j], pwm[..], i + 1, h0[j])
          invariant forall j :: n <= j < |nodes| ==> hinges[j] == HingeAfter(nodes[j], pwm[..], i, h0[j])
          invariant forall j :: 0 <= j < n ==> sliders[j] == SliderAfter(nodes[j], pwm[..], i + 1, s0[j])
          invariant forall j :: n <= j < |nodes| ==> sliders[j] == SliderAfter(nodes[j], pwm[..], i, s0[j])
        {
          var node := nodes[n];
          if node.joint.Some? && node.joint.value.cDriver.Some? {
            var driver := node.joint.value.cDriver.value;
            if driver.kind == Motor {
              if driver.portA == i + 1 && WheelMeta in driver.metas {
                hinges[n] := HingeMotor(WheelTargetVelocity(pwm[i]), WheelMaxImpulse(pwm[i]));
              }
            } else if driver.kind == Elevator {
              if driver.portA == i + 1 && ElevatorMeta in driver.metas {
                sliders[n] := SliderMotor(true, MAX_SLIDER_FORCE, pwm[i] * MAX_SLIDER_SPEED);
              }
            }
          }
          n := n + 1;
        }
        i := i + 1;
      }
    }
  }

  // ---------------------------------------------------------------------
  // Solenoid

  /** The signed acceleration a solenoid commands from its configured
      maximum force and the body's mass. */
  function SolenoidAcceleration(maxForceX: real, mass: real, forward: bool): (a: real)
    requires mass != 0.0
    ensures a * mass == if forward then maxForceX else -maxForceX
    ensures maxForceX > 0.0 && mass > 0.0 ==> (a > 0.0 <==> forward)
  {
    maxForceX / mass * (if forward then 1.0 else -1.0)
  }

  /** The target velocity a solenoid writes, or None when it writes nothing
      (no positive maximum force configured). The X component adds the
      commanded increment and cancels the body's current velocity along
      the axis `vAlong`; the other components are zero. */
  function SolenoidTarget(maxForceX: real, mass: real, forward: bool, dt: real, vAlong: real): (r: Option<Vec3>)
    requires maxForceX > 0.0 ==> mass != 0.0
    ensures r.Some? <==> maxForceX > 0.0
    ensures r.Some? ==> r.value.y == 0.0 && r.value.z == 0.0
    ensures r.Some? ==> r.value.x + vAlong == SolenoidAcceleration(maxForceX, mass, forward) * dt
  {
    if maxForceX > 0.0 then
      Some(Vec3(SolenoidAcceleration(maxForceX, mass, forward) * dt - vAlong, 0.0, 0.0))
    else
      None
  }

  /** Flipping the direction negates only the commanded increment; the
      feedback term is the same either way. */
  lemma SolenoidDirectionFlip(maxForceX: real, mass: real, forward: bool, dt: real, vAlong: real)
    requires maxForceX > 0.0 && mass != 0.0
    ensures SolenoidTarget(maxForceX, mass, !forward, dt, vAlong).value.x
            == -(SolenoidAcceleration(maxForceX, mass, forward) * dt) - vAlong
  {
  }

  /** The 6-DOF constraint of a solenoid's joint, with the state of the
      body it moves. */
  class SixDofConstraint {
    var motorLinearTargetVelocity: Vec3
    var motorLinearMaxMotorForce: Vec3
    var mass: real
    var velocity: Vec3

    constructor (maxForce: Vec3, mass: real, velocity: Vec3)
      ensures motorLinearTargetVelocity == Zero && motorLinearMaxMotorForce == maxForce
      ensures this.mass == mass && this.velocity == velocity
    {
      motorLinearTargetVelocity := Zero;
      motorLinearMaxMotorForce := maxForce;
      this.mass := mass;
      this.velocity := velocity;
    }
  }

  /** Fires a solenoid forward or backward for one tick. `c` is the node's
      6-DOF constraint (null when its joint is not one), `dt` the tick
      length and `axisX` the constraint's local X axis in world space. */
  method SetSolenoid(c: SixDofConstraint?, forward: bool, dt: real, axisX: Vec3)
    requires c != null && c.motorLinearMaxMotorForce.x > 0.0 ==> c.mass != 0.0
    modifies c
    ensures c != null ==> c.motorLinearMaxMotorForce == old(c.motorLinearMaxMotorForce)
                          && c.mass == old(c.mass) && c.velocity == old(c.velocity)
    ensures c != null ==>
      var t := SolenoidTarget(c.motorLinearMaxMotorForce.x, c.mass, forward, dt, Dot(c.velocity, axisX));
      c.motorLinearTargetVelocity == if t.Some? then t.value else old(c.motorLinearTargetVelocity)
  {
    if c == null {
      return;
    }
    var acceleration: real;
    if c.motorLinearMaxMotorForce.x > 0.0 {
      acceleration := c.motorLinearMaxMotorForce.x / c.mass * (if forward then 1.0 else -1.0);
    } else {
      // the pressure-based fallback computes an acceleration and discards it
      return;
    }
    var v := acceleration * dt - Dot(c.velocity, axisX);
    c.motorLinearTargetVelocity := Vec3(v, 0.0, 0.0);
  }

  // ---------------------------------------------------------------------
  // Read-only queries

  /** A bound joint as the angle query sees it. */
  datatype BoundJoint = HingeJoint(hingeAngle: real) | SliderJoint | SixDofJoint | FixedJoint

  /** The angle between a child and its parent, given the child's joint and
      the world-space up axes of both bodies. A hinge reports its live angle;
      the up-axis computation used for other joints is not covered (None). */
  function AngleBetweenChildAndParent(b: BoundJoint, childUp: Vec3, parentUp: Vec3): Option<real> {
    match b
    case HingeJoint(angle) => Some(angle)
    case _ => None
  }

  /** A hinge's reading is its live angle whatever the bodies' orientations. */
  lemma HingeAngleIgnoresOrientation(angle: real, childUp: Vec3, parentUp: Vec3,
                                     childUp': Vec3, parentUp': Vec3)
    ensures AngleBetweenChildAndParent(HingeJoint(angle), childUp, parentUp) == Some(angle)
    ensures AngleBetweenChildAndParent(HingeJoint(angle), childUp, parentUp)
            == AngleBetweenChildAndParent(HingeJoint(angle), childUp', parentUp')
  {
  }

  /** How far the child has travelled from its parent along the joint's
      axis `dir` (the normalised world-space axis), with the sign flipped. */
  function LinearPositionRelativeToParent(dir: Vec3, childOrigin: Vec3, parentOrigin: Vec3): (d: real)
    ensures d == Dot(dir, Sub(parentOrigin, childOrigin))
    ensures childOrigin == parentOrigin ==> d == 0.0
    ensures dir == Zero ==> d == 0.0
  {
    -Dot(dir, Sub(childOrigin, parentOrigin))
  }

  /** A child displaced by `s` along a unit axis reads as position -s. */
  lemma LinearPositionAlongAxis(dir: Vec3, parentOrigin: Vec3, s: real)
    requires Dot(dir, dir) == 1.0
    ensures LinearPositionRelativeToParent(dir, Add(parentOrigin, Scale(s, dir)), parentOrigin) == -s
  {
  }

  /** Moving child and parent by the same offset leaves the position unchanged. */
  lemma LinearPositionTranslationInvariant(dir: Vec3, childOrigin: Vec3, parentOrigin: Vec3, t: Vec3)
    ensures LinearPositionRelativeToParent(dir, Add(childOrigin, t), Add(parentOrigin, t))
            == LinearPositionRelativeToParent(dir, childOrigin, parentOrigin)
  {
  }
}
