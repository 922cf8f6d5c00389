/** The drive-command logic of ChassisSubsystem: which PID loops run, what
    they track, and what reaches the four wheel motors on each tick.

    The state is kept twice: as the value ChassisState, on which the
    operations are specified as functions and their properties proved, and as
    the class ChassisSubsystem, whose methods update fields and arrays the way
    the source does and are proved to follow those functions. */
module Chassis {
  import opened PidControl
  import opened Angles
  import opened HeadingHold

  datatype DriveMode = FieldRelative | RobotRelative
  datatype PidEnable = Enabled | Disabled

  /** A travel vector: magnitude r and direction theta in degrees. */
  datatype Polar = Polar(r: real, theta: real)

  /** Wheels, in array order: front left, rear left, front right, rear right. */
  const MotorCount: nat := 4

  type Quad = s: seq<real> | |s| == 4 witness [0.0, 0.0, 0.0, 0.0]

  /** RunnymedeMecanumDrive.drivePolar: travel vector and rotation to the four
      wheel speeds. Its kinematics are not part of this model. */
  type Kinematics = (Polar, real) -> Quad

  /** What one tick reads from the outside world: the wall clock in
      milliseconds, the gyro heading, and the outputs the PID controllers have
      written to their output objects. */
  datatype Sensors = Sensors(
    now: int,
    gyroAngle: real,
    anglePidOutput: real,
    holdPidOutput: real,
    rotationPidOutput: real,
    wheelPidOutputs: Quad)

  /** Every field the drive logic reads or writes. talons are the values last
      set on the motor controllers, encoders the distances the encoders report. */
  datatype ChassisState = ChassisState(
    subsystemEnabled: bool,
    anglePid: Pid,
    holdPid: Pid,
    rotationPid: Pid,
    distancePid: Pid,
    wheelPids: seq<Pid>,
    talons: seq<real>,
    encoders: seq<real>,
    angleRelativeSetpoint: real,
    angleSetpointPrev: real,
    holdAngle: real,
    holdTimerStart: int)

  predicate WellFormed(s: ChassisState) {
    |s.wheelPids| == MotorCount && |s.talons| == MotorCount && |s.encoders| == MotorCount
  }

  function HoldOf(s: ChassisState): Hold {
    Hold(s.holdAngle, s.holdTimerStart, s.holdPid)
  }

  /** The invariant every operation keeps. */
  predicate Consistent(s: ChassisState) {
    WellFormed(s) && ConsistentHold(HoldOf(s))
  }

  function Zeros(n: nat): seq<real> {
    seq(n, _ => 0.0)
  }

  function DisableAll(ps: seq<Pid>): seq<Pid> {
    seq(|ps|, i requires 0 <= i < |ps| => ps[i].(enabled := false))
  }

  function EnableAll(ps: seq<Pid>): seq<Pid> {
    seq(|ps|, i requires 0 <= i < |ps| => ps[i].(enabled := true))
  }

  function ZeroSetpoints(ps: seq<Pid>): seq<Pid> {
    seq(|ps|, i requires 0 <= i < |ps| => ps[i].(setpoint := 0.0))
  }

  /** Wheel controllers that run and track the given speeds. */
  function Tracking(speeds: Quad): seq<Pid> {
    seq(MotorCount, i requires 0 <= i < MotorCount => Pid(true, speeds[i]))
  }

  /** The state the field initialisers give. */
  function Initial(): (r: ChassisState)
    ensures Consistent(r)
    ensures !r.subsystemEnabled && !r.anglePid.enabled && !r.holdPid.enabled
    ensures !r.rotationPid.enabled && !r.distancePid.enabled
    ensures forall i :: 0 <= i < MotorCount ==> !r.wheelPids[i].enabled && r.talons[i] == 0.0 && r.encoders[i] == 0.0
  {
    ChassisState(false, Idle, Idle, Idle, Idle, [Idle, Idle, Idle, Idle], Zeros(MotorCount), Zeros(MotorCount),
                 0.0, 0.0, Unset, NotIdle)
  }

  // ---------------------------------------------------------------------
  // Enable / disable lifecycle

  /** disablePIDs: angle, rotation, distance, the four wheel and the hold controllers. */
  function PidsDisabled(s: ChassisState): (r: ChassisState)
    ensures !r.anglePid.enabled && !r.rotationPid.enabled && !r.distancePid.enabled && !r.holdPid.enabled
    ensures |r.wheelPids| == |s.wheelPids| && forall i :: 0 <= i < |r.wheelPids| ==> r.wheelPids[i] == s.wheelPids[i].(enabled := false)
    ensures r.talons == s.talons && r.encoders == s.encoders && r.subsystemEnabled == s.subsystemEnabled
    ensures r.anglePid.setpoint == s.anglePid.setpoint && r.rotationPid.setpoint == s.rotationPid.setpoint
    ensures r.distancePid.setpoint == s.distancePid.setpoint && r.holdPid.setpoint == s.holdPid.setpoint
    ensures r.(anglePid := s.anglePid, rotationPid := s.rotationPid, distancePid := s.distancePid,
               holdPid := s.holdPid, wheelPids := s.wheelPids) == s
  {
    s.(anglePid := s.anglePid.(enabled := false),
       rotationPid := s.rotationPid.(enabled := false),
       distancePid := s.distancePid.(enabled := false),
       wheelPids := DisableAll(s.wheelPids),
       holdPid := s.holdPid.(enabled := false))
  }

  /** stopMotors */
  function MotorsStopped(s: ChassisState): (r: ChassisState)
    ensures |r.talons| == |s.talons| && forall i :: 0 <= i < |r.talons| ==> r.talons[i] == 0.0
    ensures r.(talons := s.talons) == s
  {
    s.(talons := Zeros(|s.talons|))
  }

  /** disableSubsystem */
  function SubsystemDisabled(s: ChassisState): (r: ChassisState)
    ensures !r.subsystemEnabled && !r.anglePid.enabled && !r.rotationPid.enabled
    ensures !r.distancePid.enabled && !r.holdPid.enabled
    ensures forall i :: 0 <= i < |r.talons| ==> r.talons[i] == 0.0
    ensures HoldOf(r).angle == s.holdAngle && HoldOf(r).timerStart == s.holdTimerStart
  {
    MotorsStopped(PidsDisabled(s.(subsystemEnabled := false)))
  }

  /** resetEncoders: every encoder back to 0, every wheel setpoint to 0. */
  function EncodersReset(s: ChassisState): (r: ChassisState)
    ensures |r.encoders| == |s.encoders| && forall i :: 0 <= i < |r.encoders| ==> r.encoders[i] == 0.0
    ensures |r.wheelPids| == |s.wheelPids|
    ensures forall i :: 0 <= i < |r.wheelPids| ==> r.wheelPids[i] == s.wheelPids[i].(setpoint := 0.0)
    ensures r.(encoders := s.encoders, wheelPids := s.wheelPids) == s
  {
    s.(encoders := Zeros(|s.encoders|), wheelPids := ZeroSetpoints(s.wheelPids))
  }

  /** enableDistancePID: acts only when the distance controller is off. */
  function DistancePidEnabled(s: ChassisState): (r: ChassisState)
    ensures r.distancePid == s.distancePid.(enabled := true)
    ensures !s.distancePid.enabled ==> forall i :: 0 <= i < |r.encoders| ==> r.encoders[i] == 0.0
    ensures r.talons == s.talons && HoldOf(r) == HoldOf(s) && r.anglePid == s.anglePid
  {
    if s.distancePid.enabled then s
    else EncodersReset(s.(distancePid := s.distancePid.(enabled := true)))
  }

  lemma SubsystemDisabledIsSafe(s: ChassisState)
    requires WellFormed(s)
    ensures var d := SubsystemDisabled(s);
      && !d.subsystemEnabled
      && !d.anglePid.enabled && !d.holdPid.enabled && !d.rotationPid.enabled && !d.distancePid.enabled
      && (forall i :: 0 <= i < MotorCount ==> !d.wheelPids[i].enabled && d.talons[i] == 0.0)
      && WellFormed(d)
      && d.encoders == s.encoders
      && d.angleRelativeSetpoint == s.angleRelativeSetpoint && d.angleSetpointPrev == s.angleSetpointPrev
      && d.holdAngle == s.holdAngle && d.holdTimerStart == s.holdTimerStart
  {}

  lemma SubsystemDisabledIdempotent(s: ChassisState)
    ensures SubsystemDisabled(SubsystemDisabled(s)) == SubsystemDisabled(s)
  {}

  lemma SubsystemDisabledKeepsConsistent(s: ChassisState)
    requires Consistent(s)
    ensures Consistent(SubsystemDisabled(s)) && Consistent(PidsDisabled(s))
  {}

  /** enableDistancePID, on a disabled controller: it runs, every encoder reads
      0 (so the averaged distance is 0) and every wheel setpoint is 0; on a
      running controller: nothing changes. */
  lemma DistancePidTransition(s: ChassisState)
    requires Consistent(s)
    ensures var r := DistancePidEnabled(s);
      && Consistent(r)
      && (s.distancePid.enabled ==> r == s)
      && (!s.distancePid.enabled ==>
            && r.distancePid == Pid(true, s.distancePid.setpoint)
            && MeanDistance(r.encoders) == 0.0
            && (forall i :: 0 <= i < MotorCount ==>
                  r.encoders[i] == 0.0 && r.wheelPids[i] == s.wheelPids[i].(setpoint := 0.0))
            && r.talons == s.talons && HoldOf(r) == HoldOf(s))
  {
    if !s.distancePid.enabled {
      SumAbsZeros(MotorCount);
    }
  }

  // ---------------------------------------------------------------------
  // getDistance

  /** Sum of the absolute encoder distances, accumulated front to back. */
  function SumAbs(e: seq<real>): (t: real)
    ensures t >= 0.0
    decreases |e|
  {
    if e == [] then 0.0 else SumAbs(e[..|e| - 1]) + Abs(e[|e| - 1])
  }

  /** getDistance: the mean of the absolute encoder distances. */
  function MeanDistance(e: seq<real>): (d: real)
    requires e != []
    ensures d >= 0.0
  {
    SumAbs(e) / |e| as real
  }

  lemma {:induction false} SumAbsZeros(n: nat)
    ensures SumAbs(Zeros(n)) == 0.0
  {
    if n > 0 {
      assert Zeros(n)[..n - 1] == Zeros(n - 1);
      SumAbsZeros(n - 1);
    }
  }

  lemma {:induction false} SumAbsBounded(e: seq<real>, m: real)
    requires forall i :: 0 <= i < |e| ==> Abs(e[i]) <= m
    ensures SumAbs(e) <= |e| as real * m
    decreases |e|
  {
    if e != [] {
      var p := e[..|e| - 1];
      assert forall i :: 0 <= i < |p| ==> p[i] == e[i];
      SumAbsBounded(p, m);
      assert |e| as real * m == |p| as real * m + m;
    }
  }

  /** The averaged distance never exceeds the largest absolute wheel distance. */
  lemma MeanDistanceBounded(e: seq<real>, m: real)
    requires e != []
    requires forall i :: 0 <= i < |e| ==> Abs(e[i]) <= m
    ensures MeanDistance(e) <= m
  {
    SumAbsBounded(e, m);
    var n := |e| as real;
    var t := SumAbs(e);
    assert t <= n * m;
    assert t / n <= m by {
      assert t / n * n == t;
    }
  }

  // ---------------------------------------------------------------------
  // getDrivePolarCoordinate

  /** The travel vector handed to the kinematics: in field-relative mode the
      direction is turned back by the gyro heading, so that adding the heading
      again gives the commanded field direction; otherwise an unchanged copy. */
  function DrivePolarCoordinate(p: Polar, mode: DriveMode, gyro: real): (q: Polar)
    ensures q.r == p.r
    ensures mode == RobotRelative ==> q == p
    ensures mode == FieldRelative ==> q.theta + gyro == p.theta
  {
    if mode == FieldRelative then p.(theta := p.theta - gyro) else p
  }

  // ---------------------------------------------------------------------
  // drivePolar

  /** The hold logic's view of one drivePolar call. */
  function HoldStep(s: ChassisState, rotation: real, env: Sensors): Step {
    HoldTick(HoldOf(s), Tick(rotation, env.now, env.gyroAngle, env.holdPidOutput))
  }

  /** The rotation controller is used when the caller asks for it and the
      hold is not active (holding forces rotationPIDEnable to DISABLED). */
  predicate UsesRotationPid(step: Step, rotationPidEnable: PidEnable)
    ensures step.holding ==> !UsesRotationPid(step, rotationPidEnable)
    ensures rotationPidEnable == Disabled ==> !UsesRotationPid(step, rotationPidEnable)
    ensures !step.holding && rotationPidEnable == Enabled ==> UsesRotationPid(step, rotationPidEnable)
  {
    rotationPidEnable == Enabled && !step.holding
  }

  /** The rotation handed to the kinematics. */
  function MecanumRotation(step: Step, rotationPidEnable: PidEnable, env: Sensors): (r: real)
    ensures r == step.rotation || r == env.rotationPidOutput
    ensures step.holding || rotationPidEnable == Disabled ==> r == step.rotation
    ensures !step.holding && rotationPidEnable == Enabled ==> r == env.rotationPidOutput
  {
    if UsesRotationPid(step, rotationPidEnable) then env.rotationPidOutput else step.rotation
  }

  function DrivePolarSpec(s: ChassisState, p: Polar, rotation: real, rotationPidEnable: PidEnable,
                          motorPidEnable: PidEnable, env: Sensors, mecanum: Kinematics): (r: ChassisState)
    ensures HoldOf(r) == HoldStep(s, rotation, env).next
    ensures rotationPidEnable == Disabled ==> !r.rotationPid.enabled
    ensures r.rotationPid.enabled <==> UsesRotationPid(HoldStep(s, rotation, env), rotationPidEnable)
    ensures motorPidEnable == Enabled ==> r.talons == env.wheelPidOutputs
    ensures forall i :: 0 <= i < |r.wheelPids| ==> (r.wheelPids[i].enabled <==> motorPidEnable == Enabled)
    ensures r.subsystemEnabled == s.subsystemEnabled && r.anglePid == s.anglePid
    ensures r.distancePid == s.distancePid && r.encoders == s.encoders
    ensures r.angleRelativeSetpoint == s.angleRelativeSetpoint && r.angleSetpointPrev == s.angleSetpointPrev
  {
    var step := HoldStep(s, rotation, env);
    var speeds := mecanum(p, MecanumRotation(step, rotationPidEnable, env));
    s.(holdAngle := step.next.angle,
       holdTimerStart := step.next.timerStart,
       holdPid := step.next.pid,
       rotationPid := if UsesRotationPid(step, rotationPidEnable) then Pid(true, step.rotation)
                      else s.rotationPid.(enabled := false),
       wheelPids := if motorPidEnable == Enabled then Tracking(speeds) else DisableAll(s.wheelPids),
       talons := if motorPidEnable == Enabled then env.wheelPidOutputs else speeds)
  }

  /** Output routing of drivePolar: the rotation goes through the rotation
      controller (tracking angleRotation) or straight on; each motor gets its
      wheel controller's output (the controller tracking the kinematic speed)
      or the kinematic speed itself. Nothing outside the hold state, the
      rotation and wheel controllers and the motors changes. */
  lemma DrivePolarRouting(s: ChassisState, p: Polar, rotation: real, rotationPidEnable: PidEnable,
                          motorPidEnable: PidEnable, env: Sensors, mecanum: Kinematics)
    requires Consistent(s)
    ensures var r := DrivePolarSpec(s, p, rotation, rotationPidEnable, motorPidEnable, env, mecanum);
      var step := HoldStep(s, rotation, env);
      var speeds := mecanum(p, MecanumRotation(step, rotationPidEnable, env));
      && Consistent(r)
      && HoldOf(r) == step.next
      && (UsesRotationPid(step, rotationPidEnable) ==>
            r.rotationPid == Pid(true, step.rotation) && MecanumRotation(step, rotationPidEnable, env) == env.rotationPidOutput)
      && (!UsesRotationPid(step, rotationPidEnable) ==>
            r.rotationPid == s.rotationPid.(enabled := false) && MecanumRotation(step, rotationPidEnable, env) == step.rotation)
      && (motorPidEnable == Enabled ==>
            r.talons == env.wheelPidOutputs && forall i :: 0 <= i < MotorCount ==> r.wheelPids[i] == Pid(true, speeds[i]))
      && (motorPidEnable == Disabled ==>
            r.talons == speeds && forall i :: 0 <= i < MotorCount ==> r.wheelPids[i] == s.wheelPids[i].(enabled := false))
      && r.subsystemEnabled == s.subsystemEnabled
      && r.anglePid == s.anglePid && r.distancePid == s.distancePid && r.encoders == s.encoders
      && r.angleRelativeSetpoint == s.angleRelativeSetpoint && r.angleSetpointPrev == s.angleSetpointPrev
  {
    TickKeepsConsistent(HoldOf(s), Tick(rotation, env.now, env.gyroAngle, env.holdPidOutput));
  }

  /** While holding, the rotation controller ends the tick disabled whatever
      the caller asked for, and the kinematics get the hold controller's output. */
  lemma HoldingOverridesRotation(s: ChassisState, p: Polar, rotation: real, rotationPidEnable: PidEnable,
                                 motorPidEnable: PidEnable, env: Sensors, mecanum: Kinematics)
    requires HoldStep(s, rotation, env).holding
    ensures var r := DrivePolarSpec(s, p, rotation, rotationPidEnable, motorPidEnable, env, mecanum);
      && !r.rotationPid.enabled
      && MecanumRotation(HoldStep(s, rotation, env), rotationPidEnable, env) == env.holdPidOutput
      && (motorPidEnable == Disabled ==> r.talons == mecanum(p, env.holdPidOutput))
  {}

  /** disableSubsystem leaves driveHoldAngle and the timer as they were. If
      the hold angle had been captured, a later idle tick past the delay is a
      holding tick (the hold controller's output replaces the rotation) but
      the capture guard keeps the hold controller disabled. */
  lemma StaleHoldAfterDisable(s: ChassisState, rotation: real, env: Sensors)
    requires s.holdAngle >= 0.0 && s.holdTimerStart >= 0
    requires Abs(rotation) < RotationDeadband && env.now - s.holdTimerStart > HoldDelayMillis
    ensures var step := HoldStep(SubsystemDisabled(s), rotation, env);
      step.holding && step.rotation == env.holdPidOutput && !step.next.pid.enabled
  {}

  // ---------------------------------------------------------------------
  // driveJoystick and driveToAngle

  function DriveJoystickSpec(s: ChassisState, p: Polar, rotation: real, mode: DriveMode,
                             rotationPidEnable: PidEnable, motorPidEnable: PidEnable,
                             env: Sensors, mecanum: Kinematics): (r: ChassisState)
    ensures !r.anglePid.enabled && !r.distancePid.enabled
    ensures r.angleRelativeSetpoint == s.angleRelativeSetpoint && r.angleSetpointPrev == s.angleSetpointPrev
    ensures HoldOf(r) == HoldStep(s, rotation, env).next && r.encoders == s.encoders
  {
    var s1 := s.(anglePid := s.anglePid.(enabled := false), distancePid := s.distancePid.(enabled := false));
    DrivePolarSpec(s1, DrivePolarCoordinate(p, mode, env.gyroAngle), rotation, rotationPidEnable, motorPidEnable, env, mecanum)
  }

  /** driveJoystick turns the angle and distance controllers off, keeps the
      angle targets, and drives through drivePolar with the caller's rotation. */
  lemma DriveJoystickExclusion(s: ChassisState, p: Polar, rotation: real, mode: DriveMode,
                               rotationPidEnable: PidEnable, motorPidEnable: PidEnable,
                               env: Sensors, mecanum: Kinematics)
    requires Consistent(s)
    ensures var r := DriveJoystickSpec(s, p, rotation, mode, rotationPidEnable, motorPidEnable, env, mecanum);
      && Consistent(r)
      && !r.anglePid.enabled && !r.distancePid.enabled
      && r.angleRelativeSetpoint == s.angleRelativeSetpoint && r.angleSetpointPrev == s.angleSetpointPrev
      && HoldOf(r) == HoldStep(s, rotation, env).next
  {
    var s1 := s.(anglePid := s.anglePid.(enabled := false), distancePid := s.distancePid.(enabled := false));
    DrivePolarRouting(s1, DrivePolarCoordinate(p, mode, env.gyroAngle), rotation, rotationPidEnable, motorPidEnable, env, mecanum);
  }

  /** angleRelativeSetpoint and angleSetpointPrev. */
  datatype Target = Target(relative: real, prev: real)

  /** Target resolution at the top of driveToAngle. */
  function ResolveTarget(anglePidEnabled: bool, current: Target, angleSetpoint: real,
                         mode: DriveMode, gyro: real): (t: Target)
    ensures angleSetpoint < 0.0 ==> t == current
    ensures angleSetpoint >= 0.0 ==> t.prev == angleSetpoint
    ensures t.relative == current.relative || t.relative == angleSetpoint || t.relative <= 360.0
    ensures mode == RobotRelative && anglePidEnabled && angleSetpoint == current.prev ==> t.relative == current.relative
  {
    if angleSetpoint >= 0.0 then
      if mode == RobotRelative then
        if !anglePidEnabled || angleSetpoint != current.prev then Target(WrappedDown(gyro + angleSetpoint), angleSetpoint)
        else Target(current.relative, angleSetpoint)
      else Target(angleSetpoint, angleSetpoint)
    else current
  }

  /** A negative target keeps both values; a field-relative target is used
      as it is; a robot-relative one is recomputed from the heading, and
      wrapped into (0, 360] a whole number of turns away, exactly when the
      angle controller is off or the commanded value differs from the last. */
  lemma ResolveTargetCases(anglePidEnabled: bool, current: Target, angleSetpoint: real,
                           mode: DriveMode, gyro: real)
    ensures var t := ResolveTarget(anglePidEnabled, current, angleSetpoint, mode, gyro);
      && (angleSetpoint < 0.0 ==> t == current)
      && (angleSetpoint >= 0.0 && mode == FieldRelative ==> t == Target(angleSetpoint, angleSetpoint))
      && (angleSetpoint >= 0.0 && mode == RobotRelative ==>
            && t.prev == angleSetpoint
            && ((!anglePidEnabled || angleSetpoint != current.prev) ==>
                  && t.relative <= 360.0
                  && (gyro + angleSetpoint > 0.0 ==> t.relative > 0.0)
                  && (gyro + angleSetpoint <= 0.0 ==> t.relative == gyro + angleSetpoint)
                  && IsWhole((gyro + angleSetpoint - t.relative) / 360.0))
            && ((anglePidEnabled && angleSetpoint == current.prev) ==> t.relative == current.relative))
  {}

  function DriveToAngleSpec(s: ChassisState, p: Polar, angleSetpoint: real, mode: DriveMode,
                            rotationPidEnable: PidEnable, motorPidEnable: PidEnable,
                            env: Sensors, mecanum: Kinematics): (r: ChassisState)
    ensures !r.distancePid.enabled && r.anglePid == Pid(true, r.angleRelativeSetpoint)
    ensures HoldOf(r) == HoldStep(s, env.anglePidOutput, env).next && r.encoders == s.encoders
    ensures angleSetpoint < 0.0 ==> r.angleRelativeSetpoint == s.angleRelativeSetpoint && r.angleSetpointPrev == s.angleSetpointPrev
    ensures angleSetpoint >= 0.0 ==> r.angleSetpointPrev == angleSetpoint
    ensures angleSetpoint >= 0.0 && mode == FieldRelative ==> r.angleRelativeSetpoint == angleSetpoint
  {
    var s1 := s.(distancePid := s.distancePid.(enabled := false));
    var t := ResolveTarget(s1.anglePid.enabled, Target(s1.angleRelativeSetpoint, s1.angleSetpointPrev),
                           angleSetpoint, mode, env.gyroAngle);
    var s2 := s1.(angleRelativeSetpoint := t.relative, angleSetpointPrev := t.prev, anglePid := Pid(true, t.relative));
    DrivePolarSpec(s2, DrivePolarCoordinate(p, mode, env.gyroAngle), env.anglePidOutput, rotationPidEnable, motorPidEnable, env, mecanum)
  }

  /** driveToAngle turns the distance controller off and leaves the angle
      controller running on the resolved target; the rotation it drives with
      is the angle controller's output, passed through the hold logic. */
  lemma DriveToAngleExclusion(s: ChassisState, p: Polar, angleSetpoint: real, mode: DriveMode,
                              rotationPidEnable: PidEnable, motorPidEnable: PidEnable,
                              env: Sensors, mecanum: Kinematics)
    requires Consistent(s)
    ensures var r := DriveToAngleSpec(s, p, angleSetpoint, mode, rotationPidEnable, motorPidEnable, env, mecanum);
      && Consistent(r)
      && !r.distancePid.enabled
      && r.anglePid == Pid(true, r.angleRelativeSetpoint)
      && Target(r.angleRelativeSetpoint, r.angleSetpointPrev)
         == ResolveTarget(s.anglePid.enabled, Target(s.angleRelativeSetpoint, s.angleSetpointPrev), angleSetpoint, mode, env.gyroAngle)
      && HoldOf(r) == HoldStep(s, env.anglePidOutput, env).next
  {
    var s1 := s.(distancePid := s.distancePid.(enabled := false));
    var t := ResolveTarget(s1.anglePid.enabled, Target(s1.angleRelativeSetpoint, s1.angleSetpointPrev),
                           angleSetpoint, mode, env.gyroAngle);
    var s2 := s1.(angleRelativeSetpoint := t.relative, angleSetpointPrev := t.prev, anglePid := Pid(true, t.relative));
    DrivePolarRouting(s2, DrivePolarCoordinate(p, mode, env.gyroAngle), env.anglePidOutput, rotationPidEnable, motorPidEnable, env, mecanum);
  }

  /** A robot-relative target is resolved once per commanded value: driving
      again to the same value keeps the absolute target, however the robot
      turned in between. */
  lemma RobotRelativeTargetResolvedOnce(s: ChassisState, p: Polar, angleSetpoint: real,
                                        rotationPidEnable: PidEnable, motorPidEnable: PidEnable,
                                        env: Sensors, p': Polar, env': Sensors, mecanum: Kinematics)
    requires Consistent(s) && angleSetpoint >= 0.0
    ensures var r := DriveToAngleSpec(s, p, angleSetpoint, RobotRelative, rotationPidEnable, motorPidEnable, env, mecanum);
      var r' := DriveToAngleSpec(r, p', angleSetpoint, RobotRelative, rotationPidEnable, motorPidEnable, env', mecanum);
      r'.angleRelativeSetpoint == r.angleRelativeSetpoint
  {
    DriveToAngleExclusion(s, p, angleSetpoint, RobotRelative, rotationPidEnable, motorPidEnable, env, mecanum);
    var r := DriveToAngleSpec(s, p, angleSetpoint, RobotRelative, rotationPidEnable, motorPidEnable, env, mecanum);
    DriveToAngleExclusion(r, p', angleSetpoint, RobotRelative, rotationPidEnable, motorPidEnable, env', mecanum);
  }

  /** After a joystick drive, the angle controller is off, so a robot-relative
      target is taken from the current heading even if it equals the last one. */
  lemma JoystickThenRobotRelativeRecomputes(s: ChassisState, p: Polar, rotation: real, mode: DriveMode,
                                            rotationPidEnable: PidEnable, motorPidEnable: PidEnable,
                                            env: Sensors, p': Polar, angleSetpoint: real, env': Sensors,
                                            mecanum: Kinematics)
    requires Consistent(s) && angleSetpoint >= 0.0
    ensures var r := DriveJoystickSpec(s, p, rotation, mode, rotationPidEnable, motorPidEnable, env, mecanum);
      var r' := DriveToAngleSpec(r, p', angleSetpoint, RobotRelative, rotationPidEnable, motorPidEnable, env', mecanum);
      r'.angleRelativeSetpoint == WrappedDown(env'.gyroAngle + angleSetpoint) && r'.angleSetpointPrev == angleSetpoint
  {
    DriveJoystickExclusion(s, p, rotation, mode, rotationPidEnable, motorPidEnable, env, mecanum);
    var r := DriveJoystickSpec(s, p, rotation, mode, rotationPidEnable, motorPidEnable, env, mecanum);
    DriveToAngleExclusion(r, p', angleSetpoint, RobotRelative, rotationPidEnable, motorPidEnable, env', mecanum);
  }

  // ---------------------------------------------------------------------
  // The subsystem object

  class ChassisSubsystem {
    var subsystemEnabled: bool
    var anglePid: Pid
    var driveHoldAnglePid: Pid
    var rotationPid: Pid
    var distancePid: Pid
    const wheelSpeedPids: array<Pid>
    const talons: array<real>
    const encoders: array<real>
    var angleRelativeSetpoint: real
    var angleSetpointPrev: real
    var driveHoldAngle: real
    var driveHoldEnableTimerStart: int

    ghost function State(): ChassisState
      reads this, wheelSpeedPids, talons, encoders
    {
      ChassisState(subsystemEnabled, anglePid, driveHoldAnglePid, rotationPid, distancePid,
                   wheelSpeedPids[..], talons[..], encoders[..],
                   angleRelativeSetpoint, angleSetpointPrev, driveHoldAngle, driveHoldEnableTimerStart)
    }

    ghost predicate Valid()
      reads this, wheelSpeedPids, talons, encoders
    {
      talons != encoders && Consistent(State())
    }

    constructor ()
      ensures Valid() && State() == Initial()
      ensures fresh(wheelSpeedPids) && fresh(talons) && fresh(encoders)
    {
      subsystemEnabled := false;
      anglePid, driveHoldAnglePid, rotationPid, distancePid := Idle, Idle, Idle, Idle;
      wheelSpeedPids := new Pid[MotorCount](_ => Idle);
      talons := new real[MotorCount](_ => 0.0);
      encoders := new real[MotorCount](_ => 0.0);
      angleRelativeSetpoint, angleSetpointPrev := 0.0, 0.0;
      driveHoldAngle, driveHoldEnableTimerStart := Unset, NotIdle;
      new;
      assert wheelSpeedPids[..] == [Idle, Idle, Idle, Idle];
    }

    method EnableSubsystem()
      requires Valid()
      modifies this
      ensures Valid() && State() == old(State()).(subsystemEnabled := true)
    {
      subsystemEnabled := true;
    }

    method DisableSubsystem()
      requires Valid()
      modifies this, wheelSpeedPids, talons
      ensures Valid() && State() == SubsystemDisabled(old(State()))
    {
      subsystemEnabled := false;
      DisablePids();
      StopMotors();
      SubsystemDisabledKeepsConsistent(old(State()));
    }

    method DisableAnglePid()
      requires Valid()
      modifies this
      ensures Valid() && State() == old(State()).(anglePid := old(anglePid).(enabled := false))
    {
      if anglePid.enabled {
        anglePid := anglePid.(enabled := false);
      }
    }

    method DisableHoldAnglePid()
      requires Valid()
      modifies this
      ensures State() == old(State()).(holdPid := old(driveHoldAnglePid).(enabled := false))
      ensures Valid()
    {
      if driveHoldAnglePid.enabled {
        driveHoldAnglePid := driveHoldAnglePid.(enabled := false);
      }
    }

    method DisableDistancePid()
      requires Valid()
      modifies this
      ensures Valid() && State() == old(State()).(distancePid := old(distancePid).(enabled := false))
    {
      if distancePid.enabled {
        distancePid := distancePid.(enabled := false);
      }
    }

    method DisableRotationPid()
      requires Valid()
      modifies this
      ensures Valid() && State() == old(State()).(rotationPid := old(rotationPid).(enabled := false))
    {
      if rotationPid.enabled {
        rotationPid := rotationPid.(enabled := false);
      }
    }

    method DisableWheelSpeedPids()
      requires Valid()
      modifies wheelSpeedPids
      ensures Valid() && State() == old(State()).(wheelPids := DisableAll(old(State()).wheelPids))
    {
      for i := 0 to MotorCount
        invariant forall j :: 0 <= j < i ==> wheelSpeedPids[j] == old(wheelSpeedPids[j]).(enabled := false)
        invariant forall j :: i <= j < MotorCount ==> wheelSpeedPids[j] == old(wheelSpeedPids[j])
      {
        if wheelSpeedPids[i].enabled {
          wheelSpeedPids[i] := wheelSpeedPids[i].(enabled := false);
        }
      }
    }

    method DisablePids()
      requires Valid()
      modifies this, wheelSpeedPids
      ensures Valid() && State() == PidsDisabled(old(State()))
    {
      DisableAnglePid();
      DisableRotationPid();
      DisableDistancePid();
      DisableWheelSpeedPids();
      DisableHoldAnglePid();
    }

    method EnableAnglePid()
      requires Valid()
      modifies this
      ensures Valid() && State() == old(State()).(anglePid := old(anglePid).(enabled := true))
    {
      if !anglePid.enabled {
        anglePid := anglePid.(enabled := true);
      }
    }

    method EnableRotationPid()
      requires Valid()
      modifies this
      ensures Valid() && State() == old(State()).(rotationPid := old(rotationPid).(enabled := true))
    {
      if !rotationPid.enabled {
        rotationPid := rotationPid.(enabled := true);
      }
    }

    method EnableDistancePid()
      requires Valid()
      modifies this, wheelSpeedPids, encoders
      ensures Valid() && State() == DistancePidEnabled(old(State()))
    {
      if !distancePid.enabled {
        distancePid := distancePid.(enabled := true);
        ResetEncoders();
      }
    }

    method EnableWheelSpeedPids()
      requires Valid()
      modifies wheelSpeedPids
      ensures Valid() && State() == old(State()).(wheelPids := EnableAll(old(State()).wheelPids))
    {
      for i := 0 to MotorCount
        invariant forall j :: 0 <= j < i ==> wheelSpeedPids[j] == old(wheelSpeedPids[j]).(enabled := true)
        invariant forall j :: i <= j < MotorCount ==> wheelSpeedPids[j] == old(wheelSpeedPids[j])
      {
        if !wheelSpeedPids[i].enabled {
          wheelSpeedPids[i] := wheelSpeedPids[i].(enabled := true);
        }
      }
    }

    method ResetEncoders()
      requires Valid()
      modifies wheelSpeedPids, encoders
      ensures Valid() && State() == EncodersReset(old(State()))
    {
      for i := 0 to MotorCount
        invariant forall j :: 0 <= j < i ==> encoders[j] == 0.0
        invariant wheelSpeedPids[..] == old(wheelSpeedPids[..])
      {
        encoders[i] := 0.0;
      }
      for i := 0 to MotorCount
        invariant forall j :: 0 <= j < i ==> wheelSpeedPids[j] == old(wheelSpeedPids[j]).(setpoint := 0.0)
        invariant forall j :: i <= j < MotorCount ==> wheelSpeedPids[j] == old(wheelSpeedPids[j])
        invariant encoders[..] == Zeros(MotorCount)
      {
        wheelSpeedPids[i] := wheelSpeedPids[i].(setpoint := 0.0);
      }
    }

    method StopMotors()
      requires Valid()
      modifies talons
      ensures Valid() && State() == MotorsStopped(old(State()))
    {
      for i := 0 to MotorCount
        invariant forall j :: 0 <= j < i ==> talons[j] == 0.0
      {
        talons[i] := 0.0;
      }
    }

    /** getDistance */
    method GetDistance() returns (d: real)
      requires Valid()
      ensures d == MeanDistance(encoders[..])
    {
      var distanceTotal := 0.0;
      for i := 0 to MotorCount
        invariant distanceTotal == SumAbs(encoders[..i])
      {
        assert encoders[..i + 1][..i] == encoders[..i];
        distanceTotal := distanceTotal + Abs(encoders[i]);
      }
      assert encoders[..MotorCount] == encoders[..];
      d := distanceTotal / MotorCount as real;
    }

    /** The idle heading-hold timer at the top of drivePolar. It reports
        whether the tick holds (the source then forces rotationPIDEnable to
        DISABLED) and the rotation to pass on (angleRotation). */
    method UpdateHeadingHold(rotation: real, env: Sensors) returns (holding: bool, angleRotation: real)
      requires Valid()
      modifies this
      ensures Valid()
      ensures var step := HoldStep(old(State()), rotation, env);
        && holding == step.holding && angleRotation == step.rotation
        && State() == old(State()).(holdAngle := step.next.angle, holdTimerStart := step.next.timerStart,
                                    holdPid := step.next.pid,
                                    rotationPid := if holding then old(rotationPid).(enabled := false) else old(rotationPid))
    {
      TickKeepsConsistent(HoldOf(State()), Tick(rotation, env.now, env.gyroAngle, env.holdPidOutput));
      holding := false;
      angleRotation := rotation;
      if Abs(rotation) < RotationDeadband {
        if driveHoldEnableTimerStart < 0 {
          driveHoldEnableTimerStart := env.now;
        }
        if env.now - driveHoldEnableTimerStart > HoldDelayMillis {
          if rotationPid.enabled {
            rotationPid := rotationPid.(enabled := false);
          }
          holding := true;
          if driveHoldAngle < 0.0 {
            driveHoldAngle := env.gyroAngle;
            driveHoldAnglePid := driveHoldAnglePid.(enabled := true);
            driveHoldAnglePid := driveHoldAnglePid.(setpoint := driveHoldAngle);
          }
          angleRotation := env.holdPidOutput;
        } else {
          driveHoldAnglePid := driveHoldAnglePid.(enabled := false);
          driveHoldAngle := Unset;
        }
      } else {
        driveHoldAnglePid := driveHoldAnglePid.(enabled := false);
        driveHoldAngle := Unset;
        driveHoldEnableTimerStart := NotIdle;
      }
    }

    /** The end of drivePolar: wheel controllers and motor outputs. */
    method DriveMotors(motorSpeeds: Quad, motorPidEnable: PidEnable, wheelPidOutputs: Quad)
      requires Valid()
      modifies wheelSpeedPids, talons
      ensures Valid()
      ensures State() == old(State()).(
        wheelPids := if motorPidEnable == Enabled then Tracking(motorSpeeds) else DisableAll(old(State()).wheelPids),
        talons := if motorPidEnable == Enabled then wheelPidOutputs else motorSpeeds)
    {
      if motorPidEnable == Enabled {
        EnableWheelSpeedPids();
        for i := 0 to MotorCount
          invariant forall j :: 0 <= j < i ==> wheelSpeedPids[j] == Pid(true, motorSpeeds[j])
          invariant forall j :: i <= j < MotorCount ==> wheelSpeedPids[j] == old(wheelSpeedPids[j]).(enabled := true)
        {
          wheelSpeedPids[i] := wheelSpeedPids[i].(setpoint := motorSpeeds[i]);
        }
      } else {
        DisableWheelSpeedPids();
      }
      if motorPidEnable == Enabled {
        for i := 0 to MotorCount
          invariant forall j :: 0 <= j < i ==> talons[j] == wheelPidOutputs[j]
          invariant wheelSpeedPids[..] == Tracking(motorSpeeds)
        {
          talons[i] := wheelPidOutputs[i];
        }
      } else {
        for i := 0 to MotorCount
          invariant forall j :: 0 <= j < i ==> talons[j] == motorSpeeds[j]
          invariant wheelSpeedPids[..] == DisableAll(old(wheelSpeedPids[..]))
        {
          talons[i] := motorSpeeds[i];
        }
      }
    }

    /** drivePolar */
    method DrivePolar(p: Polar, rotation: real, rotationPidEnable: PidEnable, motorPidEnable: PidEnable,
                      env: Sensors, mecanum: Kinematics)
      requires Valid()
      modifies this, wheelSpeedPids, talons
      ensures Valid()
      ensures State() == DrivePolarSpec(old(State()), p, rotation, rotationPidEnable, motorPidEnable, env, mecanum)
    {
      var holding, angleRotation := UpdateHeadingHold(rotation, env);
      var mecanumRotation := angleRotation;
      if rotationPidEnable == Enabled && !holding {
        EnableRotationPid();
        rotationPid := rotationPid.(setpoint := angleRotation);
        mecanumRotation := env.rotationPidOutput;
      } else {
        DisableRotationPid();
      }
      var motorSpeeds := mecanum(p, mecanumRotation);
      DriveMotors(motorSpeeds, motorPidEnable, env.wheelPidOutputs);
    }

    /** driveJoystick */
    method DriveJoystick(p: Polar, rotation: real, driveMode: DriveMode,
                         rotationPidEnable: PidEnable, motorPidEnable: PidEnable,
                         env: Sensors, mecanum: Kinematics)
      requires Valid()
      modifies this, wheelSpeedPids, talons
      ensures Valid()
      ensures State() == DriveJoystickSpec(old(State()), p, rotation, driveMode, rotationPidEnable, motorPidEnable, env, mecanum)
    {
      DisableAnglePid();
      DisableDistancePid();
      var drivePolarCoordinate := DrivePolarCoordinate(p, driveMode, env.gyroAngle);
      DrivePolar(drivePolarCoordinate, rotation, rotationPidEnable, motorPidEnable, env, mecanum);
    }

    /** The target resolution at the top of driveToAngle. */
    method UpdateAngleTarget(angleSetpoint: real, driveMode: DriveMode, gyro: real)
      requires Valid()
      modifies this
      ensures Valid()
      ensures var t := ResolveTarget(old(anglePid).enabled, Target(old(angleRelativeSetpoint), old(angleSetpointPrev)),
                                     angleSetpoint, driveMode, gyro);
        State() == old(State()).(angleRelativeSetpoint := t.relative, angleSetpointPrev := t.prev)
    {
      if angleSetpoint >= 0.0 {
        if driveMode == RobotRelative {
          if !anglePid.enabled || angleSetpoint != angleSetpointPrev {
            var relative := gyro + angleSetpoint;
            while relative > 360.0
              invariant WrappedDown(relative) == WrappedDown(gyro + angleSetpoint)
              decreases relative.Floor
            {
              relative := relative - 360.0;
            }
            angleRelativeSetpoint := relative;
          }
        } else {
          angleRelativeSetpoint := angleSetpoint;
        }
        angleSetpointPrev := angleSetpoint;
      }
    }

    /** driveToAngle */
    method DriveToAngle(p: Polar, angleSetpoint: real, driveMode: DriveMode,
                        rotationPidEnable: PidEnable, motorPidEnable: PidEnable,
                        env: Sensors, mecanum: Kinematics)
      requires Valid()
      modifies this, wheelSpeedPids, talons
      ensures Valid()
      ensures State() == DriveToAngleSpec(old(State()), p, angleSetpoint, driveMode, rotationPidEnable, motorPidEnable, env, mecanum)
    {
      DisableDistancePid();
      UpdateAngleTarget(angleSetpoint, driveMode, env.gyroAngle);
      EnableAnglePid();
      anglePid := anglePid.(setpoint := angleRelativeSetpoint);
      var drivePolarCoordinate := DrivePolarCoordinate(p, driveMode, env.gyroAngle);
      DrivePolar(drivePolarCoordinate, env.anglePidOutput, rotationPidEnable, motorPidEnable, env, mecanum);
    }
  }
}
