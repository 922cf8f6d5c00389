# Robot2015 drive and elevator control, modelled in Dafny

This project models the control core of a 2015 FRC robot built on WPILib:

- **ChassisSubsystem.** The mecanum chassis, with its heading-hold timer,
  angle-target resolution, enable/disable lifecycle of its eight PID
  controllers (angle, drive-hold angle, rotation, distance, four wheel speeds),
  output routing to the four Talons, and averaged encoder distance.
- **ToteElevatorSubsystem.** The tote elevator, with its level setpoint
  table, drive direction, on-target decision and brake lifecycle.
- **OI.** The button side of the operator interface: the compass decoder
  behind `getDirectionPointer` and the button aliasing of the relay buttons.

Each WPILib `PIDController` is reduced to what this code observes of it: a
record `Pid(enabled, setpoint)`. Its outputs, the gyro heading and the wall
clock are inputs to each control tick (the `Sensors` and `Tick` records). The
mecanum kinematics is a function parameter.

The chassis is modelled twice:

- `Chassis.ChassisSubsystem` is a class with the source's fields, and arrays
  for the four wheels. Each method is proved to take its state `State()` to
  the value a pure specification function gives.
- The pure functions (`DrivePolarSpec`, `DriveToAngleSpec`, `SubsystemDisabled`,
  ...) carry the lemmas: invariants, routing, exclusivity of controllers, and
  behaviour over runs of ticks.

The elevator is a class whose methods state their whole effect, next to pure
functions for the level table and the on-target decision and lemmas about them.
The operator interface is pure.

Files:

| file | module |
|---|---|
| `pid.dfy` | `PidControl`: the controller record |
| `angles.dfy` | `Angles`: wrapping a heading into (0, 360] |
| `heading_hold.dfy` | `HeadingHold`: the idle heading-hold timer and its traces |
| `chassis.dfy` | `Chassis`: drive state machine, lifecycle, routing, distance |
| `tote_elevator.dfy` | `ToteElevator`: levels, direction, on-target, brake |
| `operator_interface.dfy` | `OperatorInterface`: button map and compass decoder |

Three behaviours of the code that are easy to misread:

- The heading hold engages strictly after 2000 ms of idle rotation (`> 2000`).
  It engages on the first tick after that, not on a tick exactly 2000 ms in.
- The hold angle is captured only while `driveHoldAngle < 0`. A capture at a
  negative gyro heading is therefore taken again on the next tick.
  `HoldAfterDelay` assumes a non-negative reading for that reason.
- `disableSubsystem` keeps `driveHoldAngle` and the hold timer. After a
  re-enable, an idle tick past the delay holds, and the hold controller's
  output replaces the rotation. The controller itself stays disabled
  (`StaleHoldAfterDisable`).

## Model

| member | source | states |
|---|---|---|
| HeadingHold.IdleRotation | src/robot/subsystems/ChassisSubsystem.java:636 | a rotation counts as idle exactly when it lies strictly between -0.02 and 0.02 |
| HeadingHold.ArmedStart | src/robot/subsystems/ChassisSubsystem.java:640-642 | a running timer is never restarted; the start is either the old start or the current time |
| HeadingHold.HoldTick | src/robot/subsystems/ChassisSubsystem.java:635-663 | one tick of the hold logic: a holding tick is idle and passes on the hold controller's output; a non-holding tick passes the caller's rotation, clears the angle and leaves the hold controller off; an idle tick leaves the timer started once; a rotation command clears it; the hold controller runs only on holding ticks |
| Angles.WrappedDown | src/robot/subsystems/ChassisSubsystem.java:308-311 | subtracting 360 until the value is at most 360 gives a result in (0, 360] for positive input, unchanged input at or below 360, and a whole number of turns removed |
| Angles.WrappedDownUnique | src/robot/subsystems/ChassisSubsystem.java:308-311 | the wrapped value is the only value in (0, 360] a whole number of turns below the input |
| HeadingHold.RotationResets | src/robot/subsystems/ChassisSubsystem.java:658-663 | a rotation of at least 0.02 disables the hold controller, clears the hold angle and the timer, and passes the rotation through |
| HeadingHold.IdleArmsTimer | src/robot/subsystems/ChassisSubsystem.java:636-645 | an idle tick starts the timer only if it is not running, and the tick holds exactly when strictly more than 2000 ms have passed since the start |
| HeadingHold.WithinDelayDoesNotHold | src/robot/subsystems/ChassisSubsystem.java:645-659 | an idle tick within the delay disables the hold controller, clears the angle, keeps the timer and passes the rotation through |
| HeadingHold.HoldingCapturesOnce | src/robot/subsystems/ChassisSubsystem.java:645-654 | a holding tick passes on the hold controller's output; a tick with a negative stored angle captures the gyro as angle and setpoint and enables the controller; later holding ticks change nothing once the captured angle is non-negative (a capture at a negative heading is taken again on the next holding tick) |
| HeadingHold.TickKeepsConsistent | src/robot/subsystems/ChassisSubsystem.java:636-663 | every tick keeps the invariant: no timer means no angle and no running hold controller, and a running hold controller tracks the captured angle |
| HeadingHold.NoHoldWithinDelay | src/robot/subsystems/ChassisSubsystem.java:636-659 | from a cleared hold, idle ticks no more than 2000 ms after the first never enable the hold controller, after any prefix, and leave the timer at the first tick's time |
| HeadingHold.IdleThenTurnNeverHolds | src/robot/subsystems/ChassisSubsystem.java:636-663 | idle ticks within the delay followed by a real rotation command leave the hold fully cleared |
| HeadingHold.HoldingStays | src/robot/subsystems/ChassisSubsystem.java:645-654 | once a non-negative angle is captured, further idle ticks past the delay leave the hold state unchanged |
| HeadingHold.HoldAfterDelay | src/robot/subsystems/ChassisSubsystem.java:636-654 | with a monotone clock, idle ticks that go strictly past the delay end with the hold controller enabled on the heading read at the first tick past it, and the timer at the first tick's time |
| Chassis.Initial | src/robot/subsystems/ChassisSubsystem.java:24-134 | the initial state satisfies the invariant, with every controller disabled and every motor and encoder at 0 |
| Chassis.PidsDisabled | src/robot/subsystems/ChassisSubsystem.java:582-590 | the angle, rotation, distance and hold controllers and every wheel controller are off, each keeping its setpoint; everything else (enabled flag, motors, encoders, angle targets, hold angle and timer) is unchanged |
| Chassis.MotorsStopped | src/robot/subsystems/ChassisSubsystem.java:805-809 | every motor output is 0 and nothing else changes |
| Chassis.SubsystemDisabled | src/robot/subsystems/ChassisSubsystem.java:235-244 | the enabled flag and every named controller are off, every motor output is 0, and the hold angle and timer are kept |
| Chassis.EncodersReset | src/robot/subsystems/ChassisSubsystem.java:793-803 | every encoder reads 0, every wheel controller keeps its enabled flag at setpoint 0, nothing else changes |
| Chassis.DistancePidEnabled | src/robot/subsystems/ChassisSubsystem.java:743-753 | the distance controller ends enabled with its setpoint; if it was off the encoders now read 0; motors, hold state and angle controller are unchanged |
| Chassis.SubsystemDisabledIsSafe | src/robot/subsystems/ChassisSubsystem.java:235-244 | disabling clears the enabled flag, disables all eight controllers and zeroes all four motors, and keeps encoders, angle targets and hold angle and timer |
| Chassis.SubsystemDisabledIdempotent | src/robot/subsystems/ChassisSubsystem.java:235-244 | disabling twice is the same as disabling once |
| Chassis.SubsystemDisabledKeepsConsistent | src/robot/subsystems/ChassisSubsystem.java:582-590 | disabling the controllers, or the whole subsystem, keeps the state invariant |
| Chassis.DistancePidTransition | src/robot/subsystems/ChassisSubsystem.java:743-753 | enabling a disabled distance controller runs it, zeroes every encoder and wheel setpoint (the averaged distance becomes 0), and keeps the motors and hold state; on a running controller it changes nothing |
| Chassis.SumAbs | src/robot/subsystems/ChassisSubsystem.java:773-779 | the running total of absolute encoder distances is never negative |
| Chassis.MeanDistance | src/robot/subsystems/ChassisSubsystem.java:773-779 | the averaged distance is never negative |
| Chassis.MeanDistanceBounded | src/robot/subsystems/ChassisSubsystem.java:773-779 | the averaged distance never exceeds the largest absolute wheel distance |
| Chassis.DrivePolarCoordinate | src/robot/subsystems/ChassisSubsystem.java:781-791 | the magnitude is kept; robot-relative is an unchanged copy; field-relative turns the direction back by the gyro heading |
| Chassis.UsesRotationPid | src/robot/subsystems/ChassisSubsystem.java:645-669 | the rotation controller is never used on a holding tick or when the caller disables it, and is used otherwise |
| Chassis.MecanumRotation | src/robot/subsystems/ChassisSubsystem.java:666-672 | the kinematics get the rotation controller's output when it is used, and the hold tick's rotation (the caller's rotation, or the hold output while holding) otherwise |
| Chassis.DrivePolarSpec | src/robot/subsystems/ChassisSubsystem.java:629-705 | one drivePolar call: the hold fields are one hold tick; the rotation controller runs exactly when asked for and not holding; every wheel controller runs exactly when motor controllers are asked for, and then the motors get their outputs; angle and distance controllers, encoders and angle targets are unchanged |
| Chassis.DrivePolarRouting | src/robot/subsystems/ChassisSubsystem.java:629-705 | one drivePolar call keeps the invariant, routes the rotation through the rotation controller (tracking angleRotation) or straight on, and drives each motor from its wheel controller (tracking the kinematic speed) or with the speed itself; controllers, encoders and targets outside that are unchanged |
| Chassis.HoldingOverridesRotation | src/robot/subsystems/ChassisSubsystem.java:645-675 | on a holding tick the rotation controller ends disabled whatever the caller asked for, and the kinematics get the hold controller's output |
| Chassis.StaleHoldAfterDisable | src/robot/subsystems/ChassisSubsystem.java:235-244 | disabling keeps a captured hold angle and timer: a later idle tick past the delay holds, but the hold controller stays disabled |
| Chassis.DriveJoystickSpec | src/robot/subsystems/ChassisSubsystem.java:264-276 | after a joystick drive the angle and distance controllers are off, the angle targets and encoders kept, and the hold fields are one tick on the caller's rotation |
| Chassis.DriveJoystickExclusion | src/robot/subsystems/ChassisSubsystem.java:264-276 | a joystick drive leaves the angle and distance controllers off, keeps the angle targets and the invariant, and runs one hold tick on the caller's rotation |
| Chassis.ResolveTarget | src/robot/subsystems/ChassisSubsystem.java:296-323 | a negative target keeps both stored values; otherwise the last commanded value becomes the new one; the absolute target is the old one, the commanded value, or a wrapped value at most 360; a repeated robot-relative value with the angle controller running keeps the absolute target |
| Chassis.ResolveTargetCases | src/robot/subsystems/ChassisSubsystem.java:296-323 | a negative target keeps both stored values; a field-relative one is used as is; a robot-relative one is recomputed from heading plus target exactly when the angle controller is off or the value changed, and otherwise kept; the recomputed value lies in (0, 360] when that sum is positive, and a non-positive sum is left as it is |
| Chassis.DriveToAngleSpec | src/robot/subsystems/ChassisSubsystem.java:287-337 | the distance controller is off, the angle controller runs on the absolute target, the hold fields are one tick on the angle controller's output, encoders are kept; a negative target keeps both targets, a field-relative one is taken as is |
| Chassis.DriveToAngleExclusion | src/robot/subsystems/ChassisSubsystem.java:287-337 | a drive to angle leaves the distance controller off and the angle controller running on the resolved target, keeps the invariant, and runs one hold tick on the angle controller's output |
| Chassis.RobotRelativeTargetResolvedOnce | src/robot/subsystems/ChassisSubsystem.java:306-313 | driving twice to the same robot-relative value keeps the absolute target computed the first time |
| Chassis.JoystickThenRobotRelativeRecomputes | src/robot/subsystems/ChassisSubsystem.java:264-337 | after a joystick drive, a robot-relative target is taken from the current heading even when the value equals the last one |
| Chassis.ChassisSubsystem.constructor | src/robot/subsystems/ChassisSubsystem.java:24-134 | all controllers disabled, motors and encoders at 0, targets 0, hold angle and timer unset |
| Chassis.ChassisSubsystem.EnableSubsystem | src/robot/subsystems/ChassisSubsystem.java:340-344 | only the enabled flag changes |
| Chassis.ChassisSubsystem.DisableSubsystem | src/robot/subsystems/ChassisSubsystem.java:235-244 | the new state is `SubsystemDisabled` of the old one |
| Chassis.ChassisSubsystem.DisableAnglePid | src/robot/subsystems/ChassisSubsystem.java:549-555 | the angle controller is disabled and nothing else changes |
| Chassis.ChassisSubsystem.DisableHoldAnglePid | src/robot/subsystems/ChassisSubsystem.java:562-568 | the hold controller is disabled and nothing else changes |
| Chassis.ChassisSubsystem.DisableDistancePid | src/robot/subsystems/ChassisSubsystem.java:575-580 | the distance controller is disabled and nothing else changes |
| Chassis.ChassisSubsystem.DisableRotationPid | src/robot/subsystems/ChassisSubsystem.java:598-603 | the rotation controller is disabled and nothing else changes |
| Chassis.ChassisSubsystem.DisableWheelSpeedPids | src/robot/subsystems/ChassisSubsystem.java:610-619 | every wheel controller is disabled, setpoints kept, nothing else changes |
| Chassis.ChassisSubsystem.DisablePids | src/robot/subsystems/ChassisSubsystem.java:582-590 | the new state is `PidsDisabled` of the old one |
| Chassis.ChassisSubsystem.EnableAnglePid | src/robot/subsystems/ChassisSubsystem.java:712-719 | the angle controller is enabled and nothing else changes |
| Chassis.ChassisSubsystem.EnableRotationPid | src/robot/subsystems/ChassisSubsystem.java:730-735 | the rotation controller is enabled and nothing else changes |
| Chassis.ChassisSubsystem.EnableDistancePid | src/robot/subsystems/ChassisSubsystem.java:743-753 | the new state is `DistancePidEnabled` of the old one |
| Chassis.ChassisSubsystem.EnableWheelSpeedPids | src/robot/subsystems/ChassisSubsystem.java:759-770 | every wheel controller is enabled, setpoints kept, nothing else changes |
| Chassis.ChassisSubsystem.ResetEncoders | src/robot/subsystems/ChassisSubsystem.java:793-803 | every encoder reads 0 and every wheel setpoint is 0 |
| Chassis.ChassisSubsystem.StopMotors | src/robot/subsystems/ChassisSubsystem.java:805-809 | every motor output is 0 |
| Chassis.ChassisSubsystem.GetDistance | src/robot/subsystems/ChassisSubsystem.java:773-779 | the loop returns `MeanDistance` of the encoder readings |
| Chassis.ChassisSubsystem.UpdateHeadingHold | src/robot/subsystems/ChassisSubsystem.java:629-663 | the hold fields, the holding flag and angleRotation are those of one `HoldTick`; a holding tick also disables the rotation controller |
| Chassis.ChassisSubsystem.DriveMotors | src/robot/subsystems/ChassisSubsystem.java:681-704 | with motor controllers enabled, each wheel controller tracks its kinematic speed and each motor gets its controller's output; otherwise the controllers are disabled and the motors get the speeds |
| Chassis.ChassisSubsystem.DrivePolar | src/robot/subsystems/ChassisSubsystem.java:629-705 | the new state is `DrivePolarSpec` of the old one |
| Chassis.ChassisSubsystem.DriveJoystick | src/robot/subsystems/ChassisSubsystem.java:264-276 | the new state is `DriveJoystickSpec` of the old one |
| Chassis.ChassisSubsystem.UpdateAngleTarget | src/robot/subsystems/ChassisSubsystem.java:296-323 | the wrapping loop leaves the targets `ResolveTarget` gives |
| Chassis.ChassisSubsystem.DriveToAngle | src/robot/subsystems/ChassisSubsystem.java:287-337 | the new state is `DriveToAngleSpec` of the old one |
| ToteElevator.EncoderSetpoint | src/robot/subsystems/ToteElevatorSubsystem.java:14-24 | with non-negative calibration no level lies below the floor (count 0), and with positive calibration every other level lies strictly above it |
| ToteElevator.DriveSpeed | src/robot/subsystems/ToteElevatorSubsystem.java:110-116 | the speed lies in [0, 1] and is 0 exactly when neither autonomous nor operator control |
| ToteElevator.RateSetpointToward | src/robot/subsystems/ToteElevatorSubsystem.java:118-122 | the setpoint is the speed or its negation, and for a positive speed it is negative (up) exactly when the encoder reads above the target |
| ToteElevator.OnTargetDecision | src/robot/subsystems/ToteElevatorSubsystem.java:72-93 | at FLOOR on target exactly when the floor switch is open; above FLOOR on target only with a non-zero rate setpoint or at the upper limit going to FOUR, which is always on target |
| ToteElevator.LevelTable | src/robot/subsystems/ToteElevatorSubsystem.java:14-24 | FLOOR is 0, HALF is half of ONE, TWO and THREE are one and two levels' counts beyond ONE, the container level is 200 counts beyond TWO, FOUR is the negated maximum |
| ToteElevator.LevelsClimb | src/robot/subsystems/ToteElevatorSubsystem.java:14-24 | with positive calibration, more than 200 counts per level and the maximum beyond THREE, the setpoints strictly decrease (the elevator rises) in declaration order |
| ToteElevator.DriveTowardLevel | src/robot/subsystems/ToteElevatorSubsystem.java:106-122 | the speed is 1.0 in autonomous, 0.75 in operator control, else 0; the setpoint has that magnitude and is negative (up) exactly when the encoder reads above the target |
| ToteElevator.OnTargetAtFloor | src/robot/subsystems/ToteElevatorSubsystem.java:75-81 | at FLOOR the elevator is on target exactly when the normally closed floor switch is open |
| ToteElevator.OnTargetAboveFloor | src/robot/subsystems/ToteElevatorSubsystem.java:82-93 | above FLOOR: on target exactly inside the 100-count window on the approach side, or on the upper limit at FOUR; the floor switch and the positive-limit state never matter |
| ToteElevator.StoppedElevatorOnlyAtLimit | src/robot/subsystems/ToteElevatorSubsystem.java:82-93 | with a zero rate setpoint, above FLOOR only the upper limit at FOUR is on target |
| ToteElevator.OnTargetRightAfterInit | src/robot/subsystems/ToteElevatorSubsystem.java:69-127 | right after initDriveToLevel with a non-zero speed, a level above FLOOR is on target exactly when within 100 counts of it on either side, unless the upper limit is tripped at FOUR (then it is on target at any distance) |
| ToteElevator.ToteElevatorSubsystem.constructor | src/robot/subsystems/ToteElevatorSubsystem.java:34-49 | no level, zero rate setpoint, not enabled, brake released, rate controller idle |
| ToteElevator.ToteElevatorSubsystem.OnTarget | src/robot/subsystems/ToteElevatorSubsystem.java:69-94 | returns `OnTargetDecision` for the current level and encoder reading, and zeroes the encoder exactly at FLOOR with the switch open |
| ToteElevator.ToteElevatorSubsystem.DriveToLevel | src/robot/subsystems/ToteElevatorSubsystem.java:98-104 | the brake is released and the rate controller runs on the stored rate setpoint |
| ToteElevator.ToteElevatorSubsystem.InitDriveToLevel | src/robot/subsystems/ToteElevatorSubsystem.java:106-127 | stores the level and the rate setpoint toward it, and enables the subsystem with the controller at 0 |
| ToteElevator.ToteElevatorSubsystem.DisengageBrake | src/robot/subsystems/ToteElevatorSubsystem.java:129-132 | brake released, rate controller enabled |
| ToteElevator.ToteElevatorSubsystem.EngageBrake | src/robot/subsystems/ToteElevatorSubsystem.java:134-137 | brake engaged, rate controller disabled |
| ToteElevator.ToteElevatorSubsystem.DisableSubsystem | src/robot/subsystems/ToteElevatorSubsystem.java:140-144 | not enabled, brake engaged, rate controller disabled at setpoint 0 |
| ToteElevator.ToteElevatorSubsystem.EnableSubsystem | src/robot/subsystems/ToteElevatorSubsystem.java:147-151 | enabled, rate controller enabled at setpoint 0, brake untouched |
| ToteElevator.ToteElevatorSubsystem.ResetEncoders | src/robot/subsystems/ToteElevatorSubsystem.java:168-170 | the encoder reads 0 |
| OperatorInterface.ButtonOf | src/robot/OI.java:17-31 | Y is exactly NORTH and RELAY_ON, B exactly EAST and RELAY_FORWARD, X exactly WEST and RELAY_REVERSE, A exactly SOUTH; Back and the stick buttons are not mapped |
| OperatorInterface.RelayOnPressed | src/robot/OI.java:106-107 | relay on reads gamepad button Y |
| OperatorInterface.RelayForwardPressed | src/robot/OI.java:102-103 | relay forward reads gamepad button B |
| OperatorInterface.RelayReversePressed | src/robot/OI.java:110-111 | relay reverse reads gamepad button X |
| OperatorInterface.DirectionPointer | src/robot/OI.java:60-80 | the result is -1 or a multiple of 45 below 360, and is -1 exactly when no direction button is held |
| OperatorInterface.RelayButtonsAlias | src/robot/OI.java:17-31 | relay on, forward and reverse read the same gamepad buttons as NORTH, EAST and WEST |
| OperatorInterface.DiagonalsFirst | src/robot/OI.java:62-72 | diagonal pairs win, tested in the order N+E, N+W, S+E, S+W |
| OperatorInterface.SinglesInOrder | src/robot/OI.java:74-77 | with no diagonal pair held, single buttons win in the order N, E, S, W |
| OperatorInterface.PriorityExamples | src/robot/OI.java:60-80 | Y+B+X gives 45, Y+A gives 0, B+X gives 90, non-direction buttons give -1 |
| OperatorInterface.DirectionPointerIsFirstMatch | src/robot/OI.java:60-80 | the decoder equals the first fully held entry of an independent priority list of button combinations |

## Left out

- WPILib `PIDController` internals: gains, integration, input and output ranges, tolerances, and `reset()`. A controller is only its enabled flag and setpoint. Setpoints are not clamped to the input range. Reset, which clears the integral, is not observable.
- `angleOnTarget`, `distanceOnTarget` and `gyroAngleOnTarget`: they delegate to `PIDController.onTarget`, whose tolerance logic is not part of this model. `distancePID` has the 8-count absolute tolerance set at ChassisSubsystem.java:419. The 2.7° constant `ANGLE_PID_ABSOLUTE_TOLERANCE` (line 108) is never applied to `anglePID`.
- Gyro handling: `getGyroAngle`, `getGyroRotation` and `resetGyro`. `OffsetableGyro` is not part of this model, so the gyro heading is an input real.
- The mecanum kinematics (`RunnymedeMecanumDrive.drivePolar`), `PolarCoordinate` normalisation and Talon output clamping: these classes are not part of this model, so the kinematics is a parameter.
- `initSubsystem` (PID configuration, the production/practice/test gain table selection), `updateDashboard`, `print` and all SmartDashboard output: configuration and telemetry do not change the modelled state.
- The clock `System.currentTimeMillis()` and the driver-station mode queries (`isAutonomous`, `isOperatorControl`) are inputs. The clock is an unbounded integer; 64-bit overflow is not modelled.
- Java `double` arithmetic: rotations, headings, setpoints and encoder distances are unbounded reals, with no rounding, infinities or NaN. The model therefore does not capture that the wrapping loop in `driveToAngle` never ends for +Infinity or any value above 2^62, where subtracting 360.0 leaves the double unchanged; `Angles.WrappedDown` terminates only over reals.
- One sensor snapshot per call: each drive call reads the clock and the gyro once (`Sensors.now`, `Sensors.gyroAngle`). The source reads the clock twice in `drivePolar` (the timer start and the elapsed-time test). It reads the gyro up to four times per `driveToAngle`: for the robot-relative target, for the dashboard value at line 327 (which only feeds the dashboard), in `getDrivePolarCoordinate`, and at the hold capture. Those reads could differ.
- ToteElevator.ToteElevatorSubsystem.OnTarget: reads the floor switch once. The source reads it twice, and the two reads could differ.
- ToteElevator.EncoderSetpoint: the calibration constants are not declared in the shown RobotMap, so their type is unknown. The level table uses reals. If they are integers, Java truncates `COUNTS_AT_FIRST_LEVEL/2` for HALF, and the model does not capture that.
- The unused `difference` field of ToteElevatorSubsystem, `getLevel`, `getEncoderDistance`, `isEnabled` and the encoder rate source (`pidGet`) are plain reads, not modelled separately.
- OI: the stick readings (`getDriverPolarCoordinate`, `getDriverRotation`, `getServoSetpoint`, the StickMap, squaring) and the other button getters are single reads of the joystick class, which is not part of this model.
- The commands and command groups that call these subsystems are not modelled.
