/** ToteElevatorSubsystem: the encoder setpoint of each elevator level, the
    drive direction chosen toward a level, the on-target decision and the
    brake / rate-controller lifecycle. Encoder counts grow negative as the
    elevator climbs, and negative motor power drives it up. */
module ToteElevator {
  import opened PidControl

  datatype Option<T> = None | Some(value: T)

  datatype Level = Floor | Half | One | Two | AutonomousContainerLevel | Three | Four

  /** The RobotMap calibration the level table is computed from:
      TOTE_ELEVATOR_ENCODER_COUNTS_AT_FIRST_LEVEL,
      TOTE_ELEVATOR_ENCODER_COUNTS_PER_ELEVATOR_LEVEL and
      TOTE_ELEVATOR_MAX_DISTANCE. */
  datatype Calibration = Calibration(countsAtFirstLevel: real, countsPerLevel: real, maxDistance: real)

  /** ToteElevatorLevel.encoderSetpoint, as the enum constants compute it. */
  function EncoderSetpoint(level: Level, c: Calibration): (r: real)
    ensures c.countsAtFirstLevel >= 0.0 && c.countsPerLevel >= 0.0 && c.maxDistance >= 0.0 ==> r <= 0.0
    ensures level != Floor && c.countsAtFirstLevel > 0.0 && c.countsPerLevel >= 0.0 && c.maxDistance > 0.0 ==> r < 0.0
  {
    match level
    case Floor => 0.0
    case Half => -c.countsAtFirstLevel / 2.0
    case One => -c.countsAtFirstLevel
    case Two => -c.countsAtFirstLevel + 1.0 * -c.countsPerLevel
    case AutonomousContainerLevel => (-c.countsAtFirstLevel + 1.0 * -c.countsPerLevel) - 200.0
    case Three => -c.countsAtFirstLevel + 2.0 * -c.countsPerLevel
    case Four => -c.maxDistance
  }

  /** The table in terms of level ONE: HALF is half of it, each further level
      is one more level's counts up, the container level 200 counts above TWO. */
  lemma LevelTable(c: Calibration)
    ensures EncoderSetpoint(Floor, c) == 0.0
    ensures EncoderSetpoint(One, c) == -c.countsAtFirstLevel
    ensures EncoderSetpoint(Half, c) == EncoderSetpoint(One, c) / 2.0
    ensures EncoderSetpoint(Two, c) == EncoderSetpoint(One, c) - c.countsPerLevel
    ensures EncoderSetpoint(Three, c) == EncoderSetpoint(One, c) - 2.0 * c.countsPerLevel
    ensures EncoderSetpoint(AutonomousContainerLevel, c) == EncoderSetpoint(Two, c) - 200.0
    ensures EncoderSetpoint(Four, c) == -c.maxDistance
  {}

  /** With positive calibration, more than 200 counts per level and the
      maximum beyond level THREE, each level in declaration order lies
      strictly above the one before. */
  lemma LevelsClimb(c: Calibration)
    requires c.countsAtFirstLevel > 0.0 && c.countsPerLevel > 200.0
    requires c.maxDistance > c.countsAtFirstLevel + 2.0 * c.countsPerLevel
    ensures EncoderSetpoint(Floor, c) > EncoderSetpoint(Half, c) > EncoderSetpoint(One, c)
            > EncoderSetpoint(Two, c) > EncoderSetpoint(AutonomousContainerLevel, c)
            > EncoderSetpoint(Three, c) > EncoderSetpoint(Four, c)
  {}

  /** The drive speed initDriveToLevel picks from the driver-station mode. */
  function DriveSpeed(isAutonomous: bool, isOperatorControl: bool): (r: real)
    ensures 0.0 <= r <= 1.0
    ensures r == 0.0 <==> !isAutonomous && !isOperatorControl
  {
    if isAutonomous then 1.0 else if isOperatorControl then 0.75 else 0.0
  }

  /** The rate setpoint toward a level, from difference = encoder - target. */
  function RateSetpointToward(difference: real, driveSpeed: real): (r: real)
    ensures r == driveSpeed || r == -driveSpeed
    ensures driveSpeed > 0.0 ==> (r < 0.0 <==> difference > 0.0)
  {
    if difference > 0.0 then -driveSpeed else driveSpeed
  }

  /** The magnitude is the mode's speed; with a non-zero speed the setpoint
      is negative (drive up) exactly when the encoder reads above the target
      count, i.e. when the elevator is below the level. At the target itself
      the direction is down. */
  lemma DriveTowardLevel(difference: real, isAutonomous: bool, isOperatorControl: bool)
    ensures var speed := DriveSpeed(isAutonomous, isOperatorControl);
      var r := RateSetpointToward(difference, speed);
      && (r == speed || r == -speed)
      && (isAutonomous ==> speed == 1.0)
      && (!isAutonomous && isOperatorControl ==> speed == 0.75)
      && (!isAutonomous && !isOperatorControl ==> r == 0.0)
      && (speed != 0.0 ==> (r < 0.0 <==> difference > 0.0) && (r > 0.0 <==> difference <= 0.0))
  {}

  /** SafeTalon's trip state; only the two limit-switch states matter here. */
  datatype TalonState = Normal | PositiveLimitSwitch | NegativeLimitSwitch | OverCurrent

  /** Counts short of the target at which a moving elevator counts as there. */
  const OnTargetWindow: real := 100.0

  /** The decision onTarget returns, written as the source tests it. */
  function OnTargetDecision(level: Level, rateSetpoint: real, difference: real,
                            floorSensor: bool, state: TalonState): (r: bool)
    ensures level == Floor ==> (r <==> !floorSensor)
    ensures level != Floor && r ==> rateSetpoint != 0.0 || (state == NegativeLimitSwitch && level == Four)
    ensures state == NegativeLimitSwitch && level == Four ==> r
  {
    if level == Floor then
      !floorSensor
    else if (rateSetpoint > 0.0 && difference > -OnTargetWindow) || (rateSetpoint < 0.0 && difference < OnTargetWindow) then
      true
    else
      (state == PositiveLimitSwitch && level == Floor) || (state == NegativeLimitSwitch && level == Four)
  }

  /** At FLOOR the answer is exactly "the normally closed floor switch is open". */
  lemma OnTargetAtFloor(rateSetpoint: real, difference: real, floorSensor: bool, state: TalonState)
    ensures OnTargetDecision(Floor, rateSetpoint, difference, floorSensor, state) == !floorSensor
  {}

  /** Above FLOOR: inside the window on the approach side, or stopped by the
      upper (negative) limit switch while going to FOUR. The positive-limit
      test is unreachable, so that state never decides anything. */
  lemma OnTargetAboveFloor(level: Level, rateSetpoint: real, difference: real,
                           floorSensor: bool, state: TalonState)
    requires level != Floor
    ensures OnTargetDecision(level, rateSetpoint, difference, floorSensor, state)
            <==> (rateSetpoint > 0.0 && difference > -OnTargetWindow)
                 || (rateSetpoint < 0.0 && difference < OnTargetWindow)
                 || (state == NegativeLimitSwitch && level == Four)
    ensures OnTargetDecision(level, rateSetpoint, difference, floorSensor, state)
            == OnTargetDecision(level, rateSetpoint, difference, !floorSensor,
                                if state == PositiveLimitSwitch then Normal else state)
  {}

  /** A zero rate setpoint (neither autonomous nor operator control) is never
      inside the window: above FLOOR only the upper limit at FOUR ends the move. */
  lemma StoppedElevatorOnlyAtLimit(level: Level, difference: real, floorSensor: bool, state: TalonState)
    requires level != Floor
    ensures OnTargetDecision(level, 0.0, difference, floorSensor, state)
            <==> state == NegativeLimitSwitch && level == Four
  {}

  /** Right after initDriveToLevel (same encoder reading, non-zero speed, no
      upper-limit trip at FOUR) an elevator above FLOOR is already on target
      exactly when it is within the window of the target on either side. */
  lemma OnTargetRightAfterInit(level: Level, difference: real, driveSpeed: real,
                               floorSensor: bool, state: TalonState)
    requires level != Floor && driveSpeed > 0.0
    requires !(state == NegativeLimitSwitch && level == Four)
    ensures OnTargetDecision(level, RateSetpointToward(difference, driveSpeed), difference, floorSensor, state)
            <==> -OnTargetWindow < difference < OnTargetWindow
  {}

  class ToteElevatorSubsystem {
    const calibration: Calibration
    var level: Option<Level>
    var elevatorRatePidSetpoint: real
    var enabled: bool
    /** The brake solenoid's output: true engages the brake. */
    var brake: bool
    var elevatorRatePid: Pid
    /** The distance the elevator encoder reports. */
    var encoderDistance: real

    constructor (calibration: Calibration)
      ensures this.calibration == calibration && level == None
      ensures elevatorRatePidSetpoint == 0.0 && !enabled && !brake
      ensures elevatorRatePid == Idle && encoderDistance == 0.0
    {
      this.calibration := calibration;
      level := None;
      elevatorRatePidSetpoint := 0.0;
      enabled := false;
      brake := false;
      elevatorRatePid := Idle;
      encoderDistance := 0.0;
    }

    /** onTarget; the source dereferences level, so a level must have been set. */
    method OnTarget(floorSensor: bool, motorState: TalonState) returns (onTarget: bool)
      requires level.Some?
      modifies this`encoderDistance
      ensures onTarget == OnTargetDecision(level.value, elevatorRatePidSetpoint,
                                           old(encoderDistance) - EncoderSetpoint(level.value, calibration),
                                           floorSensor, motorState)
      ensures encoderDistance == if level.value == Floor && !floorSensor then 0.0 else old(encoderDistance)
    {
      var difference := encoderDistance - EncoderSetpoint(level.value, calibration);
      if level.value == Floor {
        if !floorSensor {
          ResetEncoders();
        }
        return !floorSensor;
      } else {
        if (elevatorRatePidSetpoint > 0.0 && difference > -OnTargetWindow)
          || (elevatorRatePidSetpoint < 0.0 && difference < OnTargetWindow) {
          return true;
        }
      }
      if (motorState == PositiveLimitSwitch && level.value == Floor)
        || (motorState == NegativeLimitSwitch && level.value == Four) {
        return true;
      }
      return false;
    }

    /** driveToLevel */
    method DriveToLevel()
      modifies this`brake, this`elevatorRatePid
      ensures !brake && elevatorRatePid == Pid(true, elevatorRatePidSetpoint)
    {
      DisengageBrake();
      elevatorRatePid := elevatorRatePid.(setpoint := elevatorRatePidSetpoint);
    }

    /** initDriveToLevel; the driver-station mode queries are parameters. */
    method InitDriveToLevel(level: Level, isAutonomous: bool, isOperatorControl: bool)
      modifies this`level, this`elevatorRatePidSetpoint, this`enabled, this`elevatorRatePid
      ensures this.level == Some(level)
      ensures elevatorRatePidSetpoint
              == RateSetpointToward(encoderDistance - EncoderSetpoint(level, calibration),
                                    DriveSpeed(isAutonomous, isOperatorControl))
      ensures enabled && elevatorRatePid == Pid(true, 0.0)
    {
      var difference := encoderDistance - EncoderSetpoint(level, calibration);
      var driveSpeed := 0.0;
      if isAutonomous {
        driveSpeed := 1.0;
      } else if isOperatorControl {
        driveSpeed := 0.75;
      }
      if difference > 0.0 {
        elevatorRatePidSetpoint := -driveSpeed;
      } else {
        elevatorRatePidSetpoint := driveSpeed;
      }
      this.level := Some(level);
      EnableSubsystem();
    }

    method DisengageBrake()
      modifies this`brake, this`elevatorRatePid
      ensures !brake && elevatorRatePid == old(elevatorRatePid).(enabled := true)
    {
      brake := false;
      elevatorRatePid := elevatorRatePid.(enabled := true);
    }

    method EngageBrake()
      modifies this`brake, this`elevatorRatePid
      ensures brake && elevatorRatePid == old(elevatorRatePid).(enabled := false)
    {
      brake := true;
      elevatorRatePid := elevatorRatePid.(enabled := false);
    }

    /** disableSubsystem: brake on, rate controller off and tracking 0. */
    method DisableSubsystem()
      modifies this`enabled, this`brake, this`elevatorRatePid
      ensures !enabled && brake && elevatorRatePid == Pid(false, 0.0)
    {
      enabled := false;
      EngageBrake();
      elevatorRatePid := elevatorRatePid.(setpoint := 0.0);
    }

    /** enableSubsystem: rate controller on and tracking 0; the brake is untouched. */
    method EnableSubsystem()
      modifies this`enabled, this`elevatorRatePid
      ensures enabled && elevatorRatePid == Pid(true, 0.0)
    {
      enabled := true;
      elevatorRatePid := elevatorRatePid.(enabled := true);
      elevatorRatePid := elevatorRatePid.(setpoint := 0.0);
    }

    method ResetEncoders()
      modifies this`encoderDistance
      ensures encoderDistance == 0.0
    {
      encoderDistance := 0.0;
    }
  }
}
