/** The part of a WPILib PID controller that the subsystems read and write.
    The controller's gains, its error memory and its output computation belong
    to the library; its output reaches the model as a sensor reading. */
module PidControl {

  /** Whether the controller's loop runs, and the value it tracks. */
  datatype Pid = Pid(enabled: bool, setpoint: real)

  /** A controller as constructed: disabled, tracking 0. */
  const Idle: Pid := Pid(false, 0.0)
}
