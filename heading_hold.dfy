/** The idle heading-hold timer at the top of ChassisSubsystem.drivePolar:
    after the rotation command has stayed inside a small dead band for strictly
    more than two seconds, the current gyro heading is captured once and the
    hold controller's output replaces the caller's rotation. */
module HeadingHold {
  import opened PidControl
  import opened Angles

  /** Rotation commands strictly below this magnitude count as "no rotation". */
  const RotationDeadband: real := 0.02
  /** Milliseconds of idle rotation that must pass, strictly, before holding. */
  const HoldDelayMillis: int := 2000
  /** Sentinel of driveHoldAngle and driveHoldEnableTimerStart: not set. */
  const Unset: real := -1.0
  const NotIdle: int := -1

  /** driveHoldAngle, driveHoldEnableTimerStart and driveHoldAnglePID. */
  datatype Hold = Hold(angle: real, timerStart: int, pid: Pid)

  /** What one drivePolar tick reads for the hold: the rotation it was given,
      the wall clock, the gyro heading and the hold controller's output. */
  datatype Tick = Tick(rotation: real, now: int, gyro: real, holdOutput: real)

  /** The hold state after a tick, whether the tick is holding, and the
      rotation it passes on (angleRotation in the source). */
  datatype Step = Step(next: Hold, holding: bool, rotation: real)

  predicate IdleRotation(t: Tick)
    ensures IdleRotation(t) <==> -RotationDeadband < t.rotation < RotationDeadband
  {
    Abs(t.rotation) < RotationDeadband
  }

  /** The timer start a sub-threshold tick leaves: set only when not yet set. */
  function ArmedStart(h: Hold, now: int): (r: int)
    ensures h.timerStart >= 0 ==> r == h.timerStart
    ensures r == h.timerStart || r == now
  {
    if h.timerStart < 0 then now else h.timerStart
  }

  /** One tick of the hold logic, branch for branch as drivePolar runs it. */
  function HoldTick(h: Hold, t: Tick): (r: Step)
    ensures r.holding ==> IdleRotation(t) && r.rotation == t.holdOutput
    ensures IdleRotation(t) ==> r.next.timerStart == ArmedStart(h, t.now)
    ensures !r.holding ==> r.rotation == t.rotation && r.next.angle == Unset && !r.next.pid.enabled
    ensures !IdleRotation(t) ==> r.next.timerStart == NotIdle
    ensures r.next.pid.enabled ==> r.holding
  {
    if IdleRotation(t) then
      var start := ArmedStart(h, t.now);
      if t.now - start > HoldDelayMillis then
        if h.angle < 0.0 then
          // capture: reset(), enable(), setSetpoint(driveHoldAngle)
          Step(Hold(t.gyro, start, Pid(true, t.gyro)), true, t.holdOutput)
        else
          Step(h.(timerStart := start), true, t.holdOutput)
      else
        Step(Hold(Unset, start, h.pid.(enabled := false)), false, t.rotation)
    else
      Step(Hold(Unset, NotIdle, h.pid.(enabled := false)), false, t.rotation)
  }

  /** The state invariant the hold logic keeps: while the timer is not
      running there is neither a hold angle nor a running hold controller,
      and a running hold controller tracks the captured angle. */
  predicate ConsistentHold(h: Hold) {
    && (h.timerStart < 0 ==> h.angle == Unset && !h.pid.enabled)
    && (h.pid.enabled ==> h.pid.setpoint == h.angle)
  }

  /** Any tick with a rotation of at least the dead band clears everything. */
  lemma RotationResets(h: Hold, t: Tick)
    requires !IdleRotation(t)
    ensures HoldTick(h, t).next == Hold(Unset, NotIdle, h.pid.(enabled := false))
    ensures !HoldTick(h, t).holding && HoldTick(h, t).rotation == t.rotation
  {}

  /** A sub-threshold tick starts the timer only when it is not running, and
      holds exactly when strictly more than the delay has passed since. */
  lemma IdleArmsTimer(h: Hold, t: Tick)
    requires IdleRotation(t)
    ensures HoldTick(h, t).next.timerStart == ArmedStart(h, t.now)
    ensures HoldTick(h, t).holding <==> t.now - ArmedStart(h, t.now) > HoldDelayMillis
  {}

  /** Not yet past the delay: the hold controller is off, the angle unset and
      the caller's rotation passes through; the timer start is kept. */
  lemma WithinDelayDoesNotHold(h: Hold, t: Tick)
    requires IdleRotation(t) && t.now - ArmedStart(h, t.now) <= HoldDelayMillis
    ensures HoldTick(h, t).next == Hold(Unset, ArmedStart(h, t.now), h.pid.(enabled := false))
    ensures HoldTick(h, t).rotation == t.rotation
  {}

  /** Holding: the rotation passed on is the hold controller's output; the
      first holding tick captures the gyro heading as angle and setpoint,
      later ones (angle already non-negative) leave the hold state alone. */
  lemma HoldingCapturesOnce(h: Hold, t: Tick)
    requires HoldTick(h, t).holding
    ensures HoldTick(h, t).rotation == t.holdOutput
    ensures h.angle < 0.0 ==> HoldTick(h, t).next == Hold(t.gyro, h.timerStart, Pid(true, t.gyro))
    ensures h.angle >= 0.0 ==> HoldTick(h, t).next == h
  {}

  lemma TickKeepsConsistent(h: Hold, t: Tick)
    requires ConsistentHold(h)
    ensures ConsistentHold(HoldTick(h, t).next)
  {}

  /** The hold state after a run of ticks. */
  function Run(h: Hold, ts: seq<Tick>): Hold
    decreases |ts|
  {
    if ts == [] then h else Run(HoldTick(h, ts[0]).next, ts[1..])
  }

  predicate AllIdle(ts: seq<Tick>) {
    forall i :: 0 <= i < |ts| ==> IdleRotation(ts[i])
  }

  /** Every tick is at most the delay after the first one. */
  predicate WithinDelayOfFirst(ts: seq<Tick>) {
    |ts| > 0 && forall i :: 0 <= i < |ts| ==> ts[i].now - ts[0].now <= HoldDelayMillis
  }

  predicate ClockMonotone(ts: seq<Tick>) {
    forall i, j :: 0 <= i <= j < |ts| ==> ts[i].now <= ts[j].now
  }

  lemma {:induction false} RunAppend(h: Hold, a: seq<Tick>, b: seq<Tick>)
    ensures Run(h, a + b) == Run(Run(h, a), b)
    decreases |a|
  {
    if a == [] {
      assert a + b == b;
    } else {
      assert (a + b)[1..] == a[1..] + b;
      RunAppend(HoldTick(h, a[0]).next, a[1..], b);
    }
  }

  /** Once armed at t0, idle ticks no later than t0 + delay keep the hold off. */
  lemma {:induction false} ArmedStaysOff(h: Hold, ts: seq<Tick>, t0: int)
    requires h.timerStart == t0 && t0 >= 0
    requires AllIdle(ts)
    requires forall i :: 0 <= i < |ts| ==> ts[i].now - t0 <= HoldDelayMillis
    requires ts != []
    ensures Run(h, ts) == Hold(Unset, t0, h.pid.(enabled := false))
    decreases |ts|
  {
    var h' := HoldTick(h, ts[0]).next;
    assert h' == Hold(Unset, t0, h.pid.(enabled := false));
    if |ts| > 1 {
      ArmedStaysOff(h', ts[1..], t0);
    }
  }

  /** From a cleared hold, sub-threshold ticks that all fall within the delay
      of the first never enable the hold controller, after any prefix. */
  lemma {:induction false} NoHoldWithinDelay(h: Hold, ts: seq<Tick>)
    requires h.timerStart < 0
    requires AllIdle(ts) && WithinDelayOfFirst(ts) && ts[0].now >= 0
    ensures Run(h, ts) == Hold(Unset, ts[0].now, h.pid.(enabled := false))
    ensures forall n :: 1 <= n <= |ts| ==> !Run(h, ts[..n]).pid.enabled
  {
    var t0 := ts[0].now;
    var h1 := HoldTick(h, ts[0]).next;
    assert h1 == Hold(Unset, t0, h.pid.(enabled := false));
    forall n | 1 <= n <= |ts|
      ensures Run(h, ts[..n]) == Hold(Unset, t0, h.pid.(enabled := false))
    {
      var p := ts[..n];
      assert p[0] == ts[0];
      if n > 1 {
        ArmedStaysOff(h1, p[1..], t0);
      }
    }
    assert ts[..|ts|] == ts;
  }

  /** Property: idle for no longer than the delay, then one real rotation
      command: the hold controller never ran and everything is cleared. */
  lemma IdleThenTurnNeverHolds(h: Hold, ts: seq<Tick>, turn: Tick)
    requires h.timerStart < 0
    requires AllIdle(ts) && WithinDelayOfFirst(ts) && ts[0].now >= 0
    requires !IdleRotation(turn)
    ensures Run(h, ts + [turn]) == Hold(Unset, NotIdle, h.pid.(enabled := false))
  {
    NoHoldWithinDelay(h, ts);
    RunAppend(h, ts, [turn]);
  }

  /** Holding with a captured, non-negative angle: later idle ticks past the
      delay change nothing. */
  lemma {:induction false} HoldingStays(h: Hold, ts: seq<Tick>)
    requires h.timerStart >= 0 && h.angle >= 0.0
    requires AllIdle(ts)
    requires forall i :: 0 <= i < |ts| ==> ts[i].now - h.timerStart > HoldDelayMillis
    ensures Run(h, ts) == h
    decreases |ts|
  {
    if ts != [] {
      assert HoldTick(h, ts[0]).next == h;
      HoldingStays(h, ts[1..]);
    }
  }

  /** Property: from a cleared hold and a monotone clock, idle ticks that go
      strictly past the delay leave the hold controller enabled on the heading
      read at the first tick strictly past the delay (index k). */
  lemma {:induction false} HoldAfterDelay(h: Hold, ts: seq<Tick>, k: nat)
    requires h.timerStart < 0 && h.angle < 0.0
    requires AllIdle(ts) && ClockMonotone(ts) && ts != [] && ts[0].now >= 0
    requires k < |ts| && ts[k].now - ts[0].now > HoldDelayMillis
    requires forall i :: 0 <= i < k ==> ts[i].now - ts[0].now <= HoldDelayMillis
    requires ts[k].gyro >= 0.0
    ensures Run(h, ts) == Hold(ts[k].gyro, ts[0].now, Pid(true, ts[k].gyro))
  {
    var t0 := ts[0].now;
    var g := ts[k].gyro;
    assert k > 0;
    var pre := ts[..k];
    assert pre[0] == ts[0];
    NoHoldWithinDelay(h, pre);
    var armed := Run(h, pre);
    assert armed == Hold(Unset, t0, h.pid.(enabled := false));
    var held := HoldTick(armed, ts[k]).next;
    assert held == Hold(g, t0, Pid(true, g));
    var post := ts[k + 1..];
    forall i | 0 <= i < |post| ensures post[i].now - held.timerStart > HoldDelayMillis {
      assert post[i] == ts[k + 1 + i];
    }
    HoldingStays(held, post);
    assert ts == pre + ([ts[k]] + post);
    RunAppend(h, pre, [ts[k]] + post);
    assert ([ts[k]] + post)[1..] == post;
  }
}
