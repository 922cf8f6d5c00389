/** Real arithmetic shared by the chassis: absolute values and the angle
    wrapping used by ChassisSubsystem.driveToAngle. */
module Angles {

  function Abs(x: real): (r: real)
    ensures r >= 0.0 && (r == x || r == -x)
  {
    if x < 0.0 then -x else x
  }

  predicate IsWhole(x: real) { x.Floor as real == x }

  lemma WholeSucc(x: real)
    requires IsWhole(x)
    ensures IsWhole(x + 1.0)
  {
    assert (x + 1.0).Floor == x.Floor + 1;
  }

  /** The value driveToAngle's loop leaves in angleRelativeSetpoint: 360 is
      subtracted while the angle is strictly above 360. The result is at most
      360, above 0 whenever the input was above 360, unchanged otherwise, and
      differs from the input by a whole number of turns. */
  function WrappedDown(a: real): (r: real)
    decreases a.Floor
    ensures r <= 360.0 && r <= a
    ensures a > 360.0 ==> r > 0.0
    ensures a <= 360.0 ==> r == a
    ensures IsWhole((a - r) / 360.0)
  {
    if a > 360.0 then
      var r := WrappedDown(a - 360.0);
      assert (a - r) / 360.0 == (a - 360.0 - r) / 360.0 + 1.0;
      WholeSucc((a - 360.0 - r) / 360.0);
      r
    else
      assert (a - a) / 360.0 == 0.0;
      a
  }

  /** Wrapping is determined: any angle in (0, 360] a whole number of turns
      below the input is the wrapped value (for inputs above 0). */
  lemma {:induction false} WrappedDownUnique(a: real, r: real)
    requires a > 0.0 && 0.0 < r <= 360.0 && r <= a && IsWhole((a - r) / 360.0)
    ensures WrappedDown(a) == r
    decreases a.Floor
  {
    if a > 360.0 {
      var k := ((a - r) / 360.0).Floor;
      assert k as real == (a - r) / 360.0;
      assert k >= 1 by {
        assert (a - r) / 360.0 > 0.0;
      }
      assert (a - 360.0 - r) / 360.0 == (k - 1) as real;
      assert IsWhole((a - 360.0 - r) / 360.0);
      assert r <= a - 360.0 by {
        assert (a - r) >= 360.0;
      }
      WrappedDownUnique(a - 360.0, r);
    } else {
      var k := ((a - r) / 360.0).Floor;
      assert 0.0 <= (a - r) / 360.0 < 1.0;
      assert k == 0;
    }
  }
}
