/** The button side of OI: which gamepad button each function is wired to,
    and the decoder that turns the four direction buttons into a compass
    heading for the drive. */
module OperatorInterface {

  /** Buttons of the Logitech F310 gamepad. */
  datatype F310Button = A | B | X | Y | LB | RB | Back | Start | LeftStick | RightStick

  /** OI.ButtonMap */
  datatype ButtonMap =
    | South | North | East | West
    | Elevator | SingleSolenoid | DoubleSolenoid
    | RelayOn | RelayForward | RelayReverse

  function ButtonOf(b: ButtonMap): (r: F310Button)
    ensures r == Y <==> b == North || b == RelayOn
    ensures r == B <==> b == East || b == RelayForward
    ensures r == X <==> b == West || b == RelayReverse
    ensures r == A <==> b == South
    ensures r != Back && r != LeftStick && r != RightStick
  {
    match b
    case South => A
    case North => Y
    case East => B
    case West => X
    case Elevator => RB
    case SingleSolenoid => LB
    case DoubleSolenoid => Start
    case RelayOn => Y
    case RelayForward => B
    case RelayReverse => X
  }

  /** The driver joystick's buttons that are held down. */
  type Buttons = set<F310Button>

  predicate Pressed(buttons: Buttons, b: ButtonMap) {
    ButtonOf(b) in buttons
  }

  predicate AnyDirection(buttons: Buttons) {
    Pressed(buttons, North) || Pressed(buttons, East) || Pressed(buttons, South) || Pressed(buttons, West)
  }

  /** getDirectionPointer: a compass heading in degrees, or -1 for none. */
  function DirectionPointer(buttons: Buttons): (r: int)
    ensures r in {-1, 0, 45, 90, 135, 180, 225, 270, 315}
    ensures r == -1 <==> !AnyDirection(buttons)
    ensures r >= 0 <==> AnyDirection(buttons)
  {
    var n, e, s, w := Pressed(buttons, North), Pressed(buttons, East), Pressed(buttons, South), Pressed(buttons, West);
    if n && e then 45
    else if n && w then 315
    else if s && e then 135
    else if s && w then 225
    else if n then 0
    else if e then 90
    else if s then 180
    else if w then 270
    else -1
  }

  /** getRelayOn, getRelayForward and getRelayReverse. */
  function RelayOnPressed(buttons: Buttons): (r: bool)
    ensures r <==> Y in buttons
  {
    Pressed(buttons, RelayOn)
  }

  function RelayForwardPressed(buttons: Buttons): (r: bool)
    ensures r <==> B in buttons
  {
    Pressed(buttons, RelayForward)
  }

  function RelayReversePressed(buttons: Buttons): (r: bool)
    ensures r <==> X in buttons
  {
    Pressed(buttons, RelayReverse)
  }

  /** The relay buttons share their gamepad buttons with three direction
      buttons: relay on is NORTH (Y), forward is EAST (B), reverse is WEST (X). */
  lemma RelayButtonsAlias(buttons: Buttons)
    ensures RelayOnPressed(buttons) == Pressed(buttons, North)
    ensures RelayForwardPressed(buttons) == Pressed(buttons, East)
    ensures RelayReversePressed(buttons) == Pressed(buttons, West)
  {}

  /** Diagonal pairs are tested first, in the order N+E, N+W, S+E, S+W. */
  lemma DiagonalsFirst(buttons: Buttons)
    ensures var n, e, s, w := Pressed(buttons, North), Pressed(buttons, East), Pressed(buttons, South), Pressed(buttons, West);
      && (n && e ==> DirectionPointer(buttons) == 45)
      && (n && w && !e ==> DirectionPointer(buttons) == 315)
      && (s && e && !n ==> DirectionPointer(buttons) == 135)
      && (s && w && !n && !e ==> DirectionPointer(buttons) == 225)
  {}

  /** With no diagonal pair held, single buttons win in the order N, E, S, W. */
  lemma SinglesInOrder(buttons: Buttons)
    requires var n, e, s, w := Pressed(buttons, North), Pressed(buttons, East), Pressed(buttons, South), Pressed(buttons, West);
      !(n && e) && !(n && w) && !(s && e) && !(s && w)
    ensures var n, e, s, w := Pressed(buttons, North), Pressed(buttons, East), Pressed(buttons, South), Pressed(buttons, West);
      && (n ==> DirectionPointer(buttons) == 0)
      && (e && !n ==> DirectionPointer(buttons) == 90)
      && (s && !n && !e ==> DirectionPointer(buttons) == 180)
      && (w && !n && !e && !s ==> DirectionPointer(buttons) == 270)
  {}

  lemma PriorityExamples()
    ensures DirectionPointer({Y, B, X}) == 45
    ensures DirectionPointer({Y, A}) == 0
    ensures DirectionPointer({B, X}) == 90
    ensures DirectionPointer({LB, RB, Start}) == -1
  {}

  /** An independent statement of the decoder: a priority list of button
      combinations, of which the first one fully held gives the heading. */
  datatype Rule = Rule(needs: seq<ButtonMap>, heading: int)

  const PriorityRules: seq<Rule> := [
    Rule([North, East], 45), Rule([North, West], 315), Rule([South, East], 135), Rule([South, West], 225),
    Rule([North], 0), Rule([East], 90), Rule([South], 180), Rule([West], 270)]

  predicate AllPressed(buttons: Buttons, needs: seq<ButtonMap>) {
    forall i :: 0 <= i < |needs| ==> Pressed(buttons, needs[i])
  }

  function FirstMatch(rules: seq<Rule>, buttons: Buttons): int
    decreases |rules|
  {
    if rules == [] then -1
    else if AllPressed(buttons, rules[0].needs) then rules[0].heading
    else FirstMatch(rules[1..], buttons)
  }

  lemma {:induction false} DirectionPointerIsFirstMatch(buttons: Buttons)
    ensures DirectionPointer(buttons) == FirstMatch(PriorityRules, buttons)
  {
    var rs := PriorityRules;
    assert AllPressed(buttons, [North, East]) <==> Pressed(buttons, North) && Pressed(buttons, East) by {
      var needs := [North, East];
      assert needs[0] == North && needs[1] == East;
    }
    assert AllPressed(buttons, [North, West]) <==> Pressed(buttons, North) && Pressed(buttons, West) by {
      var needs := [North, West];
      assert needs[0] == North && needs[1] == West;
    }
    assert AllPressed(buttons, [South, East]) <==> Pressed(buttons, South) && Pressed(buttons, East) by {
      var needs := [South, East];
      assert needs[0] == South && needs[1] == East;
    }
    assert AllPressed(buttons, [South, West]) <==> Pressed(buttons, South) && Pressed(buttons, West) by {
      var needs := [South, West];
      assert needs[0] == South && needs[1] == West;
    }
    assert AllPressed(buttons, [North]) <==> Pressed(buttons, North) by { assert [North][0] == North; }
    assert AllPressed(buttons, [East]) <==> Pressed(buttons, East) by { assert [East][0] == East; }
    assert AllPressed(buttons, [South]) <==> Pressed(buttons, South) by { assert [South][0] == South; }
    assert AllPressed(buttons, [West]) <==> Pressed(buttons, West) by { assert [West][0] == West; }
    assert rs[1..][1..][1..][1..][1..][1..][1..][1..] == [];
  }
}
