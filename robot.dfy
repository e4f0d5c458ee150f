/**
 * A robot (internal/domain/robot.go): a position, the direction it faces and
 * whether it has been lost. The object is updated in place; its pure queries
 * are stated on the value `RobotState` that `Robot.State()` reads off it.
 */
module Robots {
  import opened Orientations
  import opened Worlds
  import Text

  /** The observable state of a robot: what `String` renders. */
  datatype RobotState = RobotState(x: int, y: int, orientation: Orientation, lost: bool) {

    /** The cell one step ahead in the direction faced; nothing changes. */
    function NextPosition(): (p: Point)
      ensures (p.x, p.y) == (x + orientation.ForwardDelta().0, y + orientation.ForwardDelta().1)
      ensures (p.x == x && (p.y == y + 1 || p.y == y - 1)) || (p.y == y && (p.x == x + 1 || p.x == x - 1))
    {
      var d := orientation.ForwardDelta();
      Point(x + d.0, y + d.1)
    }

    /** `"X Y O"`, followed by `" LOST"` when the robot is lost. */
    function ToString(): (s: string)
      ensures |s| >= 5
    {
      var base := Text.Itoa(x) + " " + Text.Itoa(y) + " " + orientation.ToString();
      if lost then base + " LOST" else base
    }
  }

  /** The rendering splits into x, y and the orientation letter, then "LOST" exactly when lost. */
  lemma ToStringFields(r: RobotState)
    ensures Text.Fields(r.ToString()) ==
      [Text.Itoa(r.x), Text.Itoa(r.y), r.orientation.ToString()] + (if r.lost then ["LOST"] else [])
  {
    var a, b, o := Text.Itoa(r.x), Text.Itoa(r.y), r.orientation.ToString();
    assert Text.NoSpace(o);
    if r.lost {
      assert Text.NoSpace("LOST");
      Text.Fields4(a, b, o, "LOST");
      assert r.ToString() == a + " " + b + " " + o + " " + "LOST";
    } else {
      Text.Fields3(a, b, o);
    }
  }

  /** A rendering ends in " LOST" exactly when the robot is lost; otherwise it ends in the orientation letter. */
  lemma ToStringSuffix(r: RobotState)
    ensures var s := r.ToString(); r.lost <==> s[|s| - 5..] == " LOST"
    ensures var s := r.ToString(); !r.lost ==> s[|s| - 1..] == r.orientation.ToString()
  {
    var base := Text.Itoa(r.x) + " " + Text.Itoa(r.y) + " " + r.orientation.ToString();
    assert base[|base| - 1..] == r.orientation.ToString() && base[|base| - 1] != 'T';
  }

  /** The renderings of the three final states of the sample session. */
  lemma SampleRenderings()
    ensures RobotState(1, 1, East, false).ToString() == "1 1 E"
    ensures RobotState(3, 3, North, true).ToString() == "3 3 N LOST"
    ensures RobotState(2, 3, South, false).ToString() == "2 3 S"
  {
    assert Text.Itoa(1) == "1" && Text.Itoa(2) == "2" && Text.Itoa(3) == "3";
  }

  class Robot {
    var X: int
    var Y: int
    var Orientation: Orientation
    var Lost: bool

    function State(): RobotState
      reads this
    {
      RobotState(X, Y, Orientation, Lost)
    }

    /** `NewRobot`: the given pose, not lost. */
    constructor (x: int, y: int, orientation: Orientation)
      ensures State() == RobotState(x, y, orientation, false)
    {
      X := x;
      Y := y;
      Orientation := orientation;
      Lost := false;
    }

    /** Overwrites the position; the orientation and the lost flag stay. */
    method MoveTo(x: int, y: int)
      modifies this
      ensures State() == old(State()).(x := x, y := y)
    {
      X := x;
      Y := y;
    }

    /** Sets the lost flag; position and orientation stay, and a second call changes nothing. */
    method MarkLost()
      modifies this
      ensures State() == old(State()).(lost := true)
    {
      Lost := true;
    }
  }
}
