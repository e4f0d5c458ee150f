/**
 * The three instructions (internal/domain/command.go), as a closed datatype
 * with one dispatch method instead of Go's `Command` interface.
 */
module Commands {
  import opened Orientations
  import opened Worlds
  import opened Robots

  datatype Command = LeftCommand | RightCommand | ForwardCommand

  /** The letter that stands for a command. */
  function Letter(c: Command): char {
    match c
    case LeftCommand => 'L'
    case RightCommand => 'R'
    case ForwardCommand => 'F'
  }

  /** The letters of a command list, in order. */
  function Letters(cs: seq<Command>): (s: string)
    ensures |s| == |cs| && forall i :: 0 <= i < |cs| ==> s[i] == Letter(cs[i])
  {
    if cs == [] then [] else Letters(cs[..|cs| - 1]) + [Letter(cs[|cs| - 1])]
  }

  /** Distinct command lists have distinct letters, so the letters determine the commands. */
  lemma {:induction false} LettersInjective(a: seq<Command>, b: seq<Command>)
    requires Letters(a) == Letters(b)
    ensures a == b
  {
    assert |a| == |b|;
    forall i | 0 <= i < |a|
      ensures a[i] == b[i]
    {
      assert Letter(a[i]) == Letters(a)[i] == Letters(b)[i] == Letter(b[i]);
    }
  }

  /** What an instruction acts on: the robot's state and the world's scents (the bounds are fixed). */
  datatype Snapshot = Snapshot(robot: RobotState, scents: set<Point>)

  /** A robot paired with its instructions (robot.go's `RobotRun`). */
  datatype RobotRun = RobotRun(robot: Robot, commands: seq<Command>)

  /**
   * The effect of one instruction on a world with bounds `maxX`, `maxY`.
   * Left and Right only turn (a lost robot too); Forward is the behaviour fixed by
   * tests at internal/domain/command_test.go:7-70; command.go's `ForwardCommand.Execute` only prints.
   */
  function Step(c: Command, maxX: int, maxY: int, s: Snapshot): Snapshot {
    match c
    case LeftCommand => s.(robot := s.robot.(orientation := s.robot.orientation.Left()))
    case RightCommand => s.(robot := s.robot.(orientation := s.robot.orientation.Right()))
    case ForwardCommand =>
      if s.robot.lost then s
      else
        var next := s.robot.NextPosition();
        var v := Judge(maxX, maxY, s.scents, Point(s.robot.x, s.robot.y), next);
        if v.lost then Snapshot(s.robot.(lost := true), v.scents)
        else if InBounds(maxX, maxY, next) then Snapshot(s.robot.(x := next.x, y := next.y), v.scents)
        else Snapshot(s.robot, v.scents)
  }

  /** Runs one instruction on `robot` against `world`. */
  method Execute(c: Command, robot: Robot, world: World)
    modifies robot, world
    ensures Snapshot(robot.State(), world.scents) ==
            Step(c, world.MaxX, world.MaxY, old(Snapshot(robot.State(), world.scents)))
  {
    match c
    case LeftCommand =>
      robot.Orientation := robot.Orientation.Left();
    case RightCommand =>
      robot.Orientation := robot.Orientation.Right();
    case ForwardCommand =>
      Forward(robot, world);
  }

  /**
   * Moves one cell ahead unless that would leave the grid: a lost robot stays as it is;
   * a fall from an unscented cell loses the robot where it stands; a fall from a
   * scented cell is refused and the robot stays put.
   * Behaviour fixed by tests at internal/domain/command_test.go:7-70; command.go's `ForwardCommand.Execute` only prints.
   */
  method Forward(robot: Robot, world: World)
    modifies robot, world
    ensures Snapshot(robot.State(), world.scents) ==
            Step(ForwardCommand, world.MaxX, world.MaxY, old(Snapshot(robot.State(), world.scents)))
  {
    if robot.Lost {
      return;
    }
    var next := robot.State().NextPosition();
    var lost := world.ProcessMove(robot.X, robot.Y, next.x, next.y);
    if lost {
      robot.MarkLost();
    } else if InBounds(world.MaxX, world.MaxY, next) {
      robot.MoveTo(next.x, next.y);
    }
  }

  /**
   * `ForwardCommand.Execute` as command.go has it: it only prints, so neither the
   * robot nor the world changes.
   */
  method ForwardAsWritten(robot: Robot, world: World)
    ensures Snapshot(robot.State(), world.scents) == old(Snapshot(robot.State(), world.scents))
  {
  }

  /**
   * The first Forward case of the command tests, a robot at (1, 1) facing North in
   * a 5 x 3 world, must move to (1, 2): `Step` does, so a command that changes
   * nothing, as `ForwardAsWritten` does, fails it.
   */
  lemma ForwardAsWrittenMissesTest(s: Snapshot)
    requires s == Snapshot(RobotState(1, 1, North, false), {})
    ensures Step(ForwardCommand, 5, 3, s) == Snapshot(RobotState(1, 2, North, false), {})
    ensures Step(ForwardCommand, 5, 3, s) != s
  {
  }

  /** A turn changes the orientation and nothing else, whether or not the robot is lost. */
  lemma TurnsOnlyRotate(maxX: int, maxY: int, s: Snapshot)
    ensures Step(LeftCommand, maxX, maxY, s) == s.(robot := s.robot.(orientation := s.robot.orientation.Left()))
    ensures Step(RightCommand, maxX, maxY, s) == s.(robot := s.robot.(orientation := s.robot.orientation.Right()))
  {
  }

  /** Forward into the grid moves to the next cell; the robot stays found and no scent is added. */
  lemma ForwardInBounds(maxX: int, maxY: int, s: Snapshot)
    requires !s.robot.lost && InBounds(maxX, maxY, s.robot.NextPosition())
    ensures var n := s.robot.NextPosition();
      Step(ForwardCommand, maxX, maxY, s) == Snapshot(s.robot.(x := n.x, y := n.y), s.scents)
  {
  }

  /** Forward off the grid from an unscented cell: lost in place, and the cell is scented. */
  lemma ForwardFalls(maxX: int, maxY: int, s: Snapshot)
    requires !s.robot.lost && !InBounds(maxX, maxY, s.robot.NextPosition())
    requires Point(s.robot.x, s.robot.y) !in s.scents
    ensures Step(ForwardCommand, maxX, maxY, s) ==
            Snapshot(s.robot.(lost := true), s.scents + {Point(s.robot.x, s.robot.y)})
  {
  }

  /** Forward off the grid from a scented cell is ignored. */
  lemma ForwardProtected(maxX: int, maxY: int, s: Snapshot)
    requires !s.robot.lost && !InBounds(maxX, maxY, s.robot.NextPosition())
    requires Point(s.robot.x, s.robot.y) in s.scents
    ensures Step(ForwardCommand, maxX, maxY, s) == s
  {
  }

  /** Forward does nothing to a robot that is already lost. */
  lemma ForwardWhenLost(maxX: int, maxY: int, s: Snapshot)
    requires s.robot.lost
    ensures Step(ForwardCommand, maxX, maxY, s) == s
  {
  }

  /**
   * What every instruction keeps: scents are never removed and at most the robot's
   * cell is added; a lost robot stays lost and does not move; a robot on the grid
   * stays on it; a robot that becomes lost scents the cell where it stands.
   */
  lemma StepInvariants(c: Command, maxX: int, maxY: int, s: Snapshot)
    ensures var t := Step(c, maxX, maxY, s);
      && s.scents <= t.scents <= s.scents + {Point(s.robot.x, s.robot.y)}
      && (s.robot.lost ==> t.robot.lost && t.robot.x == s.robot.x && t.robot.y == s.robot.y)
      && (InBounds(maxX, maxY, Point(s.robot.x, s.robot.y)) ==> InBounds(maxX, maxY, Point(t.robot.x, t.robot.y)))
      && (!s.robot.lost && t.robot.lost ==> Point(t.robot.x, t.robot.y) in t.scents)
  {
  }
}
