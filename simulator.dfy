/**
 * The runner (internal/simulator/simulator.go): executes a robot's
 * instructions in order and stops right after the one that loses it.
 */
module Simulator {
  import opened Orientations
  import opened Worlds
  import opened Robots
  import opened Commands

  /** The state after running `commands` from `s`, stopping right after the first instruction that leaves the robot lost. */
  function Run(commands: seq<Command>, maxX: int, maxY: int, s: Snapshot): Snapshot
    decreases |commands|
  {
    if commands == [] then s
    else
      var t := Step(commands[0], maxX, maxY, s);
      if t.robot.lost then t else Run(commands[1..], maxX, maxY, t)
  }

  /** The state after running every one of `commands`, with no early stop. */
  function StepAll(commands: seq<Command>, maxX: int, maxY: int, s: Snapshot): Snapshot
    decreases |commands|
  {
    if commands == [] then s else StepAll(commands[1..], maxX, maxY, Step(commands[0], maxX, maxY, s))
  }

  /** How many instructions `Run` executes. */
  function Executed(commands: seq<Command>, maxX: int, maxY: int, s: Snapshot): nat
    decreases |commands|
  {
    if commands == [] then 0
    else
      var t := Step(commands[0], maxX, maxY, s);
      if t.robot.lost then 1 else 1 + Executed(commands[1..], maxX, maxY, t)
  }

  class Simulator {
    constructor () {}

    /** `RunRobot`: runs `commands` in order on `robot` against `world`, stopping once the robot is lost. */
    method RunRobot(robot: Robot, world: World, commands: seq<Command>)
      modifies robot, world
      ensures Snapshot(robot.State(), world.scents) ==
              Run(commands, world.MaxX, world.MaxY, old(Snapshot(robot.State(), world.scents)))
    {
      ghost var start := Snapshot(robot.State(), world.scents);
      var i := 0;
      while i < |commands|
        invariant 0 <= i <= |commands|
        invariant Run(commands, world.MaxX, world.MaxY, start) ==
                  Run(commands[i..], world.MaxX, world.MaxY, Snapshot(robot.State(), world.scents))
      {
        Execute(commands[i], robot, world);
        if robot.Lost {
          break;
        }
        i := i + 1;
      }
    }
  }

  /** The executed instructions are a non-empty prefix when there are any, and never more than the list. */
  lemma {:induction false} ExecutedBounds(commands: seq<Command>, maxX: int, maxY: int, s: Snapshot)
    ensures Executed(commands, maxX, maxY, s) <= |commands|
    ensures commands != [] ==> Executed(commands, maxX, maxY, s) >= 1
    decreases |commands|
  {
    if commands != [] {
      var t := Step(commands[0], maxX, maxY, s);
      if !t.robot.lost {
        ExecutedBounds(commands[1..], maxX, maxY, t);
      }
    }
  }

  lemma PrefixTail(commands: seq<Command>, j: nat)
    requires 1 <= j <= |commands|
    ensures commands[..j][0] == commands[0] && commands[..j][1..] == commands[1..][..j - 1]
  {
  }

  /**
   * `Run` is the first `Executed` instructions run without stopping: the robot is
   * not lost after any shorter prefix, and the run ends early only because the
   * robot is lost.
   */
  lemma {:induction false} RunIsExecutedPrefix(commands: seq<Command>, maxX: int, maxY: int, s: Snapshot)
    ensures var k := Executed(commands, maxX, maxY, s);
      && k <= |commands|
      && Run(commands, maxX, maxY, s) == StepAll(commands[..k], maxX, maxY, s)
      && (forall j :: 1 <= j < k ==> !StepAll(commands[..j], maxX, maxY, s).robot.lost)
      && (k < |commands| ==> Run(commands, maxX, maxY, s).robot.lost)
    decreases |commands|
  {
    ExecutedBounds(commands, maxX, maxY, s);
    if commands != [] {
      var t := Step(commands[0], maxX, maxY, s);
      var k := Executed(commands, maxX, maxY, s);
      PrefixTail(commands, k);
      if t.robot.lost {
        assert k == 1;
        assert StepAll(commands[..1][1..], maxX, maxY, t) == t;
      } else {
        RunIsExecutedPrefix(commands[1..], maxX, maxY, t);
        forall j | 1 <= j < k
          ensures !StepAll(commands[..j], maxX, maxY, s).robot.lost
        {
          PrefixTail(commands, j);
          if j == 1 {
            assert StepAll(commands[..j][1..], maxX, maxY, t) == t;
          }
        }
      }
    }
  }

  /** A run that ends with the robot not lost has executed every instruction. */
  lemma {:induction false} NotLostRunsAll(commands: seq<Command>, maxX: int, maxY: int, s: Snapshot)
    requires !Run(commands, maxX, maxY, s).robot.lost
    ensures Executed(commands, maxX, maxY, s) == |commands|
    ensures Run(commands, maxX, maxY, s) == StepAll(commands, maxX, maxY, s)
    decreases |commands|
  {
    if commands != [] {
      var t := Step(commands[0], maxX, maxY, s);
      NotLostRunsAll(commands[1..], maxX, maxY, t);
    }
  }

  /** A robot already lost on entry still runs the first instruction, and only that one. */
  lemma LostOnEntry(commands: seq<Command>, maxX: int, maxY: int, s: Snapshot)
    requires s.robot.lost && commands != []
    ensures Run(commands, maxX, maxY, s) == Step(commands[0], maxX, maxY, s)
    ensures Executed(commands, maxX, maxY, s) == 1
  {
    StepInvariants(commands[0], maxX, maxY, s);
  }

  /** The scent set only grows over a run; a lost robot keeps its position. */
  lemma {:induction false} RunInvariants(commands: seq<Command>, maxX: int, maxY: int, s: Snapshot)
    ensures s.scents <= Run(commands, maxX, maxY, s).scents
    ensures s.robot.lost ==>
              (Run(commands, maxX, maxY, s).robot.lost &&
               Run(commands, maxX, maxY, s).robot.x == s.robot.x && Run(commands, maxX, maxY, s).robot.y == s.robot.y)
    ensures InBounds(maxX, maxY, Point(s.robot.x, s.robot.y)) ==>
              InBounds(maxX, maxY, Point(Run(commands, maxX, maxY, s).robot.x, Run(commands, maxX, maxY, s).robot.y))
    decreases |commands|
  {
    if commands != [] {
      var t := Step(commands[0], maxX, maxY, s);
      StepInvariants(commands[0], maxX, maxY, s);
      if !t.robot.lost {
        RunInvariants(commands[1..], maxX, maxY, t);
      }
    }
  }

  /** An empty instruction list leaves the robot and the scents as they were, and executes nothing. */
  lemma RunEmpty(maxX: int, maxY: int, s: Snapshot)
    ensures Run([], maxX, maxY, s) == s && Executed([], maxX, maxY, s) == 0
  {
  }

  /** `Run` unfolded once, for a known state after the first instruction. */
  lemma RunStep(commands: seq<Command>, c: Command, maxX: int, maxY: int, s: Snapshot, t: Snapshot)
    requires commands != [] && commands[0] == c && t == Step(c, maxX, maxY, s)
    ensures Run(commands, maxX, maxY, s) == if t.robot.lost then t else Run(commands[1..], maxX, maxY, t)
  {
  }

  // The sample session on World(5, 3): three robots run one after another on
  // the same scents. The second falls off at (3, 3) and scents it; the third
  // later tries the same fall from (3, 3), is refused, and ends at (2, 3) facing South.

  /** Robot "1 1 E" with "RFRFRFRF" comes back to its start, not lost (rendered "1 1 E"). */
  lemma SampleFirstRobot(cs: seq<Command>)
    requires Letters(cs) == "RFRFRFRF"
    ensures Run(cs, 5, 3, Snapshot(RobotState(1, 1, East, false), {})) ==
            Snapshot(RobotState(1, 1, East, false), {})
  {
    RunStep(cs, RightCommand, 5, 3, Snapshot(RobotState(1, 1, East, false), {}), Snapshot(RobotState(1, 1, South, false), {}));
    RunStep(cs[1..], ForwardCommand, 5, 3, Snapshot(RobotState(1, 1, South, false), {}), Snapshot(RobotState(1, 0, South, false), {}));
    RunStep(cs[2..], RightCommand, 5, 3, Snapshot(RobotState(1, 0, South, false), {}), Snapshot(RobotState(1, 0, West, false), {}));
    RunStep(cs[3..], ForwardCommand, 5, 3, Snapshot(RobotState(1, 0, West, false), {}), Snapshot(RobotState(0, 0, West, false), {}));
    RunStep(cs[4..], RightCommand, 5, 3, Snapshot(RobotState(0, 0, West, false), {}), Snapshot(RobotState(0, 0, North, false), {}));
    RunStep(cs[5..], ForwardCommand, 5, 3, Snapshot(RobotState(0, 0, North, false), {}), Snapshot(RobotState(0, 1, North, false), {}));
    RunStep(cs[6..], RightCommand, 5, 3, Snapshot(RobotState(0, 1, North, false), {}), Snapshot(RobotState(0, 1, East, false), {}));
    RunStep(cs[7..], ForwardCommand, 5, 3, Snapshot(RobotState(0, 1, East, false), {}), Snapshot(RobotState(1, 1, East, false), {}));
    assert cs[8..] == [];
  }

  /** Robot "3 2 N" with "FRRFLLFFRRFLL", on the (empty) scents the first robot left, is lost at (3, 3) and scents it (rendered "3 3 N LOST"). */
  lemma SampleSecondRobot(cs: seq<Command>)
    requires Letters(cs) == "FRRFLLFFRRFLL"
    ensures Run(cs, 5, 3, Snapshot(RobotState(3, 2, North, false), {})) ==
            Snapshot(RobotState(3, 3, North, true), {Point(3, 3)})
  {
    RunStep(cs, ForwardCommand, 5, 3, Snapshot(RobotState(3, 2, North, false), {}), Snapshot(RobotState(3, 3, North, false), {}));
    RunStep(cs[1..], RightCommand, 5, 3, Snapshot(RobotState(3, 3, North, false), {}), Snapshot(RobotState(3, 3, East, false), {}));
    RunStep(cs[2..], RightCommand, 5, 3, Snapshot(RobotState(3, 3, East, false), {}), Snapshot(RobotState(3, 3, South, false), {}));
    RunStep(cs[3..], ForwardCommand, 5, 3, Snapshot(RobotState(3, 3, South, false), {}), Snapshot(RobotState(3, 2, South, false), {}));
    RunStep(cs[4..], LeftCommand, 5, 3, Snapshot(RobotState(3, 2, South, false), {}), Snapshot(RobotState(3, 2, East, false), {}));
    RunStep(cs[5..], LeftCommand, 5, 3, Snapshot(RobotState(3, 2, East, false), {}), Snapshot(RobotState(3, 2, North, false), {}));
    RunStep(cs[6..], ForwardCommand, 5, 3, Snapshot(RobotState(3, 2, North, false), {}), Snapshot(RobotState(3, 3, North, false), {}));
    RunStep(cs[7..], ForwardCommand, 5, 3, Snapshot(RobotState(3, 3, North, false), {}), Snapshot(RobotState(3, 3, North, true), {Point(3, 3)}));
  }

  /** Robot "0 3 W" with "LLFFFLFLFL", on the scents the second robot left, is saved at (3, 3) and ends at (2, 3) facing South (rendered "2 3 S"). */
  lemma SampleThirdRobot(cs: seq<Command>)
    requires Letters(cs) == "LLFFFLFLFL"
    ensures Run(cs, 5, 3, Snapshot(RobotState(0, 3, West, false), {Point(3, 3)})) ==
            Snapshot(RobotState(2, 3, South, false), {Point(3, 3)})
  {
    RunStep(cs, LeftCommand, 5, 3, Snapshot(RobotState(0, 3, West, false), {Point(3, 3)}), Snapshot(RobotState(0, 3, South, false), {Point(3, 3)}));
    RunStep(cs[1..], LeftCommand, 5, 3, Snapshot(RobotState(0, 3, South, false), {Point(3, 3)}), Snapshot(RobotState(0, 3, East, false), {Point(3, 3)}));
    RunStep(cs[2..], ForwardCommand, 5, 3, Snapshot(RobotState(0, 3, East, false), {Point(3, 3)}), Snapshot(RobotState(1, 3, East, false), {Point(3, 3)}));
    RunStep(cs[3..], ForwardCommand, 5, 3, Snapshot(RobotState(1, 3, East, false), {Point(3, 3)}), Snapshot(RobotState(2, 3, East, false), {Point(3, 3)}));
    RunStep(cs[4..], ForwardCommand, 5, 3, Snapshot(RobotState(2, 3, East, false), {Point(3, 3)}), Snapshot(RobotState(3, 3, East, false), {Point(3, 3)}));
    RunStep(cs[5..], LeftCommand, 5, 3, Snapshot(RobotState(3, 3, East, false), {Point(3, 3)}), Snapshot(RobotState(3, 3, North, false), {Point(3, 3)}));
    RunStep(cs[6..], ForwardCommand, 5, 3, Snapshot(RobotState(3, 3, North, false), {Point(3, 3)}), Snapshot(RobotState(3, 3, North, false), {Point(3, 3)}));
    RunStep(cs[7..], LeftCommand, 5, 3, Snapshot(RobotState(3, 3, North, false), {Point(3, 3)}), Snapshot(RobotState(3, 3, West, false), {Point(3, 3)}));
    RunStep(cs[8..], ForwardCommand, 5, 3, Snapshot(RobotState(3, 3, West, false), {Point(3, 3)}), Snapshot(RobotState(2, 3, West, false), {Point(3, 3)}));
    RunStep(cs[9..], LeftCommand, 5, 3, Snapshot(RobotState(2, 3, West, false), {Point(3, 3)}), Snapshot(RobotState(2, 3, South, false), {Point(3, 3)}));
  }

  /** Without the scent left by the second robot, the third robot of the sample would be lost at (3, 3). */
  lemma SampleNeedsScent(cs: seq<Command>)
    requires Letters(cs) == "LLFFFLFLFL"
    ensures Run(cs, 5, 3, Snapshot(RobotState(0, 3, West, false), {})) ==
            Snapshot(RobotState(3, 3, North, true), {Point(3, 3)})
  {
    RunStep(cs, LeftCommand, 5, 3, Snapshot(RobotState(0, 3, West, false), {}), Snapshot(RobotState(0, 3, South, false), {}));
    RunStep(cs[1..], LeftCommand, 5, 3, Snapshot(RobotState(0, 3, South, false), {}), Snapshot(RobotState(0, 3, East, false), {}));
    RunStep(cs[2..], ForwardCommand, 5, 3, Snapshot(RobotState(0, 3, East, false), {}), Snapshot(RobotState(1, 3, East, false), {}));
    RunStep(cs[3..], ForwardCommand, 5, 3, Snapshot(RobotState(1, 3, East, false), {}), Snapshot(RobotState(2, 3, East, false), {}));
    RunStep(cs[4..], ForwardCommand, 5, 3, Snapshot(RobotState(2, 3, East, false), {}), Snapshot(RobotState(3, 3, East, false), {}));
    RunStep(cs[5..], LeftCommand, 5, 3, Snapshot(RobotState(3, 3, East, false), {}), Snapshot(RobotState(3, 3, North, false), {}));
    RunStep(cs[6..], ForwardCommand, 5, 3, Snapshot(RobotState(3, 3, North, false), {}), Snapshot(RobotState(3, 3, North, true), {Point(3, 3)}));
  }

  /** A robot stepping south off the corner (0, 0) is lost there and scents it. */
  lemma CornerFall()
    ensures Run([ForwardCommand], 5, 3, Snapshot(RobotState(0, 0, South, false), {})) ==
            Snapshot(RobotState(0, 0, South, true), {Point(0, 0)})
  {
    var s := Snapshot(RobotState(0, 0, South, false), {});
    assert Step(ForwardCommand, 5, 3, s) == Snapshot(RobotState(0, 0, South, true), {Point(0, 0)});
  }

  /** A later robot making the same step from the scented corner is not lost and stays at (0, 0). */
  lemma CornerSaved()
    ensures Run([ForwardCommand], 5, 3, Snapshot(RobotState(0, 0, South, false), {Point(0, 0)})) ==
            Snapshot(RobotState(0, 0, South, false), {Point(0, 0)})
  {
    var s := Snapshot(RobotState(0, 0, South, false), {Point(0, 0)});
    assert Step(ForwardCommand, 5, 3, s) == s;
  }
}
