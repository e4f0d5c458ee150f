/**
 * The input parser (internal/parsing/input_parser.go). The input is a
 * sequence of lines and a cursor into it, standing in for `bufio.Scanner`:
 * reading a line is `lines[i]` followed by `i + 1`, and the scanner is
 * exhausted when `i == |lines|`.
 *
 * The loops are methods; what they compute is stated by functions over the
 * lines not yet read (`NextBlock`, `Blocks`, `KeepCommandLetters`).
 */
module Parsing {
  import opened Wrappers
  import opened Text
  import opened Orientations
  import Worlds
  import RobotModel = Robots
  import opened Commands

  /** One constructor per error the Go code returns. */
  datatype ParseError =
    | MissingWorldBounds
    | MalformedBounds(line: string)
    | MaxXNotInteger
    | MaxYNotInteger
    | NegativeMaxX
    | NegativeMaxY
    | MalformedPosition(line: string)
    | RobotXNotInteger
    | RobotYNotInteger
    | BadOrientation(reason: OrientationError)
    | MissingInstructionLine
    | ParsingRobots(cause: ParseError)

  // ---------------------------------------------------------------- bounds line

  /** The checks on the bounds line, in the order the Go code makes them. */
  function ParseBounds(line: string): (r: Result<(int, int), ParseError>)
    ensures r.Ok? <==>
      var f := Fields(line);
      |f| == 2 && Atoi(f[0]).Some? && Atoi(f[1]).Some? && Atoi(f[0]).value >= 0 && Atoi(f[1]).value >= 0
    ensures r.Ok? ==> r.value == (Atoi(Fields(line)[0]).value, Atoi(Fields(line)[1]).value)
    ensures r.Ok? ==> r.value.0 >= 0 && r.value.1 >= 0
  {
    var parts := Fields(line);
    if |parts| != 2 then Err(MalformedBounds(line))
    else
      match Atoi(parts[0])
      case None => Err(MaxXNotInteger)
      case Some(maxX) =>
        match Atoi(parts[1])
        case None => Err(MaxYNotInteger)
        case Some(maxY) =>
          if maxX < 0 then Err(NegativeMaxX)
          else if maxY < 0 then Err(NegativeMaxY)
          else Ok((maxX, maxY))
  }

  /** `World`: reads the bounds line at the cursor and builds an empty world with those bounds. */
  method World(lines: seq<string>, pos: nat) returns (r: Result<Worlds.World, ParseError>, next: nat)
    requires pos <= |lines|
    ensures pos == |lines| ==> r == Err(MissingWorldBounds) && next == pos
    ensures pos < |lines| ==> next == pos + 1
    ensures pos < |lines| && ParseBounds(lines[pos]).Err? ==> r == Err(ParseBounds(lines[pos]).error)
    ensures pos < |lines| && ParseBounds(lines[pos]).Ok? ==>
              r.Ok? && fresh(r.value) && r.value.scents == {} &&
              (r.value.MaxX, r.value.MaxY) == ParseBounds(lines[pos]).value
  {
    if pos == |lines| {
      return Err(MissingWorldBounds), pos;
    }
    var bounds := lines[pos];
    next := pos + 1;
    match ParseBounds(bounds)
    case Err(e) =>
      r := Err(e);
    case Ok(b) =>
      var world := new Worlds.World(b.0, b.1);
      r := Ok(world);
  }

  // ------------------------------------------------------------- robot blocks

  /** A robot block: the start state (never lost) and the trimmed instruction line. */
  datatype Block = Block(start: RobotModel.RobotState, instructions: string)

  /** The checks on a (trimmed) position line, in the order the Go code makes them. */
  function ParsePosition(line: string): (r: Result<RobotModel.RobotState, ParseError>)
    ensures r.Ok? <==>
      var f := Fields(line);
      |f| == 3 && Atoi(f[0]).Some? && Atoi(f[1]).Some? && OrientationFromString(f[2]).Ok?
    ensures r.Ok? ==> !r.value.lost && r.value.orientation.ToString() == Fields(line)[2]
    ensures r.Ok? ==> r.value.x == Atoi(Fields(line)[0]).value && r.value.y == Atoi(Fields(line)[1]).value
  {
    var parts := Fields(line);
    if |parts| != 3 then Err(MalformedPosition(line))
    else
      match Atoi(parts[0])
      case None => Err(RobotXNotInteger)
      case Some(x) =>
        match Atoi(parts[1])
        case None => Err(RobotYNotInteger)
        case Some(y) =>
          match OrientationFromString(parts[2])
          case Err(e) => Err(BadOrientation(e))
          case Ok(o) => Ok(RobotModel.RobotState(x, y, o, false))
  }

  /** The outcome of reading from the cursor: a result and the cursor afterwards. */
  datatype Scan = Scan(result: Result<Option<Block>, ParseError>, next: nat)

  /**
   * What `parseRobot` reads from the cursor `pos`: blank lines are skipped; then a
   * position line and the line after it make a block. No line left means no
   * robot and no error.
   */
  function NextBlock(lines: seq<string>, pos: nat): (r: Scan)
    requires pos <= |lines|
    ensures pos <= r.next <= |lines|
    ensures r.result.Ok? && r.result.value.Some? ==> pos + 2 <= r.next
    decreases |lines| - pos
  {
    if pos == |lines| then Scan(Ok(None), pos)
    else
      var line := TrimSpace(lines[pos]);
      if line == [] then NextBlock(lines, pos + 1)
      else
        match ParsePosition(line)
        case Err(e) => Scan(Err(e), pos + 1)
        case Ok(start) =>
          if pos + 1 == |lines| then Scan(Err(MissingInstructionLine), pos + 1)
          else Scan(Ok(Some(Block(start, TrimSpace(lines[pos + 1])))), pos + 2)
  }

  /**
   * What `Robots` returns when it reaches the cursor `pos` having read the blocks
   * `done`: those blocks followed by every block from `pos` on, or the error of the
   * first malformed block.
   */
  function BlocksFrom(lines: seq<string>, pos: nat, done: seq<Block>): Result<seq<Block>, ParseError>
    requires pos <= |lines|
    decreases |lines| - pos
  {
    var scan := NextBlock(lines, pos);
    match scan.result
    case Err(e) => Err(ParsingRobots(e))
    case Ok(None) => Ok(done)
    case Ok(Some(b)) => BlocksFrom(lines, scan.next, done + [b])
  }

  /** One step of `BlocksFrom`: the outcome of the block at the cursor decides the rest. */
  lemma BlocksFromStep(lines: seq<string>, pos: nat, done: seq<Block>, scan: Scan)
    requires pos <= |lines| && scan == NextBlock(lines, pos)
    ensures scan.result.Err? ==> BlocksFrom(lines, pos, done) == Err(ParsingRobots(scan.result.error))
    ensures scan.result == Ok(None) ==> BlocksFrom(lines, pos, done) == Ok(done)
    ensures scan.result.Ok? && scan.result.value.Some? ==>
              BlocksFrom(lines, pos, done) == BlocksFrom(lines, scan.next, done + [scan.result.value.value])
  {
  }

  /** What `Robots` reads from the cursor `pos`: every block in order, or the first malformed block's error. */
  function Blocks(lines: seq<string>, pos: nat): Result<seq<Block>, ParseError>
    requires pos <= |lines|
  {
    BlocksFrom(lines, pos, [])
  }

  /** `parseRobot`: skips blank lines, then reads a robot block at the cursor. */
  method ParseRobot(lines: seq<string>, pos: nat)
    returns (r: Result<Option<(RobotModel.Robot, string)>, ParseError>, next: nat)
    requires pos <= |lines|
    ensures next == NextBlock(lines, pos).next
    ensures NextBlock(lines, pos).result.Err? ==> r == Err(NextBlock(lines, pos).result.error)
    ensures NextBlock(lines, pos).result == Ok(None) ==> r == Ok(None)
    ensures NextBlock(lines, pos).result.Ok? && NextBlock(lines, pos).result.value.Some? ==>
              var b := NextBlock(lines, pos).result.value.value;
              r.Ok? && r.value.Some? && fresh(r.value.value.0) &&
              r.value.value.0.State() == b.start && r.value.value.1 == b.instructions
  {
    var i := pos;
    while true
      invariant pos <= i <= |lines|
      invariant NextBlock(lines, pos) == NextBlock(lines, i)
      decreases |lines| - i
    {
      if i == |lines| {
        return Ok(None), i;
      }
      var line := TrimSpace(lines[i]);
      i := i + 1;
      if line == [] {
        continue;
      }
      match ParsePosition(line)
      case Err(e) =>
        return Err(e), i;
      case Ok(start) =>
        var robot := new RobotModel.Robot(start.x, start.y, start.orientation);
        if i == |lines| {
          return Err(MissingInstructionLine), i;
        }
        var instructions := TrimSpace(lines[i]);
        return Ok(Some((robot, instructions))), i + 1;
    }
  }

  /** The parsed run `run` is block `b`: same start state, and the instructions' command letters. */
  ghost predicate RunOf(run: RobotRun, b: Block)
    reads run.robot
  {
    run.robot.State() == b.start && Letters(run.commands) == KeepCommandLetters(b.instructions)
  }

  /** No two runs share a robot. */
  predicate DistinctRobots(runs: seq<RobotRun>) {
    forall j, k :: 0 <= j < k < |runs| ==> runs[j].robot != runs[k].robot
  }

  lemma DistinctAppend(runs: seq<RobotRun>, run: RobotRun)
    requires DistinctRobots(runs)
    requires forall k :: 0 <= k < |runs| ==> runs[k].robot != run.robot
    ensures DistinctRobots(runs + [run])
  {
  }

  /** One `Robots` iteration: `parseRobot` at the cursor, then `parseCommands` on its instruction line. */
  method ReadRun(lines: seq<string>, pos: nat)
    returns (r: Result<Option<RobotRun>, ParseError>, next: nat, ghost scan: Scan)
    requires pos <= |lines|
    ensures scan == NextBlock(lines, pos) && next == scan.next
    ensures scan.result.Err? ==> r == Err(scan.result.error)
    ensures scan.result == Ok(None) ==> r == Ok(None)
    ensures scan.result.Ok? && scan.result.value.Some? ==>
              r.Ok? && r.value.Some? && fresh(r.value.value.robot) && RunOf(r.value.value, scan.result.value.value)
  {
    scan := NextBlock(lines, pos);
    var res;
    res, next := ParseRobot(lines, pos);
    match res
    case Err(e) => r := Err(e);
    case Ok(None) => r := Ok(None);
    case Ok(Some(parsed)) =>
      var commands := ParseCommands(parsed.1);
      r := Ok(Some(RobotRun(parsed.0, commands)));
  }

  /** `Robots`: reads robot blocks until the input ends, failing on the first malformed one. */
  method Robots(lines: seq<string>, pos: nat) returns (r: Result<seq<RobotRun>, ParseError>)
    requires pos <= |lines|
    ensures Blocks(lines, pos).Err? ==> r == Err(Blocks(lines, pos).error)
    ensures Blocks(lines, pos).Ok? ==>
              r.Ok? && |r.value| == |Blocks(lines, pos).value| &&
              forall k :: 0 <= k < |r.value| ==> RunOf(r.value[k], Blocks(lines, pos).value[k])
    ensures r.Ok? ==> forall k :: 0 <= k < |r.value| ==> fresh(r.value[k].robot)
    ensures r.Ok? ==> DistinctRobots(r.value)
  {
    var runs: seq<RobotRun> := [];
    ghost var done: seq<Block> := [];
    ghost var made: set<RobotModel.Robot> := {};
    ghost var all := Blocks(lines, pos);
    var i := pos;
    while true
      invariant pos <= i <= |lines|
      invariant all == BlocksFrom(lines, i, done)
      invariant |runs| == |done| && forall k :: 0 <= k < |runs| ==> RunOf(runs[k], done[k])
      invariant fresh(made)
      invariant forall k :: 0 <= k < |runs| ==> runs[k].robot in made
      invariant DistinctRobots(runs)
      decreases |lines| - i
    {
      var res, next, scan := ReadRun(lines, i);
      BlocksFromStep(lines, i, done, scan);
      if res.Err? {
        return Err(ParsingRobots(res.error));
      }
      if res.value.None? {
        break;
      }
      var run := res.value.value;
      assert run.robot !in made;
      DistinctAppend(runs, run);
      runs := runs + [run];
      done := done + [scan.result.value.value];
      made := made + {run.robot};
      i := next;
    }
    return Ok(runs);
  }

  // ---------------------------------------------------------------- instructions

  predicate IsCommandLetter(c: char) {
    c == 'L' || c == 'R' || c == 'F'
  }

  /** The characters of `s` that are L, R or F, in order; every other character is dropped. */
  function KeepCommandLetters(s: string): (r: string)
    ensures |r| <= |s|
  {
    if s == [] then []
    else
      var last := s[|s| - 1];
      KeepCommandLetters(s[..|s| - 1]) + (if IsCommandLetter(last) then [last] else [])
  }

  /** Only command letters are kept, and a line made of command letters alone is kept whole. */
  lemma {:induction false} KeepCommandLettersSpec(s: string)
    ensures forall i :: 0 <= i < |KeepCommandLetters(s)| ==> IsCommandLetter(KeepCommandLetters(s)[i])
    ensures (forall i :: 0 <= i < |s| ==> IsCommandLetter(s[i])) ==> KeepCommandLetters(s) == s
  {
    if s != [] {
      var init := s[..|s| - 1];
      KeepCommandLettersSpec(init);
      assert forall i :: 0 <= i < |init| ==> init[i] == s[i];
    }
  }

  /** `parseCommands`: one command per L, R or F, in order; other characters are skipped. */
  method ParseCommands(instructions: string) returns (commands: seq<Command>)
    ensures Letters(commands) == KeepCommandLetters(instructions)
  {
    commands := [];
    for i := 0 to |instructions|
      invariant Letters(commands) == KeepCommandLetters(instructions[..i])
    {
      var c := instructions[i];
      assert instructions[..i + 1][..i] == instructions[..i];
      assert KeepCommandLetters(instructions[..i + 1]) ==
        KeepCommandLetters(instructions[..i]) + (if IsCommandLetter(c) then [c] else []);
      ghost var before := commands;
      if c == 'L' {
        commands := commands + [LeftCommand];
      } else if c == 'R' {
        commands := commands + [RightCommand];
      } else if c == 'F' {
        commands := commands + [ForwardCommand];
      }
      assert commands != before ==> commands[..|commands| - 1] == before;
    }
    assert instructions[..|instructions|] == instructions;
  }

  /** Filtering works character by character: it distributes over concatenation. */
  lemma {:induction false} KeepCommandLettersAppend(a: string, b: string)
    ensures KeepCommandLetters(a + b) == KeepCommandLetters(a) + KeepCommandLetters(b)
    decreases |b|
  {
    if b == [] {
      assert a + b == a;
    } else {
      var b' := b[..|b| - 1];
      assert (a + b)[..|a + b| - 1] == a + b';
      KeepCommandLettersAppend(a, b');
    }
  }

  /** Appending one character: a command letter is kept at the end, any other character adds nothing. */
  lemma KeepCommandLettersSnoc(s: string, c: char)
    ensures IsCommandLetter(c) ==> KeepCommandLetters(s + [c]) == KeepCommandLetters(s) + [c]
    ensures !IsCommandLetter(c) ==> KeepCommandLetters(s + [c]) == KeepCommandLetters(s)
  {
    assert (s + [c])[..|s + [c]| - 1] == s;
  }

  /**
   * Counting: each of L, R and F occurs as often in the result as in the
   * line, and no other character occurs in it, so there is one command per
   * command letter.
   */
  lemma {:induction false} KeepCommandLettersCounts(s: string)
    ensures forall c :: multiset(KeepCommandLetters(s))[c] == if IsCommandLetter(c) then multiset(s)[c] else 0
  {
    if s != [] {
      var init, last := s[..|s| - 1], s[|s| - 1];
      assert s == init + [last];
      KeepCommandLettersCounts(init);
      KeepCommandLettersSnoc(init, last);
    }
  }

  /** An instruction line made only of command letters is kept whole, and an empty one gives no commands. */
  lemma KeepCommandLettersWhole()
    ensures KeepCommandLetters("RFRFRFRF") == "RFRFRFRF"
    ensures KeepCommandLetters("LLLL") == "LLLL"
    ensures KeepCommandLetters("") == ""
  {
    KeepCommandLettersSpec("RFRFRFRF");
    KeepCommandLettersSpec("LLLL");
  }

  /** The instruction lines of the three-robot sample session are kept whole. */
  lemma KeepCommandLettersSampleLines()
    ensures KeepCommandLetters("RFRFRFRF") == "RFRFRFRF"
    ensures KeepCommandLetters("FRRFLLFFRRFLL") == "FRRFLLFFRRFLL"
    ensures KeepCommandLetters("LLFFFLFLFL") == "LLFFFLFLFL"
  {
    assert KeepCommandLetters("RFRFRFRF") == "RFRFRFRF" by {
      KeepCommandLettersSpec("RFRFRFRF");
    }
    assert KeepCommandLetters("FRRFLLFFRRFLL") == "FRRFLLFFRRFLL" by {
      KeepCommandLettersSpec("FRRFLLFFRRFLL");
    }
    assert KeepCommandLetters("LLFFFLFLFL") == "LLFFFLFLFL" by {
      KeepCommandLettersSpec("LLFFFLFLFL");
    }
  }

  /** The unknown letter of "LXR" is dropped, leaving two commands. */
  lemma KeepCommandLettersDropsUnknown(s: string)
    requires s == "LXR"
    ensures KeepCommandLetters(s) == "LR"
  {
    assert s == "L" + "X" + "R";
    KeepCommandLettersAppend("L" + "X", "R");
    KeepCommandLettersAppend("L", "X");
  }


  /** The bounds line "5 3" gives the bounds (5, 3). */
  lemma ParseBoundsPlain(line: string)
    requires line == "5 3"
    ensures ParseBounds(line) == Ok((5, 3))
  {
    assert Fields(line) == ["5", "3"] by {
      assert line == "5" + " " + "3";
      FieldsWordSpace("5", "3");
      FieldsCons("3", "");
      assert "3" + "" == "3";
    }
    AtoiItoa(5);
    AtoiItoa(3);
    assert Itoa(5) == "5" && Itoa(3) == "3";
  }

  /** Extra spaces around and between the numbers are accepted. */
  lemma ParseBoundsExtraSpaces(line: string)
    requires line == "   5     3  "
    ensures ParseBounds(line) == Ok((5, 3))
  {
    assert Fields(line) == ["5", "3"] by {
      var tail := "3" + "  ";
      FieldsCons("3", "  ");
      FieldsSkipSpace("  ", "");
      assert "  " + "" == "  ";
      var mid := "    " + tail;
      FieldsSkipSpace("    ", tail);
      var word := "5" + " " + mid;
      FieldsWordSpace("5", mid);
      assert Fields(word) == ["5", "3"];
      FieldsSkipSpace("   ", word);
      assert line == "   " + word;
    }
    AtoiItoa(5);
    AtoiItoa(3);
    assert Itoa(5) == "5" && Itoa(3) == "3";
  }

  /** A bounds line with a single number is an error. */
  lemma ParseBoundsOneNumber(line: string)
    requires line == "5"
    ensures ParseBounds(line) == Err(MalformedBounds("5"))
  {
    FieldsCons("5", "");
    assert "5" + "" == "5";
  }

  /** A bounds line with a non-number is an error. */
  lemma ParseBoundsNotNumber(line: string)
    requires line == "5 X"
    ensures ParseBounds(line) == Err(MaxYNotInteger)
  {
    assert Fields(line) == ["5", "X"] by {
      assert line == "5" + " " + "X";
      FieldsWordSpace("5", "X");
      FieldsCons("X", "");
      assert "X" + "" == "X";
    }
    AtoiItoa(5);
    assert Itoa(5) == "5";
  }

  /** A bounds line with a negative number is an error. */
  lemma ParseBoundsNegative(line: string)
    requires line == "-1 3"
    ensures ParseBounds(line) == Err(NegativeMaxX)
  {
    assert Fields(line) == ["-1", "3"] by {
      assert line == "-1" + " " + "3";
      FieldsWordSpace("-1", "3");
      FieldsCons("3", "");
      assert "3" + "" == "3";
    }
    AtoiItoa(-1);
    AtoiItoa(3);
    assert Itoa(-1) == "-1" && Itoa(3) == "3";
  }

  /** A rendered robot that is not lost parses back to the same start state. */
  lemma PositionRoundTrip(r: RobotModel.RobotState)
    requires !r.lost
    ensures ParsePosition(r.ToString()) == Ok(r)
  {
    RobotModel.ToStringFields(r);
    AtoiItoa(r.x);
    AtoiItoa(r.y);
    FromStringToString(r.orientation);
  }

  /** Input whose remaining lines are all blank holds no robot: `parseRobot` reaches the end without error, and `Robots` yields no runs. */
  lemma {:induction false} BlankLinesHoldNoRobot(lines: seq<string>, pos: nat)
    requires pos <= |lines|
    requires forall i :: pos <= i < |lines| ==> TrimSpace(lines[i]) == []
    ensures NextBlock(lines, pos) == Scan(Ok(None), |lines|)
    ensures Blocks(lines, pos) == Ok([])
    decreases |lines| - pos
  {
    if pos < |lines| {
      BlankLinesHoldNoRobot(lines, pos + 1);
    }
  }

  /** The position line "1 1 E" of the parser tests. */
  lemma PositionOneOneEast()
    ensures TrimSpace("1 1 E") == "1 1 E"
    ensures ParsePosition("1 1 E") == Ok(RobotModel.RobotState(1, 1, East, false))
  {
    TrimSpaceSpec("1 1 E");
    var start := RobotModel.RobotState(1, 1, East, false);
    assert Itoa(1) == "1";
    assert start.ToString() == "1 1 E";
    PositionRoundTrip(start);
  }

  lemma FieldsOneOneX()
    ensures Fields("1 1 X") == ["1", "1", "X"]
  {
    Fields3("1", "1", "X");
    assert "1 1 X" == "1" + " " + "1" + " " + "X";
  }

  lemma FieldsOneOne()
    ensures Fields("1 1") == ["1", "1"]
  {
    assert "1 1" == "1" + " " + "1";
    FieldsWordSpace("1", "1");
    FieldsCons("1", "");
    assert "1" + "" == "1";
  }

  /** A position line with no line after it is an error. */
  lemma NextBlockMissingInstructions()
    ensures NextBlock(["1 1 E"], 0) == Scan(Err(MissingInstructionLine), 1)
  {
    PositionOneOneEast();
  }

  /** A position line with an unknown orientation letter is an error. */
  lemma PositionBadOrientation()
    ensures ParsePosition("1 1 X") == Err(BadOrientation(InvalidOrientation))
  {
    FieldsOneOneX();
    AtoiItoa(1);
    assert Itoa(1) == "1";
  }

  lemma NextBlockBadOrientation(lines: seq<string>)
    requires lines == ["1 1 X", "RFRFRFRF"]
    ensures NextBlock(lines, 0).result == Err(BadOrientation(InvalidOrientation))
  {
    PositionBadOrientation();
    TrimSpaceSpec("1 1 X");
    assert TrimSpace(lines[0]) == "1 1 X";
  }

  /** A position line with only two fields is an error. */
  lemma NextBlockTooFewFields()
    ensures NextBlock(["1 1", "RFRFRFRF"], 0).result == Err(MalformedPosition("1 1"))
  {
    FieldsOneOne();
    TrimSpaceSpec("1 1");
  }

  /** Blank lines before a block are skipped: "\n\n1 1 E\nRFRFRFRF" holds the robot "1 1 E" with "RFRFRFRF". */
  lemma NextBlockSkipsBlankLines(lines: seq<string>)
    requires lines == ["", "", "1 1 E", "RFRFRFRF"]
    ensures NextBlock(lines, 0) ==
            Scan(Ok(Some(Block(RobotModel.RobotState(1, 1, East, false), "RFRFRFRF"))), 4)
  {
    PositionOneOneEast();
    TrimSpaceUnpadded("RFRFRFRF");
    assert TrimSpace(lines[3]) == "RFRFRFRF";
    NextBlockAt(lines, 2, Block(RobotModel.RobotState(1, 1, East, false), "RFRFRFRF"));
    assert TrimSpace(lines[0]) == [] && TrimSpace(lines[1]) == [];
    NextBlockSkipsBlanks(lines, 0, 2);
  }

  /** Spaces around and between the fields of a position line are accepted: "   3   2   N   " is the robot "3 2 N". */
  lemma FieldsWideGaps()
    ensures Fields("3   2   N") == ["3", "2", "N"]
  {
    var gap := "   ";
    assert "3   2   N" == "3" + gap + "2" + gap + "N";
    FieldsGaps3("3", gap, "2", "N");
  }

  /** The position line of the parser tests with runs of spaces between its fields. */
  lemma PositionWideGaps()
    ensures ParsePosition("3   2   N") == Ok(RobotModel.RobotState(3, 2, North, false))
  {
    FieldsWideGaps();
    AtoiItoa(3);
    AtoiItoa(2);
    assert Itoa(3) == "3" && Itoa(2) == "2";
  }

  /** The same line padded with spaces at both ends: `parseRobot` trims it first. */
  lemma PositionWithSpaces(line: string)
    requires line == "   3   2   N   "
    ensures TrimSpace(line) == "3   2   N"
  {
    var gap := "   ";
    assert line == gap + "3   2   N" + gap;
    TrimSpaceSurrounded(gap, "3   2   N", gap);
  }

  /** The position line "3 2 N" of the parser tests. */
  lemma PositionThreeTwoNorth()
    ensures TrimSpace("3 2 N") == "3 2 N"
    ensures ParsePosition("3 2 N") == Ok(RobotModel.RobotState(3, 2, North, false))
  {
    TrimSpaceSpec("3 2 N");
    var start := RobotModel.RobotState(3, 2, North, false);
    assert Itoa(3) == "3" && Itoa(2) == "2";
    assert start.ToString() == "3 2 N";
    PositionRoundTrip(start);
  }

  /** A single robot block gives one block, and the input then ends. */
  lemma BlocksSingleRobot(lines: seq<string>)
    requires lines == ["1 1 E", "RFRFRFRF"]
    ensures Blocks(lines, 0) == Ok([Block(RobotModel.RobotState(1, 1, East, false), "RFRFRFRF")])
  {
    var b := Block(RobotModel.RobotState(1, 1, East, false), "RFRFRFRF");
    PositionOneOneEast();
    TrimSpaceUnpadded("RFRFRFRF");
    assert TrimSpace(lines[1]) == "RFRFRFRF";
    NextBlockAt(lines, 0, b);
    BlocksFromStep(lines, 0, [], NextBlock(lines, 0));
    assert [] + [b] == [b];
    BlankLinesHoldNoRobot(lines, 2);
    BlocksFromStep(lines, 2, [b], NextBlock(lines, 2));
  }

  /** A non-blank position line that parses, followed by a line, is read as one block. */
  lemma NextBlockAt(lines: seq<string>, pos: nat, b: Block)
    requires pos + 1 < |lines|
    requires TrimSpace(lines[pos]) != [] && ParsePosition(TrimSpace(lines[pos])) == Ok(b.start)
    requires TrimSpace(lines[pos + 1]) == b.instructions
    ensures NextBlock(lines, pos) == Scan(Ok(Some(b)), pos + 2)
  {
  }

  /** Blank lines at the cursor are skipped: reading from before them is reading from after them. */
  lemma {:induction false} NextBlockSkipsBlanks(lines: seq<string>, pos: nat, j: nat)
    requires pos <= j <= |lines|
    requires forall i :: pos <= i < j ==> TrimSpace(lines[i]) == []
    ensures NextBlock(lines, pos) == NextBlock(lines, j)
    decreases j - pos
  {
    if pos < j {
      NextBlockSkipsBlanks(lines, pos + 1, j);
    }
  }

  /** A non-blank line at the cursor that is not a valid position line is an error, and only that line is consumed. */
  lemma NextBlockBadPosition(lines: seq<string>, pos: nat, e: ParseError)
    requires pos < |lines| && TrimSpace(lines[pos]) != []
    requires ParsePosition(TrimSpace(lines[pos])) == Err(e)
    ensures NextBlock(lines, pos) == Scan(Err(e), pos + 1)
  {
  }

  /** A valid position line that is the last line of the input lacks its instruction line. */
  lemma NextBlockNoInstructionLine(lines: seq<string>, pos: nat)
    requires pos + 1 == |lines| && TrimSpace(lines[pos]) != []
    requires ParsePosition(TrimSpace(lines[pos])).Ok?
    ensures NextBlock(lines, pos) == Scan(Err(MissingInstructionLine), |lines|)
  {
  }

  /** Two blocks read one after the other, and then the end of the input, make `Blocks` those two blocks. */
  lemma BlocksOfTwo(lines: seq<string>, b1: Block, n1: nat, b2: Block, n2: nat)
    requires n1 <= |lines| && n2 <= |lines|
    requires NextBlock(lines, 0) == Scan(Ok(Some(b1)), n1)
    requires NextBlock(lines, n1) == Scan(Ok(Some(b2)), n2)
    requires NextBlock(lines, n2).result == Ok(None)
    ensures Blocks(lines, 0) == Ok([b1, b2])
  {
    BlocksFromStep(lines, 0, [], NextBlock(lines, 0));
    assert [] + [b1] == [b1];
    BlocksFromStep(lines, n1, [b1], NextBlock(lines, n1));
    assert [b1] + [b2] == [b1, b2];
    BlocksFromStep(lines, n2, [b1, b2], NextBlock(lines, n2));
  }

  /** The sample input's first robot block, read from the start. */
  lemma NextBlockFirstSample(lines: seq<string>)
    requires lines == ["1 1 E", "RFRFRFRF", "3 2 N", "FRRFLLFFRRFLL"]
    ensures NextBlock(lines, 0) == Scan(Ok(Some(Block(RobotModel.RobotState(1, 1, East, false), "RFRFRFRF"))), 2)
  {
    var b := Block(RobotModel.RobotState(1, 1, East, false), "RFRFRFRF");
    PositionOneOneEast();
    TrimSpaceUnpadded("RFRFRFRF");
    assert TrimSpace(lines[1]) == "RFRFRFRF";
    NextBlockAt(lines, 0, b);
  }

  /** The sample input's second robot block, read after the first. */
  lemma NextBlockSecondSample(lines: seq<string>)
    requires lines == ["1 1 E", "RFRFRFRF", "3 2 N", "FRRFLLFFRRFLL"]
    ensures NextBlock(lines, 2) == Scan(Ok(Some(Block(RobotModel.RobotState(3, 2, North, false), "FRRFLLFFRRFLL"))), 4)
  {
    var b := Block(RobotModel.RobotState(3, 2, North, false), "FRRFLLFFRRFLL");
    PositionThreeTwoNorth();
    TrimSpaceUnpadded("FRRFLLFFRRFLL");
    NextBlockAt(lines, 2, b);
  }

  /** Two robot blocks give two blocks, in input order. */
  lemma BlocksTwoRobots(lines: seq<string>)
    requires lines == ["1 1 E", "RFRFRFRF", "3 2 N", "FRRFLLFFRRFLL"]
    ensures Blocks(lines, 0) == Ok([Block(RobotModel.RobotState(1, 1, East, false), "RFRFRFRF"),
                                   Block(RobotModel.RobotState(3, 2, North, false), "FRRFLLFFRRFLL")])
  {
    NextBlockFirstSample(lines);
    NextBlockSecondSample(lines);
    BlocksOfTwo(lines, Block(RobotModel.RobotState(1, 1, East, false), "RFRFRFRF"), 2,
                Block(RobotModel.RobotState(3, 2, North, false), "FRRFLLFFRRFLL"), 4);
  }

  /** The position line "0 3 W" of the sample session. */
  lemma PositionZeroThreeWest()
    ensures TrimSpace("0 3 W") == "0 3 W"
    ensures ParsePosition("0 3 W") == Ok(RobotModel.RobotState(0, 3, West, false))
  {
    TrimSpaceSpec("0 3 W");
    var start := RobotModel.RobotState(0, 3, West, false);
    assert Itoa(0) == "0" && Itoa(3) == "3";
    assert start.ToString() == "0 3 W";
    PositionRoundTrip(start);
  }

  /** Three blocks read one after the other, and then the end of the input, make `Blocks` those three blocks. */
  lemma BlocksOfThree(lines: seq<string>, pos: nat, b1: Block, n1: nat, b2: Block, n2: nat, b3: Block, n3: nat)
    requires pos <= |lines| && n1 <= |lines| && n2 <= |lines| && n3 <= |lines|
    requires NextBlock(lines, pos) == Scan(Ok(Some(b1)), n1)
    requires NextBlock(lines, n1) == Scan(Ok(Some(b2)), n2)
    requires NextBlock(lines, n2) == Scan(Ok(Some(b3)), n3)
    requires NextBlock(lines, n3).result == Ok(None)
    ensures Blocks(lines, pos) == Ok([b1, b2, b3])
  {
    BlocksFromStep(lines, pos, [], NextBlock(lines, pos));
    assert [] + [b1] == [b1];
    BlocksFromStep(lines, n1, [b1], NextBlock(lines, n1));
    assert [b1] + [b2] == [b1, b2];
    BlocksFromStep(lines, n2, [b1, b2], NextBlock(lines, n2));
    assert [b1, b2] + [b3] == [b1, b2, b3];
    BlocksFromStep(lines, n3, [b1, b2, b3], NextBlock(lines, n3));
  }

  /** The first robot block of the three-robot sample session, on lines 1 and 2. */
  lemma SessionFirstBlock(lines: seq<string>)
    requires lines == ["5 3", "1 1 E", "RFRFRFRF", "3 2 N", "FRRFLLFFRRFLL", "0 3 W", "LLFFFLFLFL"]
    ensures NextBlock(lines, 1) == Scan(Ok(Some(Block(RobotModel.RobotState(1, 1, East, false), "RFRFRFRF"))), 3)
  {
    var b := Block(RobotModel.RobotState(1, 1, East, false), "RFRFRFRF");
    PositionOneOneEast();
    TrimSpaceUnpadded("RFRFRFRF");
    assert TrimSpace(lines[2]) == "RFRFRFRF";
    NextBlockAt(lines, 1, b);
  }

  /** The second robot block of the sample session, on lines 3 and 4. */
  lemma SessionSecondBlock(lines: seq<string>)
    requires lines == ["5 3", "1 1 E", "RFRFRFRF", "3 2 N", "FRRFLLFFRRFLL", "0 3 W", "LLFFFLFLFL"]
    ensures NextBlock(lines, 3) == Scan(Ok(Some(Block(RobotModel.RobotState(3, 2, North, false), "FRRFLLFFRRFLL"))), 5)
  {
    var b := Block(RobotModel.RobotState(3, 2, North, false), "FRRFLLFFRRFLL");
    PositionThreeTwoNorth();
    TrimSpaceUnpadded("FRRFLLFFRRFLL");
    assert TrimSpace(lines[4]) == "FRRFLLFFRRFLL";
    NextBlockAt(lines, 3, b);
  }

  /** The third robot block of the sample session, on lines 5 and 6. */
  lemma SessionThirdBlock(lines: seq<string>)
    requires lines == ["5 3", "1 1 E", "RFRFRFRF", "3 2 N", "FRRFLLFFRRFLL", "0 3 W", "LLFFFLFLFL"]
    ensures NextBlock(lines, 5) == Scan(Ok(Some(Block(RobotModel.RobotState(0, 3, West, false), "LLFFFLFLFL"))), 7)
  {
    var b := Block(RobotModel.RobotState(0, 3, West, false), "LLFFFLFLFL");
    PositionZeroThreeWest();
    TrimSpaceUnpadded("LLFFFLFLFL");
    assert TrimSpace(lines[6]) == "LLFFFLFLFL";
    NextBlockAt(lines, 5, b);
  }

  /**
   * The whole sample session: the bounds line gives (5, 3), and `Robots`,
   * reading from the next line, finds the three robot blocks in order.
   */
  lemma SampleSessionInput(lines: seq<string>)
    requires lines == ["5 3", "1 1 E", "RFRFRFRF", "3 2 N", "FRRFLLFFRRFLL", "0 3 W", "LLFFFLFLFL"]
    ensures ParseBounds(lines[0]) == Ok((5, 3))
    ensures Blocks(lines, 1) == Ok([Block(RobotModel.RobotState(1, 1, East, false), "RFRFRFRF"),
                                   Block(RobotModel.RobotState(3, 2, North, false), "FRRFLLFFRRFLL"),
                                   Block(RobotModel.RobotState(0, 3, West, false), "LLFFFLFLFL")])
  {
    ParseBoundsPlain(lines[0]);
    SessionFirstBlock(lines);
    SessionSecondBlock(lines);
    SessionThirdBlock(lines);
    BlankLinesHoldNoRobot(lines, 7);
    BlocksOfThree(lines, 1, Block(RobotModel.RobotState(1, 1, East, false), "RFRFRFRF"), 3,
                  Block(RobotModel.RobotState(3, 2, North, false), "FRRFLLFFRRFLL"), 5,
                  Block(RobotModel.RobotState(0, 3, West, false), "LLFFFLFLFL"), 7);
  }

  /** A robot block without its instruction line makes `Robots` fail. */
  lemma BlocksMissingInstructions(lines: seq<string>)
    requires lines == ["1 1 E"]
    ensures Blocks(lines, 0) == Err(ParsingRobots(MissingInstructionLine))
  {
    NextBlockMissingInstructions();
    BlocksFromStep(lines, 0, [], NextBlock(lines, 0));
  }
}
