# Robots on a grid: a Dafny model

This project models the core of `red-badger-test`, a small Go program. Robots move on a rectangular grid.
- Each robot starts at a position, facing North, East, South or West.
- It follows a line of instructions: `L` turns it left, `R` turns it right, `F` moves it one cell forward.
- A robot that steps off the grid is *lost*. It leaves a *scent* on the cell it fell from.
- A later robot that tries to step off the grid from a scented cell is refused, and stays where it is.
- The input is a bounds line (`maxX maxY`), followed by blocks of two lines for each robot: a position line (`x y O`) and an instruction line.

The model has one module per Go file:

| module | Go file | form |
|---|---|---|
| `Orientations` | internal/domain/orientation.go | datatype with pure functions |
| `Worlds` | internal/domain/world.go | `World` class, with a mutable scent set |
| `Robots` | internal/domain/robot.go | `Robot` class; `RobotState` value for its pure queries |
| `Commands` | internal/domain/command.go | closed `Command` datatype; `Execute` method |
| `Simulator` | internal/simulator/simulator.go | `RunRobot` loop proved against `Run` |
| `Parsing` | internal/parsing/input_parser.go | methods over a line sequence and a cursor |
| `Text` | (Go standard library) | ASCII models of `strings.TrimSpace`, `strings.Fields`, `strconv.Atoi`, `%d` |
| `Wrappers` | — | `Option` and `Result` |

How the state-changing code is specified:
- **Commands.** `Execute` and `Forward` change a `Robot` and a `World` in place. Each one ensures that the new `Snapshot` (robot state and scents) equals the pure `Step` applied to the old one.
- **Simulator.** `RunRobot` ensures that its final state equals `Run`, which runs the instructions in order and stops right after the one that loses the robot. Lemmas then relate `Run` to running every instruction (`StepAll`) and to the number of instructions executed (`Executed`).
- **Parser.**
  - `ParseRobot` and `Robots` are loops over the lines. They are proved against `NextBlock` (what `parseRobot` reads at a cursor) and `Blocks` (every block up to the end of input, or the first error).
  - `ParseCommands` is proved against `KeepCommandLetters`.

**Where the code and the tests disagree.**
- `world.go` declares only `Point`, `World` and `NewWorld`. `command.go` gives `ForwardCommand.Execute` a body that only prints.
- The tests call `HasScent`, `AddScent` and `ProcessMove`, and they expect Forward to move robots, lose them and leave scents.
- The model follows the tests for these members, and each one says so in its doc comment.
- The code as written is kept as `Commands.ForwardAsWritten`, and the disagreement is listed under Findings.

## Model

| member | source | states |
|---|---|---|
| Orientations.Orientation.Index | internal/domain/orientation.go:19-26 | The Go integer of each orientation lies in 0..3 (`iota` order N, E, S, W). |
| Orientations.Orientation.Left | internal/domain/orientation.go:28-30 | A left turn is `(o + 3) % 4` on the Go integers. |
| Orientations.Orientation.Right | internal/domain/orientation.go:32-34 | A right turn is `(o + 1) % 4` on the Go integers. |
| Orientations.Orientation.ForwardDelta | internal/domain/orientation.go:36-48 | The forward step has exactly one non-zero component, and each component is in -1..1. |
| Orientations.Orientation.ToString | internal/domain/orientation.go:50-52 | The rendering is one of "N", "E", "S", "W". |
| Orientations.OrientationFromString | internal/domain/orientation.go:54-61 | Decoding succeeds exactly for "N", "E", "S", "W", and the decoded orientation renders back to the input. |
| Orientations.TurnOrder | internal/domain/orientation.go:21-34 | Right turns cycle N→E→S→W→N; left turns cycle the other way. |
| Orientations.LeftRightInverse | internal/domain/orientation.go:28-34 | Left and Right undo each other, for every orientation. |
| Orientations.FourTurns | internal/domain/orientation.go:28-34 | Four left turns, or four right turns, give back the starting orientation. |
| Orientations.ForwardDeltas | internal/domain/orientation.go:36-46 | The deltas are N=(0,1), E=(1,0), S=(0,-1), W=(-1,0). |
| Orientations.RightRotatesDelta | internal/domain/orientation.go:32-46 | For every orientation, turning right rotates the forward delta a quarter clockwise. |
| Orientations.FromStringToString | internal/domain/orientation.go:5-17 | Decoding the rendering of any orientation gives it back. |
| Orientations.ToStringFromString | internal/domain/orientation.go:50-61 | For each of the four letters, decoding succeeds and renders back to the letter. |
| Orientations.FromStringRejects | internal/domain/orientation.go:54-59 | Every string other than the four letters is rejected with the invalid-orientation error. |
| Orientations.FromStringRejectsX | internal/parsing/input_parser_test.go:92-96 | "X", the letter of the bad-orientation parser test, is rejected with the invalid-orientation error. |
| Worlds.InBounds | internal/domain/world_test.go:34-37 | Bounds are inclusive: both corners (0,0) and (maxX,maxY) are on the grid whenever the bounds are non-negative, and a grid with a negative bound holds no cell. |
| Worlds.Judge | internal/domain/world_test.go:24-82 | Scent rule, both directions. An off-grid target from an unscented cell loses the robot and scents the from-cell. An in-grid target, or an off-grid one from a scented cell, is not lost and changes no scent. Scents only grow, and the robot is lost exactly when they grow. |
| Worlds.World.constructor | internal/domain/world.go:12-18 | `NewWorld` stores the bounds and starts with no scent. |
| Worlds.World.AddScent | internal/domain/world_test.go:14-21 | The cell becomes scented; no other cell changes; adding it again changes nothing. |
| Worlds.World.ProcessMove | internal/domain/world_test.go:24-57 | Result and new scents are `Judge`'s. In-grid target: not lost, no change. Off-grid from a scented cell: not lost, no change. Off-grid from an unscented cell: lost, and the from-cell is scented. |
| Worlds.InclusiveBounds | internal/domain/world_test.go:34-37 | For World(5,3), the cells (5,3) and (0,0) are on the grid; (5,4), (6,3), (-1,0) and (0,-1) are not. |
| Worlds.JudgeScentProtects | internal/domain/world_test.go:59-82 | After a fall from a cell, any later off-grid move from it, in any direction, is refused and changes nothing. |
| Robots.RobotState.NextPosition | internal/domain/robot.go:25-28 | The next cell is the position plus `ForwardDelta`; it differs from the position in exactly one coordinate, by 1. |
| Robots.RobotState.ToString | internal/domain/robot.go:39-44 | The rendering has at least five characters; `ToStringFields`, `ToStringSuffix`, `SampleRenderings` and `Parsing.PositionRoundTrip` state its content. |
| Robots.ToStringSuffix | internal/domain/robot.go:39-44 | The rendering ends in " LOST" exactly when the robot is lost, and otherwise ends in the orientation letter. |
| Robots.ToStringFields | internal/domain/robot.go:39-44 | The rendering splits into x, y and the orientation letter, followed by "LOST" exactly when the robot is lost. |
| Robots.SampleRenderings | cmd/red-badger-test/e2e_test.go:22-26 | The three final states of the sample render as "1 1 E", "3 3 N LOST" and "2 3 S". |
| Robots.Robot.constructor | internal/domain/robot.go:16-23 | `NewRobot` has the given position and orientation, and is not lost. |
| Robots.Robot.MoveTo | internal/domain/robot.go:30-33 | The position is overwritten; the orientation and the lost flag stay. |
| Robots.Robot.MarkLost | internal/domain/robot.go:35-37 | The lost flag is set; position and orientation stay (so a second call changes nothing). |
| Commands.Letters | internal/parsing/input_parser.go:113-124 | The letters of a command list have the same length, and each letter is that command's letter. |
| Commands.LettersInjective | internal/parsing/input_parser.go:114-120 | Equal letter strings mean equal command lists: the letters determine the commands. |
| Commands.Execute | internal/domain/command.go:5-27 | One instruction on a robot and a world leaves the state `Step` gives. |
| Commands.Forward | internal/domain/command_test.go:7-70 | Forward leaves the state `Step` gives, using the world's `ProcessMove`. |
| Commands.ForwardAsWritten | internal/domain/command.go:25-27 | Forward as written changes neither robot nor world. |
| Commands.ForwardAsWrittenMissesTest | internal/domain/command_test.go:18-23 | Test case: from (1,1) facing North in World(5,3), Forward moves to (1,2), so a Forward that changes nothing fails this test. |
| Commands.TurnsOnlyRotate | internal/domain/command.go:11-21 | Left and Right change only the orientation, even for a lost robot; the scents are untouched. |
| Commands.ForwardInBounds | internal/domain/command_test.go:18-23 | Forward to an in-grid cell moves there; the robot stays not lost, and no scent is added. |
| Commands.ForwardFalls | internal/domain/command_test.go:24-29 | Forward off the grid from an unscented cell: lost at the same position, and that cell is scented. |
| Commands.ForwardProtected | internal/domain/command_test.go:30-35 | Forward off the grid from a scented cell changes nothing. |
| Commands.ForwardWhenLost | internal/domain/command_test.go:36-41 | Forward does nothing to a lost robot. |
| Commands.StepInvariants | internal/domain/command_test.go:7-70 | Every instruction: scents never shrink and grow by at most the robot's cell. A lost robot stays lost, in place. A robot on the grid stays on it. A robot that becomes lost scents its cell. |
| Simulator.Simulator.RunRobot | internal/simulator/simulator.go:7-14 | The final robot state and scents are `Run` of the instructions from the initial state. |
| Simulator.ExecutedBounds | internal/simulator/simulator.go:8-13 | At most `len(commands)` instructions run, and at least one when there are any. |
| Simulator.RunIsExecutedPrefix | internal/simulator/simulator.go:8-12 | The run executes a prefix in order, with no early stop. The robot is not lost after any shorter prefix. The run ends early only because the robot is lost. |
| Simulator.NotLostRunsAll | internal/simulator/simulator.go:8-13 | If the robot ends not lost, every instruction ran. |
| Simulator.LostOnEntry | internal/simulator/simulator.go:8-12 | A robot lost on entry still runs the first instruction, and only that one. |
| Simulator.RunInvariants | internal/simulator/simulator.go:8-13 | Over a run, scents only grow. A lost robot stays lost, in place. A robot on the grid stays on it. |
| Simulator.RunEmpty | internal/simulator/simulator.go:8 | An empty instruction list changes nothing and executes nothing. |
| Simulator.SampleFirstRobot | cmd/red-badger-test/e2e_test.go:13-26 | Robot "1 1 E" with "RFRFRFRF" ends at (1,1) facing East, not lost, with no scent. |
| Simulator.SampleSecondRobot | cmd/red-badger-test/e2e_test.go:13-26 | Robot "3 2 N" with "FRRFLLFFRRFLL" is lost at (3,3) facing North, and scents (3,3). |
| Simulator.SampleThirdRobot | cmd/red-badger-test/e2e_test.go:42-50 | On that scent, robot "0 3 W" with "LLFFFLFLFL" ends at (2,3) facing South, not lost. |
| Simulator.SampleNeedsScent | cmd/red-badger-test/e2e_test.go:42-50 | Without the scent, the third robot would be lost at (3,3): its result depends on the second robot. |
| Simulator.CornerFall | internal/simulator/simulator.go:8-13 | A robot stepping south off (0,0) is lost there and scents it. |
| Simulator.CornerSaved | internal/simulator/simulator.go:8-13 | The same step from the scented corner is refused; the robot stays at (0,0), not lost. |
| Text.TrimLeftSpec | internal/parsing/input_parser.go:74 | Left trimming keeps a suffix, removes only white space, and leaves no leading white space. |
| Text.TrimRightSpec | internal/parsing/input_parser.go:74 | Right trimming keeps a prefix, removes only white space, and leaves no trailing white space. |
| Text.TrimSpace | internal/parsing/input_parser.go:74 | Trimming never makes a line longer; `TrimSpaceSpec` states what it removes. |
| Text.TrimSpaceSpec | internal/parsing/input_parser.go:74-77 | Trimmed text has no white space at either end. It is empty exactly for blank lines. Text without white space at its ends is unchanged. |
| Text.TrimLeftSpaces | internal/parsing/input_parser.go:74 | Left trimming removes exactly a leading white-space run. |
| Text.TrimRightSpaces | internal/parsing/input_parser.go:105 | Right trimming removes exactly a trailing white-space run. |
| Text.TrimSpaceSurrounded | internal/parsing/input_parser.go:74 | Trimming a word padded with white space on both sides gives the word. |
| Text.WordLengthSpec | internal/parsing/input_parser.go:79 | A word's length stops at the first white space, or at the end of the text. |
| Text.FieldsSpec | internal/parsing/input_parser.go:19 | Every field is non-empty and contains no white space. |
| Text.FieldsCons | internal/parsing/input_parser.go:79 | A word followed by white space, or by nothing, is the first field. |
| Text.FieldsSkipSpace | internal/parsing/input_parser.go:19 | Leading white space never affects the fields. |
| Text.FieldsWordSpace | internal/parsing/input_parser.go:19 | A word followed by a space and more text is the first field. |
| Text.Fields3 | internal/parsing/input_parser.go:79-80 | Three words joined by single spaces are split into exactly those three fields. |
| Text.FieldsGaps3 | internal/parsing/input_parser.go:79-80 | Three words separated by runs of white space are split into exactly those three fields. |
| Text.Fields4 | internal/domain/robot.go:41 | Four words joined by single spaces are split into exactly those four fields. |
| Text.Atoi | internal/parsing/input_parser.go:25-33 | Parsing succeeds exactly for one or more digits, optionally after one `-` or `+`. Digits give their decimal value, `-` negates it, `+` keeps it. Nothing starting with white space parses. |
| Text.AtoiNonCanonical | internal/parsing/input_parser.go:25-33 | "05" parses to 5, "+5" to 5 and "-0" to 0; a bare sign and the empty string do not parse. |
| Text.NatToString | internal/domain/robot.go:41-43 | Decimal digits, non-empty, with no leading zero. |
| Text.Itoa | internal/domain/robot.go:41-43 | `%d` renders to a non-empty string without white space. |
| Text.AtoiItoa | internal/domain/robot.go:41-43 | Parsing the `%d` rendering of any integer gives it back. |
| Parsing.ParseBounds | internal/parsing/input_parser.go:19-41 | Success exactly when there are two fields, both integers and both ≥ 0; the bounds are those integers. |
| Parsing.World | internal/parsing/input_parser.go:13-45 | No line: missing-bounds error. Otherwise one line is consumed; an invalid bounds line gives `ParseBounds`' error; a valid one gives a fresh world with those bounds and no scent. |
| Parsing.ParsePosition | internal/parsing/input_parser.go:79-99 | Success exactly when there are three fields: integer x, integer y and a valid orientation. The start state is those values, not lost. |
| Parsing.NextBlock | internal/parsing/input_parser.go:68-109 | The cursor only advances, within the input; a block found consumes at least two lines. `NextBlockSkipsBlanks`, `NextBlockBadPosition`, `NextBlockNoInstructionLine`, `NextBlockAt` and `BlankLinesHoldNoRobot` state every outcome for all inputs. |
| Parsing.NextBlockSkipsBlanks | internal/parsing/input_parser.go:69-77 | Blank lines at the cursor are skipped: reading before a run of blank lines is the same as reading after it. |
| Parsing.NextBlockBadPosition | internal/parsing/input_parser.go:79-97 | A non-blank line at the cursor that does not parse as a position gives that parse error, and only that line is consumed. |
| Parsing.NextBlockNoInstructionLine | internal/parsing/input_parser.go:99-103 | A valid position line that is the last line of the input gives the missing-instruction-line error. |
| Parsing.NextBlockAt | internal/parsing/input_parser.go:79-109 | A valid position line followed by another line is read as one block: the start state and the trimmed next line, with two lines consumed. |
| Parsing.BlocksFromStep | internal/parsing/input_parser.go:49-63 | The outcome at the cursor decides `Robots`. An error wraps it as the robots error. End of input returns the blocks so far. A block is appended, and reading continues after it. |
| Parsing.ParseRobot | internal/parsing/input_parser.go:68-109 | The cursor, the error, "no robot", or a fresh robot with the block's start state and its trimmed instruction line, all as `NextBlock` states. |
| Parsing.ReadRun | internal/parsing/input_parser.go:50-63 | One `Robots` iteration is `parseRobot` and then `parseCommands`. The run's robot is fresh, has the block's start state, and its commands' letters are the block's L/R/F letters. |
| Parsing.Robots | internal/parsing/input_parser.go:47-66 | If any block is malformed, the result is the first block's error and no runs. Otherwise one run per block, in input order, each matching its block, on fresh and distinct robots. |
| Parsing.KeepCommandLetters | internal/parsing/input_parser.go:111-126 | The kept letters are never longer than the instruction line. |
| Parsing.KeepCommandLettersSpec | internal/parsing/input_parser.go:114-123 | Only L, R and F are kept, and a line made only of them is kept whole. |
| Parsing.KeepCommandLettersSnoc | internal/parsing/input_parser.go:114-123 | Appending L, R or F appends that letter to the result; appending any other character leaves the result unchanged. |
| Parsing.KeepCommandLettersCounts | internal/parsing/input_parser.go:114-123 | L, R and F each occur in the result as often as in the line, and no other character occurs: one command per command letter. |
| Parsing.ParseCommands | internal/parsing/input_parser.go:111-126 | The commands' letters are exactly the L/R/F characters of the line, in order. |
| Parsing.KeepCommandLettersAppend | internal/parsing/input_parser.go:113-124 | Filtering works one character at a time: it distributes over concatenation. |
| Parsing.KeepCommandLettersWhole | internal/parsing/input_parser_test.go:141-158 | "RFRFRFRF" and "LLLL" are kept whole; "" gives no commands. |
| Parsing.KeepCommandLettersSampleLines | cmd/red-badger-test/e2e_test.go:13-20 | The three instruction lines of the sample session are kept whole. |
| Parsing.KeepCommandLettersDropsUnknown | internal/parsing/input_parser_test.go:159-164 | In "LXR" the X is dropped, leaving "LR". |
| Parsing.ParseBoundsPlain | internal/parsing/input_parser_test.go:19-23 | "5 3" gives the bounds (5, 3). |
| Parsing.ParseBoundsExtraSpaces | internal/parsing/input_parser_test.go:24-28 | "   5     3  " gives the bounds (5, 3). |
| Parsing.ParseBoundsOneNumber | internal/parsing/input_parser_test.go:29-33 | "5" is a malformed-bounds error. |
| Parsing.ParseBoundsNotNumber | internal/parsing/input_parser_test.go:34-38 | "5 X" fails on maxY. |
| Parsing.ParseBoundsNegative | internal/parsing/input_parser_test.go:39-43 | "-1 3" fails as negative maxX. |
| Parsing.PositionRoundTrip | internal/parsing/input_parser.go:79-99 | Parsing the rendering of a robot that is not lost gives back its start state. |
| Parsing.BlankLinesHoldNoRobot | internal/parsing/input_parser.go:69-77 | Only blank lines left: `parseRobot` reaches the end without error and `Robots` returns no runs. |
| Parsing.PositionOneOneEast | internal/parsing/input_parser_test.go:73-79 | "1 1 E" is unchanged by trimming and parses to (1,1) facing East. |
| Parsing.NextBlockMissingInstructions | internal/parsing/input_parser_test.go:87-91 | A position line with no line after it gives the missing-instruction-line error. |
| Parsing.PositionBadOrientation | internal/parsing/input_parser_test.go:92-96 | "1 1 X" fails on its orientation. |
| Parsing.NextBlockBadOrientation | internal/parsing/input_parser_test.go:92-96 | The block "1 1 X" / "RFRFRFRF" fails on its orientation. |
| Parsing.NextBlockTooFewFields | internal/parsing/input_parser_test.go:97-101 | "1 1" is a malformed-position error. |
| Parsing.NextBlockSkipsBlankLines | internal/parsing/input_parser_test.go:102-108 | Two blank lines are skipped; the block after them is read, and all four lines are consumed. |
| Parsing.PositionWideGaps | internal/parsing/input_parser_test.go:80-86 | "3   2   N" parses to (3,2) facing North. |
| Parsing.PositionWithSpaces | internal/parsing/input_parser_test.go:80-86 | "   3   2   N   " trims to "3   2   N". |
| Parsing.PositionThreeTwoNorth | internal/parsing/input_parser_test.go:209 | "3 2 N" is unchanged by trimming and parses to (3,2) facing North. |
| Parsing.NextBlockFirstSample | internal/parsing/input_parser_test.go:207-211 | The first block of the two-robot input is read from lines 0-1. |
| Parsing.NextBlockSecondSample | internal/parsing/input_parser_test.go:207-211 | The second block of the two-robot input is read from lines 2-3. |
| Parsing.BlocksSingleRobot | internal/parsing/input_parser_test.go:202-206 | A single robot block gives exactly one block. |
| Parsing.BlocksTwoRobots | internal/parsing/input_parser_test.go:207-211 | Two robot blocks give exactly those two blocks, in order. |
| Parsing.BlocksMissingInstructions | internal/parsing/input_parser_test.go:217-221 | A robot without its instruction line makes `Robots` fail. |
| Parsing.PositionZeroThreeWest | cmd/red-badger-test/e2e_test.go:18 | "0 3 W" is unchanged by trimming and parses to (0,3) facing West. |
| Parsing.BlocksOfThree | internal/parsing/input_parser.go:47-66 | Three blocks read one after another, then the end of input, make `Blocks` exactly those three blocks in order. |
| Parsing.SessionFirstBlock | cmd/red-badger-test/e2e_test.go:14-15 | In the sample session, lines 1-2 are read as the block at (1,1) facing East with "RFRFRFRF". |
| Parsing.SessionSecondBlock | cmd/red-badger-test/e2e_test.go:16-17 | In the sample session, lines 3-4 are read as the block at (3,2) facing North with "FRRFLLFFRRFLL". |
| Parsing.SessionThirdBlock | cmd/red-badger-test/e2e_test.go:18-19 | In the sample session, lines 5-6 are read as the block at (0,3) facing West with "LLFFFLFLFL". |
| Parsing.SampleSessionInput | cmd/red-badger-test/e2e_test.go:13-20 | The sample session's bounds line gives (5,3), and `Robots` reads its three robot blocks in order, then stops. |

The parser and the simulator connect through `Commands.Letters`.
- `Robots` states `Letters(run.commands) == KeepCommandLetters(instructions)`.
- `SampleSessionInput` shows that the sample session's input gives the bounds (5, 3) and three blocks, in order.
- `KeepCommandLettersSampleLines` shows that those blocks' instruction lines are kept whole. So each run `Robots` builds for the sample has exactly the letters of its line.
- The `Simulator` sample lemmas take any command list whose letters are the sample line, so they apply to those runs.

## Left out

- `cmd/red-badger-test/main.go`, the standard-input driver, is not part of this model. That includes its own `parseRobot` variant, which rejects an empty instruction line.
- Console and log output (`fmt.Println` in each command, `log.Printf` for unknown instruction characters) has no effect on state and is omitted.
- `bufio.Scanner` is replaced by a sequence of lines and a cursor. Splitting bytes into lines, and scanner errors, are not modelled.
- Text.Atoi: does not model `strconv.Atoi`'s 64-bit range error. Out-of-range numerals parse to their unbounded value.
- Text.TrimSpace, Text.Fields: white space is ASCII (space, tab, LF, VT, FF, CR), not all of Unicode's.
- Go's `int` overflow is not modelled: coordinates and bounds are unbounded integers, so moving at the edge of the `int` range does not wrap.
- Out-of-range `Orientation` integers are not modelled: the closed datatype makes them impossible. Two things follow only from them: `ForwardDelta`'s `(0, 0)` fallback and `String`'s empty result.
- Dynamic dispatch through the `Command` interface is replaced by a closed datatype and one `Execute` method.
- Worlds.World.HasScent is a query with no contract of its own; `AddScent` and `ProcessMove` state their effect through it.
- The Go test functions themselves are not modelled; their cases appear as lemmas where listed above.

## Findings

| source | as written | input that shows it | evidently intended | confidence | as-written member | corrected member |
|---|---|---|---|---|---|---|
| internal/domain/command.go:25-27 | `ForwardCommand.Execute` only prints; the robot and the world are unchanged | A robot at (1,1) facing North in World(5,3) gets one `F`; internal/domain/command_test.go:18-23 expects (1,2) | Forward moves into the grid, loses the robot and scents its cell on an unscented edge, and is refused on a scented edge (internal/domain/command_test.go:7-70) | high; not executed | Commands.ForwardAsWritten, Commands.ForwardAsWrittenMissesTest | Commands.Forward |
