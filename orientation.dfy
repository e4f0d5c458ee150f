/**
 * The four compass directions a robot can face (internal/domain/orientation.go).
 * Go represents them as the integers 0..3 (`iota`); a closed datatype keeps
 * every value one of the four.
 */
module Orientations {
  import opened Wrappers

  /** Decoding a letter that is not one of N, E, S, W. */
  datatype OrientationError = InvalidOrientation

  datatype Orientation = North | East | South | West {

    /** The Go integer value of the constant: North = 0, East = 1, South = 2, West = 3. */
    function Index(): (i: int)
      ensures 0 <= i < 4
    {
      match this
      case North => 0
      case East => 1
      case South => 2
      case West => 3
    }

    /** Counter-clockwise quarter turn; on the Go integers it is `(o + 3) % 4`. */
    function Left(): (r: Orientation)
      ensures r.Index() == (Index() + 3) % 4
    {
      match this
      case North => West
      case East => North
      case South => East
      case West => South
    }

    /** Clockwise quarter turn; on the Go integers it is `(o + 1) % 4`. */
    function Right(): (r: Orientation)
      ensures r.Index() == (Index() + 1) % 4
    {
      match this
      case North => East
      case East => South
      case South => West
      case West => North
    }

    /** The unit step (dx, dy) taken when moving forward. */
    function ForwardDelta(): (d: (int, int))
      ensures (d.0 == 0) != (d.1 == 0)
      ensures -1 <= d.0 <= 1 && -1 <= d.1 <= 1
    {
      match this
      case North => (0, 1)
      case East => (1, 0)
      case South => (0, -1)
      case West => (-1, 0)
    }

    /** The one-letter code. */
    function ToString(): (s: string)
      ensures s in {"N", "E", "S", "W"}
    {
      match this
      case North => "N"
      case East => "E"
      case South => "S"
      case West => "W"
    }
  }

  /** Decodes a one-letter code; every other string is an error. */
  function OrientationFromString(s: string): (r: Result<Orientation, OrientationError>)
    ensures r.Ok? <==> s in {"N", "E", "S", "W"}
    ensures r.Ok? ==> r.value.ToString() == s
  {
    if s == "N" then Ok(North)
    else if s == "E" then Ok(East)
    else if s == "S" then Ok(South)
    else if s == "W" then Ok(West)
    else Err(InvalidOrientation)
  }

  /** Turning right goes round N, E, S, W and back to N; turning left goes the other way. */
  lemma TurnOrder()
    ensures North.Right() == East && East.Right() == South && South.Right() == West && West.Right() == North
    ensures North.Left() == West && West.Left() == South && South.Left() == East && East.Left() == North
  {
  }

  /** Left and right turns undo each other. */
  lemma LeftRightInverse(o: Orientation)
    ensures o.Right().Left() == o && o.Left().Right() == o
  {
  }

  /** Four turns in the same direction come back to the start. */
  lemma FourTurns(o: Orientation)
    ensures o.Left().Left().Left().Left() == o
    ensures o.Right().Right().Right().Right() == o
  {
  }

  /** The four deltas spelled out. */
  lemma ForwardDeltas()
    ensures North.ForwardDelta() == (0, 1) && East.ForwardDelta() == (1, 0)
    ensures South.ForwardDelta() == (0, -1) && West.ForwardDelta() == (-1, 0)
  {
  }

  /** A right turn rotates the step a quarter clockwise. */
  lemma RightRotatesDelta(o: Orientation)
    ensures o.Right().ForwardDelta() == (o.ForwardDelta().1, -o.ForwardDelta().0)
  {
  }

  /** Encoding then decoding gives the orientation back. */
  lemma FromStringToString(o: Orientation)
    ensures OrientationFromString(o.ToString()) == Ok(o)
  {
  }

  /** Decoding then encoding gives the letter back. */
  lemma ToStringFromString(s: string)
    requires s in {"N", "E", "S", "W"}
    ensures OrientationFromString(s).Ok? && OrientationFromString(s).value.ToString() == s
  {
  }

  /** Every other string fails to decode. */
  lemma FromStringRejects(s: string)
    requires s !in {"N", "E", "S", "W"}
    ensures OrientationFromString(s) == Err(InvalidOrientation)
  {
  }

  /** The letter "X" of the parser tests fails to decode. */
  lemma FromStringRejectsX()
    ensures OrientationFromString("X") == Err(InvalidOrientation)
  {
    FromStringRejects("X");
  }
}
