/**
 * The grid (internal/domain/world.go): inclusive bounds [0, MaxX] x [0, MaxY]
 * and the set of scented cells, which only ever grows.
 *
 * world.go holds only the struct and its constructor. The bounds check, the
 * scent queries and the move judgement below are the behaviour that
 * world_test.go and command_test.go pin down.
 */
module Worlds {

  /** A grid cell (world.go's `Point`). */
  datatype Point = Point(x: int, y: int)

  /**
   * The inclusive bounds check: both corners (0, 0) and (maxX, maxY) belong
   * to the grid, and a grid with a negative bound holds no cell.
   * Behaviour fixed by tests at internal/domain/world_test.go:34-37; world.go defines only `Point`, `World` and `NewWorld`.
   */
  predicate InBounds(maxX: int, maxY: int, p: Point): (b: bool)
    ensures b ==> 0 <= maxX && 0 <= maxY
    ensures (p == Point(0, 0) || p == Point(maxX, maxY)) ==> (b <==> 0 <= maxX && 0 <= maxY)
  {
    0 <= p.x <= maxX && 0 <= p.y <= maxY
  }

  /** What a move judgement returns: whether the robot is lost, and the scents afterwards. */
  datatype Verdict = Verdict(lost: bool, scents: set<Point>)

  /**
   * The scent rule, for a robot asking to move from `from` to `to`:
   * a target inside the grid is safe; a target outside it from a scented
   * cell is refused but safe; a target outside it from an unscented cell
   * loses the robot and scents `from`.
   * Behaviour fixed by tests at internal/domain/world_test.go:24-82; world.go defines only `Point`, `World` and `NewWorld`.
   */
  function Judge(maxX: int, maxY: int, scents: set<Point>, from: Point, to: Point): (v: Verdict)
    ensures scents <= v.scents <= scents + {from}
    ensures v.lost <==> v.scents != scents
    ensures v.lost ==> !InBounds(maxX, maxY, to) && from in v.scents
    ensures !InBounds(maxX, maxY, to) && from !in scents ==> v == Verdict(true, scents + {from})
    ensures InBounds(maxX, maxY, to) || from in scents ==> v == Verdict(false, scents)
  {
    if InBounds(maxX, maxY, to) then Verdict(false, scents)
    else if from in scents then Verdict(false, scents)
    else Verdict(true, scents + {from})
  }

  class World {
    const MaxX: int
    const MaxY: int
    /** The scented cells (Go keeps them as the keys of a `map[Point]bool`). */
    var scents: set<Point>

    /** `NewWorld`: the given bounds and no scent. */
    constructor (maxX: int, maxY: int)
      ensures MaxX == maxX && MaxY == maxY
      ensures scents == {}
    {
      MaxX := maxX;
      MaxY := maxY;
      scents := {};
    }

    /**
     * Whether a robot has been lost from (x, y).
     * Behaviour fixed by tests at internal/domain/world_test.go:7-21; world.go defines only `Point`, `World` and `NewWorld`.
     */
    predicate HasScent(x: int, y: int)
      reads this
    {
      Point(x, y) in scents
    }

    /**
     * Records (x, y) as scented; adding it again changes nothing.
     * Behaviour fixed by tests at internal/domain/world_test.go:14-21; world.go defines only `Point`, `World` and `NewWorld`.
     */
    method AddScent(x: int, y: int)
      modifies this
      ensures scents == old(scents) + {Point(x, y)}
      ensures HasScent(x, y)
      ensures forall p :: p != Point(x, y) ==> (p in scents <==> p in old(scents))
    {
      scents := scents + {Point(x, y)};
    }

    /**
     * Judges a move from (fromX, fromY) to (toX, toY) by the scent rule and
     * records the scent it leaves; it never moves a robot itself.
     * Behaviour fixed by tests at internal/domain/world_test.go:24-82; world.go defines only `Point`, `World` and `NewWorld`.
     */
    method ProcessMove(fromX: int, fromY: int, toX: int, toY: int) returns (lost: bool)
      modifies this
      ensures Verdict(lost, scents) == Judge(MaxX, MaxY, old(scents), Point(fromX, fromY), Point(toX, toY))
      ensures InBounds(MaxX, MaxY, Point(toX, toY)) ==> !lost && scents == old(scents)
      ensures !InBounds(MaxX, MaxY, Point(toX, toY)) && old(HasScent(fromX, fromY)) ==> !lost && scents == old(scents)
      ensures !InBounds(MaxX, MaxY, Point(toX, toY)) && !old(HasScent(fromX, fromY)) ==>
                lost && scents == old(scents) + {Point(fromX, fromY)}
    {
      var to := Point(toX, toY);
      if InBounds(MaxX, MaxY, to) {
        lost := false;
      } else if HasScent(fromX, fromY) {
        lost := false;
      } else {
        AddScent(fromX, fromY);
        lost := true;
      }
    }
  }

  /** For World(5, 3) the corner (5, 3) is on the grid and the cells just past it are not. */
  lemma InclusiveBounds()
    ensures InBounds(5, 3, Point(5, 3)) && InBounds(5, 3, Point(0, 0))
    ensures !InBounds(5, 3, Point(5, 4)) && !InBounds(5, 3, Point(6, 3))
    ensures !InBounds(5, 3, Point(-1, 0)) && !InBounds(5, 3, Point(0, -1))
  {
  }

  /** Once a fall from `from` has been judged, every later fall from it, in any direction, is refused without change. */
  lemma {:induction false} JudgeScentProtects(maxX: int, maxY: int, scents: set<Point>, from: Point, to: Point, to': Point)
    requires Judge(maxX, maxY, scents, from, to).lost
    requires !InBounds(maxX, maxY, to')
    ensures var after := Judge(maxX, maxY, scents, from, to).scents;
      Judge(maxX, maxY, after, from, to') == Verdict(false, after)
  {
    var after := Judge(maxX, maxY, scents, from, to).scents;
    assert from in after;
  }
}
