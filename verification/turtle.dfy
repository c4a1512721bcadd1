/** The global turtle of the curve builders: the heading `t_a`, the
    position `t_x`, `t_y`, the `points` cursor, and the recursive walkers
    `koch` and `qoch` that drive it. */
module Turtles {
  import opened Interp
  import opened Curves

  class Turtle {
    /** The unit `t_a` turns by: a sixth of a circle while the koch levels
        are built, a quarter while the qoch levels are. */
    const grid: Grid
    /** `t_a`, as a whole number of unit turns. */
    var heading: int
    /** `t_x`, `t_y`: the turtle's position on the lattice. */
    var pos: Vec2
    /** The points stored through the `points` cursor so far, in order. */
    var trail: seq<Vec2>
    /** Where the turtle was put down. */
    ghost const origin: Pose
    /** Every call made on the turtle so far. */
    ghost var log: seq<Move>

    /** Put a turtle down at `start`, with nothing stored yet. */
    constructor(g: Grid, start: Pose)
      ensures Valid() && grid == g && origin == start && Now() == start && trail == [] && log == []
    {
      grid, origin := g, start;
      heading, pos, trail, log := start.heading, start.pos, [], [];
    }

    /** The turtle's heading and position. */
    function Now(): Pose
      reads this
    {
      Pose(heading, pos)
    }

    /** The turtle is where its calls have taken it, and has stored the
        points they marked. */
    ghost predicate Valid()
      reads this
    {
      Now() == Walk(grid, origin, log) && trail == Marks(grid, origin, log)
    }

    /** `forward(len)`. */
    method Forward(len: real)
      requires Valid()
      modifies this
      ensures Valid()
      ensures log == old(log) + [Fwd(len)]
      ensures Now() == Ahead(grid, old(Now()), len) && trail == old(trail)
    {
      WalkJoin(grid, origin, log, [Fwd(len)]);
      MarksJoin(grid, origin, log, [Fwd(len)]);
      pos := pos.Add(Step(grid, heading, len));
      log := log + [Fwd(len)];
    }

    /** `t_a += k` units (a negative `k` for `t_a -= ...`). */
    method Rotate(k: int)
      requires Valid()
      modifies this
      ensures Valid()
      ensures log == old(log) + [Rot(k)]
      ensures Now() == Turn(old(Now()), k) && trail == old(trail)
    {
      WalkJoin(grid, origin, log, [Rot(k)]);
      MarksJoin(grid, origin, log, [Rot(k)]);
      heading := heading + k;
      log := log + [Rot(k)];
    }

    /** `point()`: store the position and advance the cursor. */
    method Point()
      requires Valid()
      modifies this
      ensures Valid()
      ensures log == old(log) + [Mark]
      ensures Now() == old(Now()) && trail == old(trail) + [pos]
    {
      WalkJoin(grid, origin, log, [Mark]);
      MarksJoin(grid, origin, log, [Mark]);
      trail := trail + [pos];
      log := log + [Mark];
    }

    /** `koch(length, m, n)`: the calls it makes are those of `KochRun`,
        which `KochRunMoves` and `KochReplay` relate to the curve. */
    method Koch(len: real, m: nat, n: nat)
      requires Valid() && grid == Hex
      modifies this
      decreases n, m
      ensures Valid()
      ensures log == KochRun(old(log), len, m, n)
    {
      var d := len / 3.0;
      if n == 0 {
        if m == 0 {
          Forward(len);
          Point();
          return;
        }
        Koch(d, m - 1, n);
        Koch(d / 2.0, m - 1, n);
        Koch(d / 2.0, m - 1, n);
        Koch(d, m - 1, n);
        return;
      }
      Koch(d, m, n - 1);
      Rotate(-1);
      Koch(d, m, n - 1);
      Rotate(2);
      Koch(d, m, n - 1);
      Rotate(-1);
      Koch(d, m, n - 1);
    }

    /** `qoch(length, m, n)`, likewise. */
    method Qoch(len: real, m: nat, n: nat)
      requires Valid() && grid == Square
      modifies this
      decreases n, m
      ensures Valid()
      ensures log == QochRun(old(log), len, m, n)
    {
      var d := len / 3.0;
      if n == 0 {
        if m == 0 {
          Forward(len);
          Point();
          return;
        }
        Qoch(d, m - 1, n);
        Qoch(0.0, m - 1, n);
        Qoch(d, m - 1, n);
        Qoch(0.0, m - 1, n);
        Qoch(d, m - 1, n);
        return;
      }
      Qoch(d, m, n - 1);
      Rotate(-1);
      Qoch(d, m, n - 1);
      Rotate(1);
      Qoch(d, m, n - 1);
      Rotate(1);
      Qoch(d, m, n - 1);
      Rotate(-1);
      Qoch(d, m, n - 1);
    }
  }
}
