/** The turtle geometry behind `koch` and `qoch` (main.c): headings as whole
    numbers of unit turns, positions as exact lattice coordinates, the moves
    each recursive curve makes as a program, and what those programs do. */
module Curves {
  import opened Numeric
  import opened Interp

  const Zero := Vec2(0.0, 0.0)

  /** 4^e, the number of points one koch root of depth e writes. */
  function Pow4(e: nat): (r: nat)
    ensures 1 <= r
  {
    if e == 0 then 1 else 4 * Pow4(e - 1)
  }

  /** 5^e, the number of points one qoch root of depth e writes. */
  function Pow5(e: nat): (r: nat)
    ensures 1 <= r
  {
    if e == 0 then 1 else 5 * Pow5(e - 1)
  }

  /** The turtle's heading and position. */
  datatype Pose = Pose(heading: int, pos: Vec2)

  /** Which family of turns a walk is made of: koch's sixths of a circle or
      qoch's quarters. */
  datatype Grid = Hex | Square

  /** A quarter turn (`Square`, Cartesian) or a sixth of a turn (`Hex`, over
      e0 and e60) anticlockwise: exact and linear. */
  function Left(g: Grid, v: Vec2): Vec2
  {
    if g == Hex then Vec2(-v.y, v.x + v.y) else Vec2(-v.y, v.x)
  }

  /** The inverse turn, clockwise. */
  function Right(g: Grid, v: Vec2): Vec2
  {
    if g == Hex then Vec2(v.x + v.y, -v.x) else Vec2(v.y, -v.x)
  }

  /** `len` times the unit vector of heading `k` (k unit turns from 0°): the
      exact value of (len·cos θ, len·sin θ) that `forward` adds. */
  function Step(g: Grid, k: int, len: real): Vec2
    decreases if k < 0 then -k else k
  {
    if k == 0 then Vec2(len, 0.0)
    else if k > 0 then Left(g, Step(g, k - 1, len))
    else Right(g, Step(g, k + 1, len))
  }

  /** One more unit turn of heading turns the step left, whatever the sign. */
  lemma StepNext(g: Grid, k: int, len: real)
    ensures Step(g, k + 1, len) == Left(g, Step(g, k, len))
  {
  }

  /** Two steps along one heading make one step of their total length. */
  lemma {:induction false} StepSplit(g: Grid, k: int, a: real, b: real)
    decreases if k < 0 then -k else k
    ensures Step(g, k, a).Add(Step(g, k, b)) == Step(g, k, a + b)
  {
    if k > 0 {
      StepSplit(g, k - 1, a, b);
    } else if k < 0 {
      StepSplit(g, k + 1, a, b);
    }
  }

  /** A step of length zero goes nowhere. */
  lemma {:induction false} StepZero(g: Grid, k: int)
    decreases if k < 0 then -k else k
    ensures Step(g, k, 0.0) == Zero
  {
    if k > 0 {
      StepZero(g, k - 1);
    } else if k < 0 {
      StepZero(g, k + 1);
    }
  }

  /** The two koch headings 60° either side of a heading add up to it: the
      two sides of an equilateral bump span its base. */
  lemma HexSides(k: int, len: real)
    ensures Step(Hex, k - 1, len).Add(Step(Hex, k + 1, len)) == Step(Hex, k, len)
  {
    StepNext(Hex, k - 1, len);
    StepNext(Hex, k, len);
  }

  /** The two qoch headings 90° either side of a heading cancel. */
  lemma SquareSides(k: int, len: real)
    ensures Step(Square, k - 1, len).Add(Step(Square, k + 1, len)) == Zero
  {
    StepNext(Square, k - 1, len);
    StepNext(Square, k, len);
  }

  /** The pose `forward(len)` leaves: `len` further along the heading. */
  function Ahead(g: Grid, p: Pose, len: real): Pose
  {
    Pose(p.heading, p.pos.Add(Step(g, p.heading, len)))
  }

  /** The pose `t_a += k·unit` leaves. */
  function Turn(p: Pose, k: int): Pose
  {
    Pose(p.heading + k, p.pos)
  }

  /** One call the recursive curves make on the turtle: `forward(len)`,
      a turn by `k` of the family's unit angle, or `point()`. */
  datatype Move = Fwd(len: real) | Rot(k: int) | Mark

  /** The pose after one move. */
  function Exec(g: Grid, p: Pose, mv: Move): Pose
  {
    match mv
    case Fwd(len) => Ahead(g, p, len)
    case Rot(k) => Turn(p, k)
    case Mark => p
  }

  /** The pose after a program of moves. */
  function Walk(g: Grid, p: Pose, ms: seq<Move>): Pose
    decreases |ms|
  {
    if ms == [] then p else Walk(g, Exec(g, p, ms[0]), ms[1..])
  }

  /** The points a program of moves writes, in order: the position at each
      `Mark`. */
  function Marks(g: Grid, p: Pose, ms: seq<Move>): seq<Vec2>
    decreases |ms|
  {
    if ms == [] then []
    else (if ms[0] == Mark then [p.pos] else []) + Marks(g, Exec(g, p, ms[0]), ms[1..])
  }

  /** How many `Mark` moves the first `i` moves of a program hold. */
  function MarksBefore(ms: seq<Move>, i: nat): nat
    requires i <= |ms|
  {
    if i == 0 then 0 else MarksBefore(ms, i - 1) + (if ms[i - 1] == Mark then 1 else 0)
  }

  /** How many `Mark` moves a program holds. */
  function MarkCount(ms: seq<Move>): nat
  {
    MarksBefore(ms, |ms|)
  }

  /** A prefix of the join counts as the same prefix of its first part. */
  lemma {:induction false} MarksBeforeLeft(a: seq<Move>, b: seq<Move>, i: nat)
    requires i <= |a|
    ensures MarksBefore(a + b, i) == MarksBefore(a, i)
  {
    if i > 0 {
      MarksBeforeLeft(a, b, i - 1);
    }
  }

  /** Past the first part, the join counts the first part and a prefix of
      the second. */
  lemma {:induction false} MarksBeforeRight(a: seq<Move>, b: seq<Move>, j: nat)
    requires j <= |b|
    ensures MarksBefore(a + b, |a| + j) == MarksBefore(a, |a|) + MarksBefore(b, j)
  {
    if j == 0 {
      MarksBeforeLeft(a, b, |a|);
    } else {
      MarksBeforeRight(a, b, j - 1);
    }
  }

  /** A program's mark count adds up over a join. */
  lemma MarkCountJoin(a: seq<Move>, b: seq<Move>)
    ensures MarkCount(a + b) == MarkCount(a) + MarkCount(b)
  {
    MarksBeforeRight(a, b, |b|);
  }

  /** A turn writes no point. */
  lemma RotCount(k: int)
    ensures MarkCount([Rot(k)]) == 0
  {
    assert MarksBefore([Rot(k)], 0) == 0;
  }

  /** `forward(len); point()` writes one point. */
  lemma LeafCount(len: real)
    ensures MarkCount([Fwd(len), Mark]) == 1
  {
    assert MarksBefore([Fwd(len), Mark], 1) == 0;
  }

  /** A program writes one point per `Mark`, wherever it starts. */
  lemma {:induction false} MarksLength(g: Grid, p: Pose, ms: seq<Move>)
    decreases |ms|
    ensures |Marks(g, p, ms)| == MarkCount(ms)
  {
    if ms != [] {
      MarksLength(g, Exec(g, p, ms[0]), ms[1..]);
      MarkCountJoin([ms[0]], ms[1..]);
      assert [ms[0]] + ms[1..] == ms;
      assert MarksBefore([ms[0]], 0) == 0;
    }
  }

  /** Running two programs one after the other ends where the second ends
      when started from the end of the first. */
  lemma {:induction false} WalkJoin(g: Grid, p: Pose, a: seq<Move>, b: seq<Move>)
    decreases |a|
    ensures Walk(g, p, a + b) == Walk(g, Walk(g, p, a), b)
  {
    if a == [] {
      assert a + b == b;
    } else {
      assert (a + b)[0] == a[0];
      assert (a + b)[1..] == a[1..] + b;
      WalkJoin(g, Exec(g, p, a[0]), a[1..], b);
    }
  }

  /** Running two programs one after the other writes the first one's points,
      then the second one's from where the first ended. */
  lemma {:induction false} MarksJoin(g: Grid, p: Pose, a: seq<Move>, b: seq<Move>)
    decreases |a|
    ensures Marks(g, p, a + b) == Marks(g, p, a) + Marks(g, Walk(g, p, a), b)
  {
    if a == [] {
      assert a + b == b;
    } else {
      assert (a + b)[0] == a[0];
      assert (a + b)[1..] == a[1..] + b;
      MarksJoin(g, Exec(g, p, a[0]), a[1..], b);
    }
  }

  /** A single turn turns and writes nothing. */
  lemma RotOnly(g: Grid, p: Pose, k: int)
    ensures Walk(g, p, [Rot(k)]) == Turn(p, k)
    ensures Marks(g, p, [Rot(k)]) == []
  {
    assert [Rot(k)][1..] == [];
  }

  function Last(s: seq<Vec2>): Vec2
  {
    if |s| == 0 then Zero else s[|s| - 1]
  }

  /** A program's last point is where it ends: it finishes with `point()`. */
  predicate EndsOnMark(g: Grid, p: Pose, ms: seq<Move>)
  {
    |Marks(g, p, ms)| > 0 && Last(Marks(g, p, ms)) == Walk(g, p, ms).pos
  }

  /** A program whose tail ends on a mark ends on a mark. */
  lemma EndsOnMarkJoin(g: Grid, p: Pose, a: seq<Move>, b: seq<Move>)
    requires EndsOnMark(g, Walk(g, p, a), b)
    ensures EndsOnMark(g, p, a + b)
  {
    WalkJoin(g, p, a, b);
    MarksJoin(g, p, a, b);
  }

  /** The moves `koch(len, m, n)` makes, in order. */
  function KochMoves(len: real, m: nat, n: nat): seq<Move>
    decreases n, m
  {
    var d := len / 3.0;
    if n == 0 && m == 0 then [Fwd(len), Mark]
    else if n == 0 then
      var a, b := KochMoves(d, m - 1, 0), KochMoves(d / 2.0, m - 1, 0);
      a + b + b + a
    else
      var a, l, r := KochMoves(d, m, n - 1), [Rot(-1)], [Rot(2)];
      a + l + a + r + a + l + a
  }

  /** The moves `qoch(len, m, n)` makes, in order. */
  function QochMoves(len: real, m: nat, n: nat): seq<Move>
    decreases n, m
  {
    var d := len / 3.0;
    if n == 0 && m == 0 then [Fwd(len), Mark]
    else if n == 0 then
      var a, z := QochMoves(d, m - 1, 0), QochMoves(0.0, m - 1, 0);
      a + z + a + z + a
    else
      var a, l, r := QochMoves(d, m, n - 1), [Rot(-1)], [Rot(1)];
      a + l + a + r + a + r + a + l + a
  }

  /** `koch(len, m, n)` writes 4^(m+n) points: each level of either kind
      of recursion makes four copies of the level below. */
  lemma {:induction false} KochCount(len: real, m: nat, n: nat)
    decreases n, m, 1
    ensures MarkCount(KochMoves(len, m, n)) == Pow4(m + n)
  {
    if n == 0 && m == 0 {
      LeafCount(len);
    } else if n == 0 {
      KochCountDivided(len, m);
    } else {
      KochCountBent(len, m, n);
    }
  }

  lemma {:induction false} KochCountDivided(len: real, m: nat)
    requires m > 0
    decreases 0, m, 0
    ensures MarkCount(KochMoves(len, m, 0)) == Pow4(m)
  {
    var d := len / 3.0;
    var a, b := KochMoves(d, m - 1, 0), KochMoves(d / 2.0, m - 1, 0);
    KochCount(d, m - 1, 0);
    KochCount(d / 2.0, m - 1, 0);
    assert KochMoves(len, m, 0) == a + b + b + a;
    CountFourStep(KochMoves(len, m, 0), a, b, m - 1);
  }

  lemma {:induction false} KochCountBent(len: real, m: nat, n: nat)
    requires n > 0
    decreases n, m, 0
    ensures MarkCount(KochMoves(len, m, n)) == Pow4(m + n)
  {
    var a := KochMoves(len / 3.0, m, n - 1);
    KochCount(len / 3.0, m, n - 1);
    assert KochMoves(len, m, n) == a + [Rot(-1)] + a + [Rot(2)] + a + [Rot(-1)] + a;
    CountBentFourStep(KochMoves(len, m, n), a, m + n - 1);
  }

  /** `qoch(len, m, n)` writes 5^(m+n) points: each level makes five copies
      of the level below (two of them of length 0 in the `m` recursion). */
  lemma {:induction false} QochCount(len: real, m: nat, n: nat)
    decreases n, m, 1
    ensures MarkCount(QochMoves(len, m, n)) == Pow5(m + n)
  {
    if n == 0 && m == 0 {
      LeafCount(len);
    } else if n == 0 {
      QochCountDivided(len, m);
    } else {
      QochCountBent(len, m, n);
    }
  }

  lemma {:induction false} QochCountDivided(len: real, m: nat)
    requires m > 0
    decreases 0, m, 0
    ensures MarkCount(QochMoves(len, m, 0)) == Pow5(m)
  {
    var d := len / 3.0;
    var a, z := QochMoves(d, m - 1, 0), QochMoves(0.0, m - 1, 0);
    QochCount(d, m - 1, 0);
    QochCount(0.0, m - 1, 0);
    assert QochMoves(len, m, 0) == a + z + a + z + a;
    CountFiveStep(QochMoves(len, m, 0), a, z, m - 1);
  }

  lemma {:induction false} QochCountBent(len: real, m: nat, n: nat)
    requires n > 0
    decreases n, m, 0
    ensures MarkCount(QochMoves(len, m, n)) == Pow5(m + n)
  {
    var a := QochMoves(len / 3.0, m, n - 1);
    QochCount(len / 3.0, m, n - 1);
    assert QochMoves(len, m, n) == a + [Rot(-1)] + a + [Rot(1)] + a + [Rot(1)] + a + [Rot(-1)] + a;
    CountBentFiveStep(QochMoves(len, m, n), a, m + n - 1);
  }

  /** Four copies of programs of 4^k points hold 4^(k+1). */
  lemma CountFourStep(ms: seq<Move>, a: seq<Move>, b: seq<Move>, k: nat)
    requires ms == a + b + b + a && MarkCount(a) == Pow4(k) && MarkCount(b) == Pow4(k)
    ensures MarkCount(ms) == Pow4(k + 1)
  {
    CountFour(a, b);
  }

  lemma CountBentFourStep(ms: seq<Move>, a: seq<Move>, k: nat)
    requires ms == a + [Rot(-1)] + a + [Rot(2)] + a + [Rot(-1)] + a && MarkCount(a) == Pow4(k)
    ensures MarkCount(ms) == Pow4(k + 1)
  {
    CountBentFour(a, -1, 2, -1);
  }

  /** Five copies of programs of 5^k points hold 5^(k+1). */
  lemma CountFiveStep(ms: seq<Move>, a: seq<Move>, z: seq<Move>, k: nat)
    requires ms == a + z + a + z + a && MarkCount(a) == Pow5(k) && MarkCount(z) == Pow5(k)
    ensures MarkCount(ms) == Pow5(k + 1)
  {
    CountFive(a, z);
  }

  lemma CountBentFiveStep(ms: seq<Move>, a: seq<Move>, k: nat)
    requires ms == a + [Rot(-1)] + a + [Rot(1)] + a + [Rot(1)] + a + [Rot(-1)] + a && MarkCount(a) == Pow5(k)
    ensures MarkCount(ms) == Pow5(k + 1)
  {
    CountBentFive(a, -1, 1, 1, -1);
  }

  lemma CountFour(a: seq<Move>, b: seq<Move>)
    ensures MarkCount(a + b + b + a) == 2 * MarkCount(a) + 2 * MarkCount(b)
  {
    MarkCountJoin(a, b);
    MarkCountJoin(a + b, b);
    MarkCountJoin(a + b + b, a);
  }

  lemma CountFive(a: seq<Move>, z: seq<Move>)
    ensures MarkCount(a + z + a + z + a) == 3 * MarkCount(a) + 2 * MarkCount(z)
  {
    MarkCountJoin(a, z);
    MarkCountJoin(a + z, a);
    MarkCountJoin(a + z + a, z);
    MarkCountJoin(a + z + a + z, a);
  }

  /** Turns between copies add no points. */
  lemma CountTurned(s: seq<Move>, t: int, a: seq<Move>)
    ensures MarkCount(s + [Rot(t)] + a) == MarkCount(s) + MarkCount(a)
  {
    RotCount(t);
    MarkCountJoin(s, [Rot(t)]);
    MarkCountJoin(s + [Rot(t)], a);
  }

  lemma CountBentFour(a: seq<Move>, t1: int, t2: int, t3: int)
    ensures MarkCount(a + [Rot(t1)] + a + [Rot(t2)] + a + [Rot(t3)] + a) == 4 * MarkCount(a)
  {
    CountTurned(a, t1, a);
    CountTurned(a + [Rot(t1)] + a, t2, a);
    CountTurned(a + [Rot(t1)] + a + [Rot(t2)] + a, t3, a);
  }

  lemma CountBentFive(a: seq<Move>, t1: int, t2: int, t3: int, t4: int)
    ensures MarkCount(a + [Rot(t1)] + a + [Rot(t2)] + a + [Rot(t3)] + a + [Rot(t4)] + a) == 5 * MarkCount(a)
  {
    CountTurned(a, t1, a);
    CountTurned(a + [Rot(t1)] + a, t2, a);
    CountTurned(a + [Rot(t1)] + a + [Rot(t2)] + a, t3, a);
    CountTurned(a + [Rot(t1)] + a + [Rot(t2)] + a + [Rot(t3)] + a, t4, a);
  }

  /** `forward(len); point()` moves one step and writes where it lands. */
  lemma LeafRun(g: Grid, p: Pose, len: real)
    ensures Walk(g, p, [Fwd(len), Mark]) == Ahead(g, p, len)
    ensures Marks(g, p, [Fwd(len), Mark]) == [Ahead(g, p, len).pos]
  {
    assert [Fwd(len), Mark][1..] == [Mark];
    assert [Mark][1..] == [];
  }


  /** Legs u, v, w, u cover the same ground as u, u, u when v and w add up
      to u. */
  lemma BumpSpans(p: Vec2, u: Vec2, v: Vec2, w: Vec2, uu: Vec2, uuu: Vec2)
    requires v.Add(w) == u && u.Add(u) == uu && uu.Add(u) == uuu
    ensures p.Add(u).Add(v).Add(w).Add(u) == p.Add(uuu)
  {
  }

  /** Legs of len/3 turned −60°, +120° and −60° in between make one leg of
      `len`: the two sides of the bump span its base. */
  lemma KochBent(p: Pose, len: real)
    ensures Ahead(Hex, Turn(Ahead(Hex, Turn(Ahead(Hex, Turn(Ahead(Hex, p, len / 3.0), -1),
                  len / 3.0), 2), len / 3.0), -1), len / 3.0)
         == Ahead(Hex, p, len)
  {
    var h, d := p.heading, len / 3.0;
    var u, v, w := Step(Hex, h, d), Step(Hex, h - 1, d), Step(Hex, h + 1, d);
    var q1 := Turn(Ahead(Hex, p, d), -1);
    assert q1 == Pose(h - 1, p.pos.Add(u));
    var q2 := Turn(Ahead(Hex, q1, d), 2);
    assert q2 == Pose(h + 1, p.pos.Add(u).Add(v));
    var q3 := Turn(Ahead(Hex, q2, d), -1);
    assert q3 == Pose(h, p.pos.Add(u).Add(v).Add(w));
    assert Ahead(Hex, q3, d) == Pose(h, p.pos.Add(u).Add(v).Add(w).Add(u));
    HexSides(h, d);
    StepSplit(Hex, h, d, d);
    StepSplit(Hex, h, 2.0 * d, d);
    assert 2.0 * d + d == len;
    BumpSpans(p.pos, u, v, w, Step(Hex, h, 2.0 * d), Step(Hex, h, len));
  }


  /** Legs of len/3 turned −90°, +90°, +90° and −90° in between make one leg
      of `len`: the two side legs cancel. */
  lemma QochBent(p: Pose, len: real)
    ensures Ahead(Square, Turn(Ahead(Square, Turn(Ahead(Square, Turn(Ahead(Square,
                  Turn(Ahead(Square, p, len / 3.0), -1), len / 3.0), 1), len / 3.0), 1),
                  len / 3.0), -1), len / 3.0)
         == Ahead(Square, p, len)
  {
    var h, d := p.heading, len / 3.0;
    var u, v, w := Step(Square, h, d), Step(Square, h - 1, d), Step(Square, h + 1, d);
    var q1 := Turn(Ahead(Square, p, d), -1);
    assert q1 == Pose(h - 1, p.pos.Add(u));
    var q2 := Turn(Ahead(Square, q1, d), 1);
    assert q2 == Pose(h, p.pos.Add(u).Add(v));
    var q3 := Turn(Ahead(Square, q2, d), 1);
    assert q3 == Pose(h + 1, p.pos.Add(u).Add(v).Add(u));
    var q4 := Turn(Ahead(Square, q3, d), -1);
    assert q4 == Pose(h, p.pos.Add(u).Add(v).Add(u).Add(w));
    SquareSides(h, d);
    StepSplit(Square, h, d, d);
    StepSplit(Square, h, 2.0 * d, d);
  }

  /** The total length of a program's forward moves. */
  function Travel(ms: seq<Move>): real
    decreases |ms|
  {
    if ms == [] then 0.0
    else (if ms[0].Fwd? then ms[0].len else 0.0) + Travel(ms[1..])
  }

  /** A program that never turns. */
  predicate Unturned(ms: seq<Move>)
  {
    forall i :: 0 <= i < |ms| ==> !ms[i].Rot?
  }

  /** Forward lengths add up over a join. */
  lemma {:induction false} TravelJoin(a: seq<Move>, b: seq<Move>)
    decreases |a|
    ensures Travel(a + b) == Travel(a) + Travel(b)
  {
    if a == [] {
      assert a + b == b;
    } else {
      assert (a + b)[0] == a[0];
      assert (a + b)[1..] == a[1..] + b;
      TravelJoin(a[1..], b);
    }
  }

  /** A join of programs that never turn never turns. */
  lemma UnturnedJoin(a: seq<Move>, b: seq<Move>)
    requires Unturned(a) && Unturned(b)
    ensures Unturned(a + b)
  {
    forall i | 0 <= i < |a + b|
      ensures !(a + b)[i].Rot?
    {
      if i < |a| {
        assert (a + b)[i] == a[i];
      } else {
        assert (a + b)[i] == b[i - |a|];
      }
    }
  }

  /** Four unturned pieces, the outer two alike and the inner two alike. */
  lemma UnturnedFour(ms: seq<Move>, a: seq<Move>, b: seq<Move>)
    requires ms == a + b + b + a
    requires Unturned(a) && Unturned(b)
    ensures Unturned(ms)
    ensures Travel(ms) == 2.0 * Travel(a) + 2.0 * Travel(b)
  {
    UnturnedJoin(a, b);
    UnturnedJoin(a + b, b);
    UnturnedJoin(a + b + b, a);
    TravelJoin(a, b);
    TravelJoin(a + b, b);
    TravelJoin(a + b + b, a);
  }

  /** Five unturned pieces alternating between two programs. */
  lemma UnturnedFive(ms: seq<Move>, a: seq<Move>, z: seq<Move>)
    requires ms == a + z + a + z + a
    requires Unturned(a) && Unturned(z)
    ensures Unturned(ms)
    ensures Travel(ms) == 3.0 * Travel(a) + 2.0 * Travel(z)
  {
    UnturnedJoin(a, z);
    UnturnedJoin(a + z, a);
    UnturnedJoin(a + z + a, z);
    UnturnedJoin(a + z + a + z, a);
    TravelJoin(a, z);
    TravelJoin(a + z, a);
    TravelJoin(a + z + a, z);
    TravelJoin(a + z + a + z, a);
  }

  /** A program that never turns ends straight ahead of where it started, by
      the total of its forward lengths. */
  lemma {:induction false} UnturnedWalk(g: Grid, p: Pose, ms: seq<Move>)
    requires Unturned(ms)
    decreases |ms|
    ensures Walk(g, p, ms) == Ahead(g, p, Travel(ms))
  {
    if ms == [] {
      StepZero(g, p.heading);
    } else {
      assert !ms[0].Rot?;
      var q := Exec(g, p, ms[0]);
      assert q.heading == p.heading;
      assert Unturned(ms[1..]) by {
        forall i | 0 <= i < |ms[1..]|
          ensures !ms[1..][i].Rot?
        {
          assert ms[1..][i] == ms[i + 1];
        }
      }
      UnturnedWalk(g, q, ms[1..]);
      var rest := Travel(ms[1..]);
      if ms[0].Fwd? {
        StepSplit(g, p.heading, ms[0].len, rest);
        assert p.pos.Add(Step(g, p.heading, ms[0].len)).Add(Step(g, p.heading, rest))
            == p.pos.Add(Step(g, p.heading, ms[0].len + rest));
      } else {
        assert Travel(ms) == rest;
      }
    }
  }

  /** `koch(len, m, 0)` never turns, and its forward moves total `len`. */
  lemma {:induction false} KochUnturned(len: real, m: nat)
    decreases m
    ensures Unturned(KochMoves(len, m, 0))
    ensures Travel(KochMoves(len, m, 0)) == len
  {
    if m == 0 {
      assert [Fwd(len), Mark][1..] == [Mark];
      assert [Mark][1..] == [];
    } else {
      var d := len / 3.0;
      var a, b := KochMoves(d, m - 1, 0), KochMoves(d / 2.0, m - 1, 0);
      KochUnturned(d, m - 1);
      KochUnturned(d / 2.0, m - 1);
      assert KochMoves(len, m, 0) == a + b + b + a;
      UnturnedFour(KochMoves(len, m, 0), a, b);
    }
  }

  /** `qoch(len, m, 0)` never turns, and its forward moves total `len`. */
  lemma {:induction false} QochUnturned(len: real, m: nat)
    decreases m
    ensures Unturned(QochMoves(len, m, 0))
    ensures Travel(QochMoves(len, m, 0)) == len
  {
    if m == 0 {
      assert [Fwd(len), Mark][1..] == [Mark];
      assert [Mark][1..] == [];
    } else {
      var d := len / 3.0;
      var a, z := QochMoves(d, m - 1, 0), QochMoves(0.0, m - 1, 0);
      QochUnturned(d, m - 1);
      QochUnturned(0.0, m - 1);
      assert QochMoves(len, m, 0) == a + z + a + z + a;
      UnturnedFive(QochMoves(len, m, 0), a, z);
    }
  }

  /** However deep its recursion, `koch(len, m, n)` leaves the turtle one
      straight step of `len` ahead, heading the way it started. */
  lemma {:induction false} KochEnds(p: Pose, len: real, m: nat, n: nat)
    decreases n, m, 1
    ensures Walk(Hex, p, KochMoves(len, m, n)) == Ahead(Hex, p, len)
  {
    if n == 0 {
      KochUnturned(len, m);
      UnturnedWalk(Hex, p, KochMoves(len, m, 0));
    } else {
      KochBendEnds(p, len, m, n);
    }
  }



  lemma {:induction false} KochBendEnds(p: Pose, len: real, m: nat, n: nat)
    requires 0 < n
    decreases n, m, 0
    ensures Walk(Hex, p, KochMoves(len, m, n)) == Ahead(Hex, p, len)
  {
    var d := len / 3.0;
    var a := KochMoves(d, m, n - 1);
    forall q: Pose
      ensures Walk(Hex, q, a) == Ahead(Hex, q, d)
    {
      KochEnds(q, d, m, n - 1);
    }
    BentFour(Hex, p, a, d, -1, 2, -1);
    KochBent(p, len);
  }

  /** Four straight sub-walks of `d` with three turns between them. */
  lemma BentFour(g: Grid, p: Pose, a: seq<Move>, d: real, t1: int, t2: int, t3: int)
    requires forall q: Pose :: Walk(g, q, a) == Ahead(g, q, d)
    ensures Walk(g, p, a + [Rot(t1)] + a + [Rot(t2)] + a + [Rot(t3)] + a)
         == Ahead(g, Turn(Ahead(g, Turn(Ahead(g, Turn(Ahead(g, p, d), t1), d), t2), d), t3), d)
  {
    var x1 := Ahead(g, p, d);
    var x2 := Ahead(g, Turn(x1, t1), d);
    var x3 := Ahead(g, Turn(x2, t2), d);
    var s2 := a + [Rot(t1)] + a;
    TurnLeg(g, p, a, a, t1, x1, x2);
    var s3 := s2 + [Rot(t2)] + a;
    TurnLeg(g, p, s2, a, t2, x2, x3);
    TurnLeg(g, p, s3, a, t3, x3, Ahead(g, Turn(x3, t3), d));
  }

  /** However deep its recursion, `qoch(len, m, n)` leaves the turtle one
      straight step of `len` ahead, heading the way it started. */
  lemma {:induction false} QochEnds(p: Pose, len: real, m: nat, n: nat)
    decreases n, m, 1
    ensures Walk(Square, p, QochMoves(len, m, n)) == Ahead(Square, p, len)
  {
    if n == 0 {
      QochUnturned(len, m);
      UnturnedWalk(Square, p, QochMoves(len, m, 0));
    } else {
      QochBendEnds(p, len, m, n);
    }
  }



  lemma {:induction false} QochBendEnds(p: Pose, len: real, m: nat, n: nat)
    requires 0 < n
    decreases n, m, 0
    ensures Walk(Square, p, QochMoves(len, m, n)) == Ahead(Square, p, len)
  {
    var d := len / 3.0;
    var a := QochMoves(d, m, n - 1);
    forall q: Pose
      ensures Walk(Square, q, a) == Ahead(Square, q, d)
    {
      QochEnds(q, d, m, n - 1);
    }
    BentFive(Square, p, a, d, -1, 1, 1, -1);
    QochBent(p, len);
  }

  /** Five straight sub-walks of `d` with four turns between them. */
  lemma BentFive(g: Grid, p: Pose, a: seq<Move>, d: real, t1: int, t2: int, t3: int, t4: int)
    requires forall q: Pose :: Walk(g, q, a) == Ahead(g, q, d)
    ensures Walk(g, p, a + [Rot(t1)] + a + [Rot(t2)] + a + [Rot(t3)] + a + [Rot(t4)] + a)
         == Ahead(g, Turn(Ahead(g, Turn(Ahead(g, Turn(Ahead(g, Turn(Ahead(g, p, d), t1), d), t2), d), t3), d), t4), d)
  {
    var x1 := Ahead(g, p, d);
    var x2 := Ahead(g, Turn(x1, t1), d);
    var x3 := Ahead(g, Turn(x2, t2), d);
    var x4 := Ahead(g, Turn(x3, t3), d);
    var s2 := a + [Rot(t1)] + a;
    TurnLeg(g, p, a, a, t1, x1, x2);
    var s3 := s2 + [Rot(t2)] + a;
    TurnLeg(g, p, s2, a, t2, x2, x3);
    var s4 := s3 + [Rot(t3)] + a;
    TurnLeg(g, p, s3, a, t3, x3, x4);
    TurnLeg(g, p, s4, a, t4, x4, Ahead(g, Turn(x4, t4), d));
  }

  /** A walk that ends at `y`, a turn by `t` and a walk from there to `x`, end at `x`. */
  lemma TurnLeg(g: Grid, p: Pose, s: seq<Move>, a: seq<Move>, t: int, y: Pose, x: Pose)
    requires Walk(g, p, s) == y && Walk(g, Turn(y, t), a) == x
    ensures Walk(g, p, s + [Rot(t)] + a) == x
  {
    WalkJoin(g, p, s, [Rot(t)]);
    RotOnly(g, y, t);
    WalkJoin(g, p, s + [Rot(t)], a);
  }

  /** The last point `koch(len, m, n)` writes is where it leaves the turtle. */
  lemma {:induction false} KochEndsOnMark(p: Pose, len: real, m: nat, n: nat)
    decreases n, m
    ensures EndsOnMark(Hex, p, KochMoves(len, m, n))
  {
    var d := len / 3.0;
    if n == 0 && m == 0 {
      LeafRun(Hex, p, len);
    } else if n == 0 {
      var a, b := KochMoves(d, m - 1, 0), KochMoves(d / 2.0, m - 1, 0);
      assert KochMoves(len, m, n) == a + b + b + a;
      KochEndsOnMark(Walk(Hex, p, a + b + b), d, m - 1, 0);
      EndsOnMarkJoin(Hex, p, a + b + b, a);
    } else {
      var a, l, r := KochMoves(d, m, n - 1), [Rot(-1)], [Rot(2)];
      assert KochMoves(len, m, n) == a + l + a + r + a + l + a;
      KochEndsOnMark(Walk(Hex, p, a + l + a + r + a + l), d, m, n - 1);
      EndsOnMarkJoin(Hex, p, a + l + a + r + a + l, a);
    }
  }

  /** The last point `qoch(len, m, n)` writes is where it leaves the turtle. */
  lemma {:induction false} QochEndsOnMark(p: Pose, len: real, m: nat, n: nat)
    decreases n, m
    ensures EndsOnMark(Square, p, QochMoves(len, m, n))
  {
    var d := len / 3.0;
    if n == 0 && m == 0 {
      LeafRun(Square, p, len);
    } else if n == 0 {
      var a, z := QochMoves(d, m - 1, 0), QochMoves(0.0, m - 1, 0);
      assert QochMoves(len, m, n) == a + z + a + z + a;
      QochEndsOnMark(Walk(Square, p, a + z + a + z), d, m - 1, 0);
      EndsOnMarkJoin(Square, p, a + z + a + z, a);
    } else {
      var a, l, r := QochMoves(d, m, n - 1), [Rot(-1)], [Rot(1)];
      assert QochMoves(len, m, n) == a + l + a + r + a + r + a + l + a;
      QochEndsOnMark(Walk(Square, p, a + l + a + r + a + r + a + l), d, m, n - 1);
      EndsOnMarkJoin(Square, p, a + l + a + r + a + r + a + l, a);
    }
  }

  /** The last point `koch(len, m, n)` writes is one straight step of `len`
      from where it started: however deep the recursion, the detours close. */
  lemma KochLastPoint(p: Pose, len: real, m: nat, n: nat)
    ensures |Marks(Hex, p, KochMoves(len, m, n))| == Pow4(m + n)
    ensures Last(Marks(Hex, p, KochMoves(len, m, n))) == Ahead(Hex, p, len).pos
  {
    MarksLength(Hex, p, KochMoves(len, m, n));
    KochCount(len, m, n);
    KochEndsOnMark(p, len, m, n);
    KochEnds(p, len, m, n);
  }

  /** The last point `qoch(len, m, n)` writes is one straight step of `len`
      from where it started. */
  lemma QochLastPoint(p: Pose, len: real, m: nat, n: nat)
    ensures |Marks(Square, p, QochMoves(len, m, n))| == Pow5(m + n)
    ensures Last(Marks(Square, p, QochMoves(len, m, n))) == Ahead(Square, p, len).pos
  {
    MarksLength(Square, p, QochMoves(len, m, n));
    QochCount(len, m, n);
    QochEndsOnMark(p, len, m, n);
    QochEnds(p, len, m, n);
  }

  /** The turtle's log of moves after `koch(len, m, n)` has run from a log
      `w`: the calls `koch` makes, appended one at a time in its own order. */
  function KochRun(w: seq<Move>, len: real, m: nat, n: nat): seq<Move>
    decreases n, m
  {
    var d := len / 3.0;
    if n == 0 && m == 0 then w + [Fwd(len)] + [Mark]
    else if n == 0 then
      KochRun(KochRun(KochRun(KochRun(w, d, m - 1, 0), d / 2.0, m - 1, 0), d / 2.0, m - 1, 0), d, m - 1, 0)
    else
      KochRun(KochRun(KochRun(KochRun(w, d, m, n - 1) + [Rot(-1)], d, m, n - 1) + [Rot(2)], d, m, n - 1)
        + [Rot(-1)], d, m, n - 1)
  }

  /** The same for `qoch(len, m, n)`. */
  function QochRun(w: seq<Move>, len: real, m: nat, n: nat): seq<Move>
    decreases n, m
  {
    var d := len / 3.0;
    if n == 0 && m == 0 then w + [Fwd(len)] + [Mark]
    else if n == 0 then
      QochRun(QochRun(QochRun(QochRun(QochRun(w, d, m - 1, 0), 0.0, m - 1, 0), d, m - 1, 0), 0.0, m - 1, 0),
        d, m - 1, 0)
    else
      QochRun(QochRun(QochRun(QochRun(QochRun(w, d, m, n - 1) + [Rot(-1)], d, m, n - 1) + [Rot(1)], d, m, n - 1)
        + [Rot(1)], d, m, n - 1) + [Rot(-1)], d, m, n - 1)
  }

  lemma Regroup<T>(w: seq<T>, x: seq<T>, y: seq<T>)
    ensures w + x + y == w + (x + y)
  {
  }

  /** Four pieces appended one after another to `w`. */
  lemma Chain4<T>(w: seq<T>, w1: seq<T>, w2: seq<T>, w3: seq<T>, w4: seq<T>, a: seq<T>, b: seq<T>)
    requires w1 == w + a && w2 == w1 + b && w3 == w2 + b && w4 == w3 + a
    ensures w4 == w + (a + b + b + a)
  {
    Regroup(w, a, b);
    Regroup(w, a + b, b);
    Regroup(w, a + b + b, a);
  }

  /** Five pieces appended one after another to `w`. */
  lemma Chain5<T>(w: seq<T>, w1: seq<T>, w2: seq<T>, w3: seq<T>, w4: seq<T>, w5: seq<T>, a: seq<T>, z: seq<T>)
    requires w1 == w + a && w2 == w1 + z && w3 == w2 + a && w4 == w3 + z && w5 == w4 + a
    ensures w5 == w + (a + z + a + z + a)
  {
    Regroup(w, a, z);
    Regroup(w, a + z, a);
    Regroup(w, a + z + a, z);
    Regroup(w, a + z + a + z, a);
  }

  /** Four copies of `a` with turns `l`, `r`, `l` between them, appended
      one after another to `w`. */
  lemma Chain7<T>(w: seq<T>, w1: seq<T>, w2: seq<T>, w3: seq<T>, w4: seq<T>, a: seq<T>, l: seq<T>, r: seq<T>)
    requires w1 == w + a && w2 == w1 + l + a && w3 == w2 + r + a && w4 == w3 + l + a
    ensures w4 == w + (a + l + a + r + a + l + a)
  {
    Regroup(w, a, l);
    Regroup(w, a + l, a);
    Regroup(w, a + l + a, r);
    Regroup(w, a + l + a + r, a);
    Regroup(w, a + l + a + r + a, l);
    Regroup(w, a + l + a + r + a + l, a);
  }

  /** Five copies of `a` with turns `l`, `r`, `r`, `l` between them,
      appended one after another to `w`. */
  lemma Chain9<T>(w: seq<T>, w1: seq<T>, w2: seq<T>, w3: seq<T>, w4: seq<T>, w5: seq<T>,
                  a: seq<T>, l: seq<T>, r: seq<T>)
    requires w1 == w + a && w2 == w1 + l + a && w3 == w2 + r + a && w4 == w3 + r + a && w5 == w4 + l + a
    ensures w5 == w + (a + l + a + r + a + r + a + l + a)
  {
    Regroup(w, a, l);
    Regroup(w, a + l, a);
    Regroup(w, a + l + a, r);
    Regroup(w, a + l + a + r, a);
    Regroup(w, a + l + a + r + a, r);
    Regroup(w, a + l + a + r + a + r, a);
    Regroup(w, a + l + a + r + a + r + a, l);
    Regroup(w, a + l + a + r + a + r + a + l, a);
  }

  /** Running `koch` appends exactly its program to the log. */
  lemma {:induction false} KochRunMoves(w: seq<Move>, len: real, m: nat, n: nat)
    decreases n, m, 1
    ensures KochRun(w, len, m, n) == w + KochMoves(len, m, n)
  {
    if n == 0 && m == 0 {
      assert [Fwd(len)] + [Mark] == [Fwd(len), Mark];
    } else if n == 0 {
      KochRunDivided(w, len, m);
    } else {
      KochRunBent(w, len, m, n);
    }
  }

  /** The `m` recursion of `koch`: four calls appended in turn. */
  lemma {:induction false} KochRunDivided(w: seq<Move>, len: real, m: nat)
    requires m > 0
    decreases 0, m, 0
    ensures KochRun(w, len, m, 0) == w + KochMoves(len, m, 0)
  {
    var d := len / 3.0;
    var a, b := KochMoves(d, m - 1, 0), KochMoves(d / 2.0, m - 1, 0);
    var w1 := KochRun(w, d, m - 1, 0);
    KochRunMoves(w, d, m - 1, 0);
    var w2 := KochRun(w1, d / 2.0, m - 1, 0);
    KochRunMoves(w1, d / 2.0, m - 1, 0);
    var w3 := KochRun(w2, d / 2.0, m - 1, 0);
    KochRunMoves(w2, d / 2.0, m - 1, 0);
    var w4 := KochRun(w3, d, m - 1, 0);
    KochRunMoves(w3, d, m - 1, 0);
    assert KochRun(w, len, m, 0) == w4;
    assert KochMoves(len, m, 0) == a + b + b + a;
    Chain4(w, w1, w2, w3, w4, a, b);
  }

  /** The `n` recursion of `koch`: four calls with turns between them. */
  lemma {:induction false} KochRunBent(w: seq<Move>, len: real, m: nat, n: nat)
    requires n > 0
    decreases n, m, 0
    ensures KochRun(w, len, m, n) == w + KochMoves(len, m, n)
  {
    var d := len / 3.0;
    var a := KochMoves(d, m, n - 1);
    var w1 := KochRun(w, d, m, n - 1);
    KochRunMoves(w, d, m, n - 1);
    var w2 := KochRun(w1 + [Rot(-1)], d, m, n - 1);
    KochRunMoves(w1 + [Rot(-1)], d, m, n - 1);
    var w3 := KochRun(w2 + [Rot(2)], d, m, n - 1);
    KochRunMoves(w2 + [Rot(2)], d, m, n - 1);
    var w4 := KochRun(w3 + [Rot(-1)], d, m, n - 1);
    KochRunMoves(w3 + [Rot(-1)], d, m, n - 1);
    Chain7(w, w1, w2, w3, w4, a, [Rot(-1)], [Rot(2)]);
  }

  /** Running `qoch` appends exactly its program to the log. */
  lemma {:induction false} QochRunMoves(w: seq<Move>, len: real, m: nat, n: nat)
    decreases n, m, 1
    ensures QochRun(w, len, m, n) == w + QochMoves(len, m, n)
  {
    if n == 0 && m == 0 {
      assert [Fwd(len)] + [Mark] == [Fwd(len), Mark];
    } else if n == 0 {
      QochRunDivided(w, len, m);
    } else {
      QochRunBent(w, len, m, n);
    }
  }

  /** The `m` recursion of `qoch`: five calls appended in turn. */
  lemma {:induction false} QochRunDivided(w: seq<Move>, len: real, m: nat)
    requires m > 0
    decreases 0, m, 0
    ensures QochRun(w, len, m, 0) == w + QochMoves(len, m, 0)
  {
    var d := len / 3.0;
    var a, z := QochMoves(d, m - 1, 0), QochMoves(0.0, m - 1, 0);
    var w1 := QochRun(w, d, m - 1, 0);
    QochRunMoves(w, d, m - 1, 0);
    var w2 := QochRun(w1, 0.0, m - 1, 0);
    QochRunMoves(w1, 0.0, m - 1, 0);
    var w3 := QochRun(w2, d, m - 1, 0);
    QochRunMoves(w2, d, m - 1, 0);
    var w4 := QochRun(w3, 0.0, m - 1, 0);
    QochRunMoves(w3, 0.0, m - 1, 0);
    var w5 := QochRun(w4, d, m - 1, 0);
    QochRunMoves(w4, d, m - 1, 0);
    Chain5(w, w1, w2, w3, w4, w5, a, z);
  }

  /** The `n` recursion of `qoch`: five calls with turns between them. */
  lemma {:induction false} QochRunBent(w: seq<Move>, len: real, m: nat, n: nat)
    requires n > 0
    decreases n, m, 0
    ensures QochRun(w, len, m, n) == w + QochMoves(len, m, n)
  {
    var d := len / 3.0;
    var a := QochMoves(d, m, n - 1);
    var w1 := QochRun(w, d, m, n - 1);
    QochRunMoves(w, d, m, n - 1);
    var w2 := QochRun(w1 + [Rot(-1)], d, m, n - 1);
    QochRunMoves(w1 + [Rot(-1)], d, m, n - 1);
    var w3 := QochRun(w2 + [Rot(1)], d, m, n - 1);
    QochRunMoves(w2 + [Rot(1)], d, m, n - 1);
    var w4 := QochRun(w3 + [Rot(1)], d, m, n - 1);
    QochRunMoves(w3 + [Rot(1)], d, m, n - 1);
    var w5 := QochRun(w4 + [Rot(-1)], d, m, n - 1);
    QochRunMoves(w4 + [Rot(-1)], d, m, n - 1);
    Chain9(w, w1, w2, w3, w4, w5, a, [Rot(-1)], [Rot(1)]);
  }

  /** Replaying a log extended by `koch(len, m, n)`: the turtle ends one step
      of `len` further on and the points written are the old ones followed by
      the curve's own. */
  lemma KochReplay(o: Pose, w: seq<Move>, len: real, m: nat, n: nat)
    ensures Walk(Hex, o, KochRun(w, len, m, n)) == Ahead(Hex, Walk(Hex, o, w), len)
    ensures Marks(Hex, o, KochRun(w, len, m, n))
         == Marks(Hex, o, w) + Marks(Hex, Walk(Hex, o, w), KochMoves(len, m, n))
  {
    KochRunMoves(w, len, m, n);
    WalkJoin(Hex, o, w, KochMoves(len, m, n));
    MarksJoin(Hex, o, w, KochMoves(len, m, n));
    KochEnds(Walk(Hex, o, w), len, m, n);
  }

  /** The same for `qoch(len, m, n)`. */
  lemma QochReplay(o: Pose, w: seq<Move>, len: real, m: nat, n: nat)
    ensures Walk(Square, o, QochRun(w, len, m, n)) == Ahead(Square, Walk(Square, o, w), len)
    ensures Marks(Square, o, QochRun(w, len, m, n))
         == Marks(Square, o, w) + Marks(Square, Walk(Square, o, w), QochMoves(len, m, n))
  {
    QochRunMoves(w, len, m, n);
    WalkJoin(Square, o, w, QochMoves(len, m, n));
    MarksJoin(Square, o, w, QochMoves(len, m, n));
    QochEnds(Walk(Square, o, w), len, m, n);
  }

  /** `for (i = 0; i < sides; ++i) { side; t_a += turn; }` after `i` rounds. */
  function Polygon(side: seq<Move>, turn: int, i: nat): seq<Move>
  {
    if i == 0 then [] else Polygon(side, turn, i - 1) + side + [Rot(turn)]
  }

  /** Where that loop leaves the turtle after `i` rounds, when each side is
      one straight step of `len`. */
  function Corner(g: Grid, p: Pose, len: real, turn: int, i: nat): Pose
  {
    if i == 0 then p else Turn(Ahead(g, Corner(g, p, len, turn, i - 1), len), turn)
  }

  /** A side that walks like one straight step makes the polygon loop walk
      from corner to corner. */
  lemma {:induction false} PolygonWalk(g: Grid, p: Pose, side: seq<Move>, len: real, turn: int, i: nat)
    requires forall q: Pose :: Walk(g, q, side) == Ahead(g, q, len)
    ensures Walk(g, p, Polygon(side, turn, i)) == Corner(g, p, len, turn, i)
  {
    if i > 0 {
      var s := Polygon(side, turn, i - 1);
      PolygonWalk(g, p, side, len, turn, i - 1);
      WalkJoin(g, p, s, side);
      TurnLeg(g, p, s + side, [], turn, Ahead(g, Corner(g, p, len, turn, i - 1), len), Corner(g, p, len, turn, i));
      assert s + side + [Rot(turn)] + [] == s + side + [Rot(turn)];
    }
  }

  /** Each round of the polygon loop writes one side's worth of points. */
  lemma {:induction false} PolygonCount(side: seq<Move>, turn: int, i: nat)
    ensures MarkCount(Polygon(side, turn, i)) == i * MarkCount(side)
  {
    if i > 0 {
      PolygonCount(side, turn, i - 1);
      CountTurned(Polygon(side, turn, i - 1) + side, turn, []);
      MarkCountJoin(Polygon(side, turn, i - 1), side);
      assert Polygon(side, turn, i - 1) + side + [Rot(turn)] + [] == Polygon(side, turn, i);
    }
  }

  /** When every side ends on a point, the last point of the loop is the
      corner the last side reached: the turn after it writes nothing. */
  lemma PolygonLast(g: Grid, p: Pose, side: seq<Move>, len: real, turn: int, i: nat)
    requires 0 < i
    requires forall q: Pose :: Walk(g, q, side) == Ahead(g, q, len) && EndsOnMark(g, q, side)
    ensures |Marks(g, p, Polygon(side, turn, i))| > 0
    ensures Last(Marks(g, p, Polygon(side, turn, i))) == Corner(g, p, len, turn, i).pos
  {
    var s := Polygon(side, turn, i - 1);
    PolygonWalk(g, p, side, len, turn, i - 1);
    EndsOnMarkJoin(g, p, s, side);
    WalkJoin(g, p, s, side);
    MarksJoin(g, p, s + side, [Rot(turn)]);
    RotOnly(g, Walk(g, p, s + side), turn);
    assert Marks(g, p, Polygon(side, turn, i)) == Marks(g, p, s + side) + [];
  }

  /** The points of fewer rounds of the polygon loop are a prefix of the
      points of more rounds. */
  lemma {:induction false} PolygonPrefix(g: Grid, p: Pose, side: seq<Move>, turn: int, i: nat, n: nat)
    requires i <= n
    decreases n
    ensures Marks(g, p, Polygon(side, turn, i)) <= Marks(g, p, Polygon(side, turn, n))
  {
    if i < n {
      var s := Polygon(side, turn, n - 1);
      PolygonPrefix(g, p, side, turn, i, n - 1);
      MarksJoin(g, p, s, side + [Rot(turn)]);
      assert s + (side + [Rot(turn)]) == Polygon(side, turn, n);
    }
  }

  /** With `c` points per side, the loop's point at index i·c − 1 is its
      i-th corner: every level passes through the same corners. */
  lemma PolygonCornerPoint(g: Grid, p: Pose, side: seq<Move>, len: real, turn: int, c: nat, i: nat, n: nat)
    requires 0 < i <= n && MarkCount(side) == c
    requires forall q: Pose :: Walk(g, q, side) == Ahead(g, q, len) && EndsOnMark(g, q, side)
    ensures 0 < i * c <= |Marks(g, p, Polygon(side, turn, n))|
    ensures Marks(g, p, Polygon(side, turn, n))[i * c - 1] == Corner(g, p, len, turn, i).pos
  {
    var a, b := Marks(g, p, Polygon(side, turn, i)), Marks(g, p, Polygon(side, turn, n));
    PolygonFacts(g, p, side, len, turn, i);
    PolygonFacts(g, p, side, len, turn, n);
    PolygonPrefix(g, p, side, turn, i, n);
    assert a == b[..|a|];
    assert b[|a| - 1] == a[|a| - 1];
  }

  /** How many sides `make_koch` and `make_qoch` draw per level. */
  const KochSides: nat := 3
  const QochSides: nat := 4
  /** The length of each side `make_koch` and `make_qoch` draw. */
  const KochLength: real := 1.2
  const QochLength: real := 1.0

  /** The program `make_koch` runs for one level: three sides
      `koch(1.2, 4 - k, k)`, each followed by a turn of 120°. */
  function KochTriangle(k: nat): seq<Move>
    requires k <= 4
  {
    Polygon(KochMoves(KochLength, 4 - k, k), 2, KochSides)
  }

  /** The program `make_qoch` runs for one level: four sides
      `qoch(1.0, 4 - k, k)`, each followed by a turn of 90°. */
  function QochSquare(k: nat): seq<Move>
    requires k <= 4
  {
    Polygon(QochMoves(QochLength, 4 - k, k), 1, QochSides)
  }

  /** What the polygon loop does with `i` rounds of a side that walks like
      one straight step and ends on a point. */
  lemma PolygonFacts(g: Grid, p: Pose, side: seq<Move>, len: real, turn: int, i: nat)
    requires 0 < i
    requires forall q: Pose :: Walk(g, q, side) == Ahead(g, q, len) && EndsOnMark(g, q, side)
    ensures 0 < |Marks(g, p, Polygon(side, turn, i))| == i * MarkCount(side)
    ensures Last(Marks(g, p, Polygon(side, turn, i))) == Corner(g, p, len, turn, i).pos
    ensures Walk(g, p, Polygon(side, turn, i)) == Corner(g, p, len, turn, i)
  {
    PolygonWalk(g, p, side, len, turn, i);
    PolygonLast(g, p, side, len, turn, i);
    MarksLength(g, p, Polygon(side, turn, i));
    PolygonCount(side, turn, i);
  }

  /** The headings the triangle's sides take: 0°, 120° and 240°. */
  lemma HexHeadings(len: real)
    ensures Step(Hex, 0, len) == Vec2(len, 0.0)
    ensures Step(Hex, 2, len) == Vec2(-len, len)
    ensures Step(Hex, 4, len) == Vec2(0.0, -len)
  {
    StepNext(Hex, 0, len);
    StepNext(Hex, 1, len);
    StepNext(Hex, 2, len);
    StepNext(Hex, 3, len);
  }

  /** The headings the square's sides take: 0°, 90°, 180° and 270°. */
  lemma SquareHeadings(len: real)
    ensures Step(Square, 0, len) == Vec2(len, 0.0)
    ensures Step(Square, 1, len) == Vec2(0.0, len)
    ensures Step(Square, 2, len) == Vec2(-len, 0.0)
    ensures Step(Square, 3, len) == Vec2(0.0, -len)
  {
    StepNext(Square, 0, len);
    StepNext(Square, 1, len);
    StepNext(Square, 2, len);
  }

  /** One more round of the polygon loop: a side, then the turn. */
  lemma CornerNext(g: Grid, p: Pose, len: real, turn: int, i: nat)
    ensures Corner(g, p, len, turn, i + 1) == Turn(Ahead(g, Corner(g, p, len, turn, i), len), turn)
  {
  }

  /** Sides along 0°, 120° and 240° close a triangle, wherever it starts. */
  lemma TriangleCorners(o: Vec2, len: real)
    ensures Corner(Hex, Pose(0, o), len, 2, 1) == Pose(2, o.Add(Vec2(len, 0.0)))
    ensures Corner(Hex, Pose(0, o), len, 2, 2) == Pose(4, o.Add(Vec2(0.0, len)))
    ensures Corner(Hex, Pose(0, o), len, 2, 3) == Pose(6, o)
  {
    var p := Pose(0, o);
    HexHeadings(len);
    CornerNext(Hex, p, len, 2, 0);
    CornerNext(Hex, p, len, 2, 1);
    CornerNext(Hex, p, len, 2, 2);
  }

  /** Sides along 0°, 90°, 180° and 270° close a square, wherever it starts. */
  lemma SquareCorners(o: Vec2, len: real)
    ensures Corner(Square, Pose(0, o), len, 1, 1) == Pose(1, o.Add(Vec2(len, 0.0)))
    ensures Corner(Square, Pose(0, o), len, 1, 2) == Pose(2, o.Add(Vec2(len, len)))
    ensures Corner(Square, Pose(0, o), len, 1, 3) == Pose(3, o.Add(Vec2(0.0, len)))
    ensures Corner(Square, Pose(0, o), len, 1, 4) == Pose(4, o)
  {
    var p := Pose(0, o);
    SquareHeadings(len);
    CornerNext(Square, p, len, 1, 0);
    CornerNext(Square, p, len, 1, 1);
    CornerNext(Square, p, len, 1, 2);
    CornerNext(Square, p, len, 1, 3);
  }

  /** Every koch side walks like one straight step and ends on a point. */
  lemma KochSide(k: nat)
    requires k <= 4
    ensures forall q: Pose :: Walk(Hex, q, KochMoves(KochLength, 4 - k, k)) == Ahead(Hex, q, KochLength) && EndsOnMark(Hex, q, KochMoves(KochLength, 4 - k, k))
    ensures MarkCount(KochMoves(KochLength, 4 - k, k)) == 256
  {
    forall q: Pose
      ensures Walk(Hex, q, KochMoves(KochLength, 4 - k, k)) == Ahead(Hex, q, KochLength) && EndsOnMark(Hex, q, KochMoves(KochLength, 4 - k, k))
    {
      KochEnds(q, KochLength, 4 - k, k);
      KochEndsOnMark(q, KochLength, 4 - k, k);
    }
    KochCount(KochLength, 4 - k, k);
    assert Pow4(4) == 256;
  }

  /** Every qoch side walks like one straight step and ends on a point. */
  lemma QochSide(k: nat)
    requires k <= 4
    ensures forall q: Pose :: Walk(Square, q, QochMoves(QochLength, 4 - k, k)) == Ahead(Square, q, QochLength) && EndsOnMark(Square, q, QochMoves(QochLength, 4 - k, k))
    ensures MarkCount(QochMoves(QochLength, 4 - k, k)) == 625
  {
    forall q: Pose
      ensures Walk(Square, q, QochMoves(QochLength, 4 - k, k)) == Ahead(Square, q, QochLength) && EndsOnMark(Square, q, QochMoves(QochLength, 4 - k, k))
    {
      QochEnds(q, QochLength, 4 - k, k);
      QochEndsOnMark(q, QochLength, 4 - k, k);
    }
    QochCount(QochLength, 4 - k, k);
    assert Pow5(4) == 625;
  }

  /** Three sides of 256 points, each one straight step of 1.2 ending on a
      point, turned 120° between them: a closed triangle of 768 points with
      its corners at indices 255, 511 and 767. */
  lemma TriangleLoop(o: Vec2, side: seq<Move>)
    requires forall q: Pose :: Walk(Hex, q, side) == Ahead(Hex, q, KochLength) && EndsOnMark(Hex, q, side)
    requires MarkCount(side) == 256
    ensures |Marks(Hex, Pose(0, o), Polygon(side, 2, KochSides))| == 768
    ensures Marks(Hex, Pose(0, o), Polygon(side, 2, KochSides))[255] == o.Add(Vec2(KochLength, 0.0))
    ensures Marks(Hex, Pose(0, o), Polygon(side, 2, KochSides))[511] == o.Add(Vec2(0.0, KochLength))
    ensures Marks(Hex, Pose(0, o), Polygon(side, 2, KochSides))[767] == o
    ensures Walk(Hex, Pose(0, o), Polygon(side, 2, KochSides)) == Pose(6, o)
  {
    var p := Pose(0, o);
    PolygonCornerPoint(Hex, p, side, KochLength, 2, 256, 1, KochSides);
    PolygonCornerPoint(Hex, p, side, KochLength, 2, 256, 2, KochSides);
    PolygonCornerPoint(Hex, p, side, KochLength, 2, 256, 3, KochSides);
    PolygonFacts(Hex, p, side, KochLength, 2, KochSides);
    TriangleCorners(o, KochLength);
  }

  /** Every koch level writes 3·4^4 = 768 points, the size of its array and
      of the loop in `draw_koch`; the outline passes through the triangle's
      corners at the ends of its sides and closes on its start, and the
      turtle has turned once round. */
  lemma KochTriangleCloses(k: nat)
    requires k <= 4
    ensures |Marks(Hex, Pose(0, Zero), KochTriangle(k))| == 768
    ensures Marks(Hex, Pose(0, Zero), KochTriangle(k))[255] == Vec2(KochLength, 0.0)
    ensures Marks(Hex, Pose(0, Zero), KochTriangle(k))[511] == Vec2(0.0, KochLength)
    ensures Marks(Hex, Pose(0, Zero), KochTriangle(k))[767] == Zero
    ensures Walk(Hex, Pose(0, Zero), KochTriangle(k)) == Pose(6, Zero)
  {
    KochSide(k);
    TriangleLoop(Zero, KochMoves(KochLength, 4 - k, k));
  }

  /** Four sides of 625 points, each one straight unit step ending on a
      point, turned a quarter between them: a closed square of 2500 points
      with its corners at indices 624, 1249, 1874 and 2499. */
  lemma SquareLoop(o: Vec2, side: seq<Move>)
    requires forall q: Pose :: Walk(Square, q, side) == Ahead(Square, q, QochLength) && EndsOnMark(Square, q, side)
    requires MarkCount(side) == 625
    ensures |Marks(Square, Pose(0, o), Polygon(side, 1, QochSides))| == 2500
    ensures Marks(Square, Pose(0, o), Polygon(side, 1, QochSides))[624] == o.Add(Vec2(QochLength, 0.0))
    ensures Marks(Square, Pose(0, o), Polygon(side, 1, QochSides))[1249] == o.Add(Vec2(QochLength, QochLength))
    ensures Marks(Square, Pose(0, o), Polygon(side, 1, QochSides))[1874] == o.Add(Vec2(0.0, QochLength))
    ensures Marks(Square, Pose(0, o), Polygon(side, 1, QochSides))[2499] == o
    ensures Walk(Square, Pose(0, o), Polygon(side, 1, QochSides)) == Pose(4, o)
  {
    var p := Pose(0, o);
    PolygonCornerPoint(Square, p, side, QochLength, 1, 625, 1, QochSides);
    PolygonCornerPoint(Square, p, side, QochLength, 1, 625, 2, QochSides);
    PolygonCornerPoint(Square, p, side, QochLength, 1, 625, 3, QochSides);
    PolygonCornerPoint(Square, p, side, QochLength, 1, 625, 4, QochSides);
    PolygonFacts(Square, p, side, QochLength, 1, QochSides);
    SquareCorners(o, QochLength);
  }

  /** Every qoch level writes 4·5^4 = 2500 points, within its 16000-point
      array and exactly the loop in `draw_qoch`; the outline passes through
      the square's corners and closes on its start, and the turtle has
      turned once round. */
  lemma QochSquareCloses(k: nat)
    requires k <= 4
    ensures |Marks(Square, Pose(0, Zero), QochSquare(k))| == 2500 <= 16000
    ensures Marks(Square, Pose(0, Zero), QochSquare(k))[624] == Vec2(QochLength, 0.0)
    ensures Marks(Square, Pose(0, Zero), QochSquare(k))[1249] == Vec2(QochLength, QochLength)
    ensures Marks(Square, Pose(0, Zero), QochSquare(k))[1874] == Vec2(0.0, QochLength)
    ensures Marks(Square, Pose(0, Zero), QochSquare(k))[2499] == Zero
    ensures Walk(Square, Pose(0, Zero), QochSquare(k)) == Pose(4, Zero)
  {
    QochSide(k);
    SquareLoop(Zero, QochMoves(QochLength, 4 - k, k));
  }
}
