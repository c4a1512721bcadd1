/** The five koch and five qoch outlines that `make_koch` and `make_qoch`
    store, and the animation `draw_koch` / `draw_qoch` morphs between them. */
module Outlines {
  import opened Interp
  import opened Curves
  import opened Turtles

  /** Where `make_koch` puts the turtle down. */
  const KochStart := Vec2(-0.6, -0.35)
  /** Where `make_qoch` puts the turtle down. */
  const QochStart := Vec2(-0.5, -0.5)

  /** The plane point at lattice offset `v` (over the unit vectors at 0° and
      60°) from the koch start; `h` stands for sin 60°. */
  function KochPlane(v: Vec2, h: real): Vec2
  {
    Vec2(KochStart.x + v.x + v.y / 2.0, KochStart.y + h * v.y)
  }

  /** The plane point at offset `v` from the qoch start. */
  function QochPlane(v: Vec2): Vec2
  {
    QochStart.Add(v)
  }

  /** Morphing two stored plane points is morphing their lattice offsets:
      the animation does not depend on where the outline sits. */
  lemma KochPlaneMorph(a: Vec2, b: Vec2, u: real, h: real)
    ensures Morph(KochPlane(a, h), KochPlane(b, h), u) == KochPlane(Morph(a, b, u), h)
  {
    var s := Smoothstep(u);
    assert h * a.y + (h * b.y - h * a.y) * s == h * (a.y + (b.y - a.y) * s);
  }

  lemma QochPlaneMorph(a: Vec2, b: Vec2, u: real)
    ensures Morph(QochPlane(a), QochPlane(b), u) == QochPlane(Morph(a, b, u))
  {
  }

  /** The plane points of a trail of koch lattice offsets. */
  function KochPoints(trail: seq<Vec2>, h: real): (pts: seq<Vec2>)
    ensures |pts| == |trail|
    ensures forall i :: 0 <= i < |trail| ==> pts[i] == KochPlane(trail[i], h)
  {
    seq(|trail|, i requires 0 <= i < |trail| => KochPlane(trail[i], h))
  }

  /** The plane points of a trail of qoch offsets. */
  function QochPoints(trail: seq<Vec2>): (pts: seq<Vec2>)
    ensures |pts| == |trail|
    ensures forall i :: 0 <= i < |trail| ==> pts[i] == QochPlane(trail[i])
  {
    seq(|trail|, i requires 0 <= i < |trail| => QochPlane(trail[i]))
  }

  /** The 768 points of koch level `k`, as stored. Every level passes
      through the corners of the same equilateral triangle at the ends of
      its sides, and the last point is the start again, so the drawn loop
      closes without a jump. */
  function KochOutline(k: nat, h: real): (pts: seq<Vec2>)
    requires k <= 4
    ensures |pts| == 768
    ensures pts[255] == Vec2(0.6, -0.35)
    ensures pts[511] == Vec2(0.0, -0.35 + 1.2 * h)
    ensures pts[767] == KochStart
  {
    KochTriangleCloses(k);
    KochPoints(Marks(Hex, Pose(0, Zero), KochTriangle(k)), h)
  }

  /** The 2500 points of qoch level `k`, as stored. Every level passes
      through the corners of the same unit square at the ends of its sides,
      and the last point is the start again. */
  function QochOutline(k: nat): (pts: seq<Vec2>)
    requires k <= 4
    ensures |pts| == 2500
    ensures pts[624] == Vec2(0.5, -0.5)
    ensures pts[1249] == Vec2(0.5, 0.5)
    ensures pts[1874] == Vec2(-0.5, 0.5)
    ensures pts[2499] == QochStart
  {
    QochSquareCloses(k);
    QochPoints(Marks(Square, Pose(0, Zero), QochSquare(k)))
  }

  /** One block of `make_koch`: put the turtle down, then three times draw
      a side `koch(1.2, 4 - k, k)` and turn 120°. */
  method MakeKochLevel(k: nat, h: real) returns (pts: seq<Vec2>)
    requires k <= 4
    ensures pts == KochOutline(k, h)
  {
    var side := KochMoves(KochLength, 4 - k, k);
    var t := new Turtle(Hex, Pose(0, Zero));
    var i := 0;
    while i < 3
      invariant i <= 3
      invariant t.Valid() && t.grid == Hex && t.origin == Pose(0, Zero)
      invariant t.log == Polygon(side, 2, i)
    {
      KochRunMoves(t.log, KochLength, 4 - k, k);
      t.Koch(KochLength, 4 - k, k);
      t.Rotate(2);
      i := i + 1;
    }
    assert t.log == KochTriangle(k);
    pts := KochPoints(t.trail, h);
  }

  /** One block of `make_qoch`: put the turtle down, then four times draw
      a side `qoch(1.0, 4 - k, k)` and turn 90°. */
  method MakeQochLevel(k: nat) returns (pts: seq<Vec2>)
    requires k <= 4
    ensures pts == QochOutline(k)
  {
    var side := QochMoves(QochLength, 4 - k, k);
    var t := new Turtle(Square, Pose(0, Zero));
    var i := 0;
    while i < 4
      invariant i <= 4
      invariant t.Valid() && t.grid == Square && t.origin == Pose(0, Zero)
      invariant t.log == Polygon(side, 1, i)
    {
      QochRunMoves(t.log, QochLength, 4 - k, k);
      t.Qoch(QochLength, 4 - k, k);
      t.Rotate(1);
      i := i + 1;
    }
    assert t.log == QochSquare(k);
    pts := QochPoints(t.trail);
  }

  /** The five koch levels, in the order `draw_koch` morphs through them. */
  function KochLevels(h: real): (levels: seq<seq<Vec2>>)
    ensures Levels(levels, 768)
  {
    seq(5, k requires 0 <= k < 5 => KochOutline(k, h))
  }

  /** The five qoch levels, in the order `draw_qoch` morphs through them. */
  function QochLevels(): (levels: seq<seq<Vec2>>)
    ensures Levels(levels, 2500)
  {
    seq(5, k requires 0 <= k < 5 => QochOutline(k))
  }

  /** `make_koch`: the five levels, from the straight-sided divisions
      (level 0) to the snowflake (level 4); its five copies of one block,
      which differ only in the level, are run here as one block for each
      level in turn. */
  method MakeKoch(h: real) returns (levels: seq<seq<Vec2>>)
    ensures levels == KochLevels(h)
  {
    levels := [];
    for k := 0 to 5
      invariant levels == KochLevels(h)[..k]
    {
      var pts := MakeKochLevel(k, h);
      levels := levels + [pts];
    }
  }

  /** `make_qoch`: the five levels, likewise. */
  method MakeQoch() returns (levels: seq<seq<Vec2>>)
    ensures levels == QochLevels()
  {
    levels := [];
    for k := 0 to 5
      invariant levels == QochLevels()[..k]
    {
      var pts := MakeQochLevel(k);
      levels := levels + [pts];
    }
  }

  /** Five levels of at least `n` points each. */
  predicate Levels(levels: seq<seq<Vec2>>, n: nat)
  {
    |levels| == 5 && forall j :: 0 <= j < 5 ==> n <= |levels[j]|
  }

  /** Which pair of neighbouring levels `draw_koch` and `draw_qoch` morph
      between at time `t`, and how far along: the quarter of the animation
      `t` falls in, and the position inside that quarter. */
  function Stage(t: real): (r: (nat, real))
    ensures r.0 <= 3
    ensures t == (r.0 as real + r.1) / 4.0
    ensures 0 < r.0 ==> 0.0 <= r.1
    ensures r.0 < 3 ==> r.1 < 1.0
    ensures 0.0 <= t <= 1.0 ==> 0.0 <= r.1 <= 1.0
  {
    if t < 0.25 then (0, (t - 0.0) * 4.0)
    else if t < 0.5 then (1, (t - 0.25) * 4.0)
    else if t < 0.75 then (2, (t - 0.5) * 4.0)
    else (3, (t - 0.75) * 4.0)
  }

  /** Point `i` of the animation at time `t`: the morph between the two
      levels of its stage, with `wobble` added to the morph parameter. */
  function Tween(levels: seq<seq<Vec2>>, t: real, wobble: real, i: nat): Vec2
    requires Levels(levels, i + 1)
  {
    var r := Stage(t);
    Morph(levels[r.0][i], levels[r.0 + 1][i], r.1 + wobble)
  }

  /** `glVertex2f(x * sh / sw, y)`: x scaled by the window's height over its
      width, so the outline keeps its proportions. */
  function Screen(p: Vec2, sh: int, sw: int): Vec2
    requires sw != 0
  {
    Vec2(p.x * (sh as real) / (sw as real), p.y)
  }

  /** `draw_koch(t)`: the 768 vertices of the line loop. */
  method DrawKoch(levels: seq<seq<Vec2>>, t: real, sh: int, sw: int) returns (verts: seq<Vec2>)
    requires Levels(levels, 768) && sw != 0
    ensures |verts| == 768
    ensures forall i :: 0 <= i < 768 ==> verts[i] == Screen(Tween(levels, t, 0.0, i), sh, sw)
  {
    verts := [];
    for i := 0 to 768
      invariant |verts| == i
      invariant forall k :: 0 <= k < i ==> verts[k] == Screen(Tween(levels, t, 0.0, k), sh, sw)
    {
      var p: Vec2;
      if t < 0.25 {
        p := Morph(levels[0][i], levels[1][i], (t - 0.0) * 4.0);
      } else if t < 0.5 {
        p := Morph(levels[1][i], levels[2][i], (t - 0.25) * 4.0);
      } else if t < 0.75 {
        p := Morph(levels[2][i], levels[3][i], (t - 0.5) * 4.0);
      } else {
        p := Morph(levels[3][i], levels[4][i], (t - 0.75) * 4.0);
      }
      verts := verts + [Vec2(p.x * (sh as real) / (sw as real), p.y)];
    }
  }

  /** `draw_qoch(t)`: the 2500 vertices of the line loop; `wobble` is
      0.13·sin(200·t), added to every morph parameter, so it lies in
      [-0.13, 0.13] and `TweenBetween` keeps every vertex in the box of
      its two levels. */
  method DrawQoch(levels: seq<seq<Vec2>>, t: real, wobble: real, sh: int, sw: int) returns (verts: seq<Vec2>)
    requires Levels(levels, 2500) && sw != 0
    ensures |verts| == 2500
    ensures forall i :: 0 <= i < 2500 ==> verts[i] == Screen(Tween(levels, t, wobble, i), sh, sw)
  {
    verts := [];
    for i := 0 to 2500
      invariant |verts| == i
      invariant forall k :: 0 <= k < i ==> verts[k] == Screen(Tween(levels, t, wobble, k), sh, sw)
    {
      var p: Vec2;
      if t < 0.25 {
        p := Morph(levels[0][i], levels[1][i], (t - 0.0) * 4.0 + wobble);
      } else if t < 0.5 {
        p := Morph(levels[1][i], levels[2][i], (t - 0.25) * 4.0 + wobble);
      } else if t < 0.75 {
        p := Morph(levels[2][i], levels[3][i], (t - 0.5) * 4.0 + wobble);
      } else {
        p := Morph(levels[3][i], levels[4][i], (t - 0.75) * 4.0 + wobble);
      }
      verts := verts + [Vec2(p.x * (sh as real) / (sw as real), p.y)];
    }
  }

  /** Without wobble the animation starts on the first level, ends on the
      last, and passes exactly through each level in between at the
      quarter marks. */
  lemma TweenThroughLevels(levels: seq<seq<Vec2>>, i: nat, j: nat)
    requires Levels(levels, i + 1) && j <= 4
    ensures Tween(levels, j as real / 4.0, 0.0, i) == levels[j][i]
  {
    if j == 4 {
      assert Stage(1.0) == (3, 1.0);
    } else {
      assert Stage(j as real / 4.0) == (j, 0.0);
    }
  }

  /** For 0 <= t <= 1 every point stays inside the box spanned by its
      positions in the two levels it is morphing between: without wobble,
      as `draw_koch` morphs, and also with the wobble 0.13·sin(200 t) of
      `draw_qoch`, which pushes the morph parameter up to 0.13 past either
      end of [0, 1] but not past the turns of the ease. */
  lemma TweenBetween(levels: seq<seq<Vec2>>, t: real, wobble: real, i: nat)
    requires Levels(levels, i + 1) && 0.0 <= t <= 1.0 && -0.13 <= wobble <= 0.13
    ensures var a, b := levels[Stage(t).0][i], levels[Stage(t).0 + 1][i];
      Min(a.x, b.x) <= Tween(levels, t, wobble, i).x <= Max(a.x, b.x) &&
      Min(a.y, b.y) <= Tween(levels, t, wobble, i).y <= Max(a.y, b.y)
  {
    var r := Stage(t);
    MorphBetween(levels[r.0][i], levels[r.0 + 1][i], r.1 + wobble);
  }

  /** A point at the same place in every level never moves, whatever the
      time and the wobble. */
  lemma TweenFixed(levels: seq<seq<Vec2>>, t: real, wobble: real, i: nat, c: Vec2)
    requires Levels(levels, i + 1)
    requires forall j :: 0 <= j < 5 ==> levels[j][i] == c
    ensures Tween(levels, t, wobble, i) == c
  {
    var r := Stage(t);
    assert levels[r.0][i] == c && levels[r.0 + 1][i] == c;
  }

  /** The koch animation keeps the triangle's corners fixed. */
  lemma KochCornersFixed(h: real, t: real)
    ensures Tween(KochLevels(h), t, 0.0, 255) == Vec2(0.6, -0.35)
    ensures Tween(KochLevels(h), t, 0.0, 511) == Vec2(0.0, -0.35 + 1.2 * h)
    ensures Tween(KochLevels(h), t, 0.0, 767) == KochStart
  {
    var levels := KochLevels(h);
    TweenFixed(levels, t, 0.0, 255, Vec2(0.6, -0.35));
    TweenFixed(levels, t, 0.0, 511, Vec2(0.0, -0.35 + 1.2 * h));
    TweenFixed(levels, t, 0.0, 767, KochStart);
  }

  /** The qoch animation keeps the square's corners fixed, wobble or not. */
  lemma QochCornersFixed(t: real, wobble: real)
    ensures Tween(QochLevels(), t, wobble, 624) == Vec2(0.5, -0.5)
    ensures Tween(QochLevels(), t, wobble, 1249) == Vec2(0.5, 0.5)
    ensures Tween(QochLevels(), t, wobble, 1874) == Vec2(-0.5, 0.5)
    ensures Tween(QochLevels(), t, wobble, 2499) == QochStart
  {
    var levels := QochLevels();
    TweenFixed(levels, t, wobble, 624, Vec2(0.5, -0.5));
    TweenFixed(levels, t, wobble, 1249, Vec2(0.5, 0.5));
    TweenFixed(levels, t, wobble, 1874, Vec2(-0.5, 0.5));
    TweenFixed(levels, t, wobble, 2499, QochStart);
  }
}
