/** The fire effect: a persistent `bh x bw` grid of byte heats, `flame`,
    which `draw_fire` cools upwards by a weighted stencil, stamps the
    letters of "EUCLID" into, reseeds along its bottom row and paints
    through the fire palette. The grid is indexed `flame[y][x]`, row 0 at
    the bottom of the picture, where the seed row lies. */
module Fire {
  import opened Numeric

  /** A snapshot of the grid: rows of cells. */
  type Grid = seq<seq<Byte>>

  /** `g` has `h` rows of `w` cells each. */
  ghost predicate Rect(g: Grid, h: nat, w: nat)
  {
    |g| == h && forall y :: 0 <= y < h ==> |g[y]| == w
  }

  /** The grid stored in `flame`, as a value. */
  function Cells(flame: array2<Byte>): (g: Grid)
    reads flame
    ensures Rect(g, flame.Length0, flame.Length1)
    ensures forall y, x :: 0 <= y < flame.Length0 && 0 <= x < flame.Length1 ==> g[y][x] == flame[y, x]
  {
    seq(flame.Length0, y requires 0 <= y < flame.Length0 reads flame =>
      seq(flame.Length1, x requires 0 <= x < flame.Length1 reads flame => flame[y, x]))
  }

  /** Two grids that agree cell by cell are the same grid. */
  lemma CellsEq(flame: array2<Byte>, g: Grid)
    requires Rect(g, flame.Length0, flame.Length1)
    requires forall y, x :: 0 <= y < flame.Length0 && 0 <= x < flame.Length1 ==> flame[y, x] == g[y][x]
    ensures Cells(flame) == g
  {
    forall y | 0 <= y < flame.Length0
      ensures Cells(flame)[y] == g[y]
    {
    }
  }

  /** The grid `g` with cell (r, c) set to `v`. */
  function Write(g: Grid, r: nat, c: nat, v: Byte): (s: Grid)
    requires r < |g| && c < |g[r]|
    ensures |s| == |g| && |s[r]| == |g[r]| && s[r][c] == v
  {
    var row: seq<Byte> := g[r][c := v];
    g[r := row]
  }

  /** `flame[r][c] = v`. */
  method Put(flame: array2<Byte>, r: nat, c: nat, v: Byte)
    requires r < flame.Length0 && c < flame.Length1
    modifies flame
    ensures Cells(flame) == Write(old(Cells(flame)), r, c, v)
  {
    ghost var g := Cells(flame);
    flame[r, c] := v;
    CellsEq(flame, Write(g, r, c, v));
  }

  /** Every cell of `g` is at most `m`. */
  ghost predicate AtMost(g: Grid, w: nat, m: int)
    requires Rect(g, |g|, w)
  {
    forall y, x :: 0 <= y < |g| && 0 <= x < w ==> g[y][x] <= m
  }

  // ---------------------------------------------------------------------
  // The sweep

  /** The weighted sum `a` that cell (y, x) takes from the two rows below
      it: 0.60 straight below, 0.05 below left and right, 0.20 two below,
      0.05 two below left and right; neighbours outside the grid are left
      out. */
  function Heat(g: Grid, w: nat, y: nat, x: nat): (a: real)
    requires Rect(g, |g|, w) && 1 <= y < |g| && x < w
  {
    0.60 * g[y - 1][x] as real
    + (if x > 0 then 0.05 * g[y - 1][x - 1] as real else 0.0)
    + (if x < w - 1 then 0.05 * g[y - 1][x + 1] as real else 0.0)
    + (if y > 1 then
         0.20 * g[y - 2][x] as real
         + (if x > 0 then 0.05 * g[y - 2][x - 1] as real else 0.0)
         + (if x < w - 1 then 0.05 * g[y - 2][x + 1] as real else 0.0)
       else 0.0)
  }

  /** The weights sum to at most 1, so the sum is no hotter than the
      hottest cell it draws on. */
  lemma HeatBound(g: Grid, w: nat, y: nat, x: nat, m: int)
    requires Rect(g, |g|, w) && 1 <= y < |g| && x < w && AtMost(g, w, m)
    ensures 0.0 <= Heat(g, w, y, x) <= m as real
  {
    assert g[y - 1][x] <= m;
    assert x > 0 ==> g[y - 1][x - 1] <= m;
    assert x < w - 1 ==> g[y - 1][x + 1] <= m;
    assert y > 1 ==> g[y - 2][x] <= m;
    assert y > 1 && x > 0 ==> g[y - 2][x - 1] <= m;
    assert y > 1 && x < w - 1 ==> g[y - 2][x + 1] <= m;
  }

  /** `flame[y][x] = 0.99 * a`: the conversion to `uint8_t` truncates, and
      since `a` is at most 255 the stored value is at most 252, so the
      byte never wraps. */
  function Cool(a: real): (b: Byte)
    requires 0.0 <= a <= 255.0
    ensures b as real <= 0.99 * a < b as real + 1.0
    ensures b <= 252
  {
    Trunc(0.99 * a)
  }

  /** The cooled heat of cell (y, x) in the sweep. */
  function SweptCell(g: Grid, w: nat, y: nat, x: nat): (b: Byte)
    requires Rect(g, |g|, w) && 1 <= y < |g| && x < w
  {
    HeatBound(g, w, y, x, 255);
    Cool(Heat(g, w, y, x))
  }

  /** The grid after the sweep: every row above the seed row replaced by
      the cooled heat of the two rows below it in the grid before the sweep;
      the seed row as it was. */
  function Swept(g: Grid, w: nat): (s: Grid)
    requires Rect(g, |g|, w)
    ensures Rect(s, |g|, w)
  {
    seq(|g|, y requires 0 <= y < |g| =>
      if y == 0 then g[0]
      else seq(w, x requires 0 <= x < w => SweptCell(g, w, y, x)))
  }

  /** If every cell is at most `m`, every swept cell above the seed row is
      at most `0.99 m`, so at most 252 and, when `m` is positive, below `m`. */
  lemma {:induction false} SweptCools(g: Grid, w: nat, m: nat)
    requires Rect(g, |g|, w) && AtMost(g, w, m) && m <= 255
    ensures forall y, x :: 1 <= y < |g| && 0 <= x < w ==>
      Swept(g, w)[y][x] as real <= 0.99 * m as real && Swept(g, w)[y][x] <= 252
    ensures forall y, x :: 1 <= y < |g| && 0 <= x < w && m > 0 ==> Swept(g, w)[y][x] < m
  {
    forall y, x | 1 <= y < |g| && 0 <= x < w
      ensures Swept(g, w)[y][x] as real <= 0.99 * m as real
    {
      HeatBound(g, w, y, x, m);
    }
  }

  /** One cell of the sweep: the weighted sum of the two rows below
      (`y - 1` and `y - 2`, still as they were before the sweep), cooled
      and stored at (y, x). */
  method SweepCell(flame: array2<Byte>, ghost g: Grid, y: nat, x: nat)
    requires Rect(g, flame.Length0, flame.Length1)
    requires 1 <= y < flame.Length0 && x < flame.Length1
    requires forall r, c :: 0 <= r < y && 0 <= c < flame.Length1 ==> flame[r, c] == g[r][c]
    modifies flame
    ensures flame[y, x] == SweptCell(g, flame.Length1, y, x)
    ensures forall r, c :: 0 <= r < flame.Length0 && 0 <= c < flame.Length1 && (r, c) != (y, x) ==>
      flame[r, c] == old(flame[r, c])
  {
    var w := flame.Length1;
    var a := 0.0;
    a := a + 0.60 * flame[y - 1, x] as real;
    if x > 0 {
      a := a + 0.05 * flame[y - 1, x - 1] as real;
    }
    if x < w - 1 {
      a := a + 0.05 * flame[y - 1, x + 1] as real;
    }
    if y > 1 {
      a := a + 0.20 * flame[y - 2, x] as real;
      if x > 0 {
        a := a + 0.05 * flame[y - 2, x - 1] as real;
      }
      if x < w - 1 {
        a := a + 0.05 * flame[y - 2, x + 1] as real;
      }
    }
    assert a == Heat(g, w, y, x);
    HeatBound(g, w, y, x, 255);
    flame[y, x] := Cool(a);
  }

  /** One row of the sweep, `x` left to right: row `y` becomes the
      cooled heat of the rows below it, which it leaves alone. */
  method SweepRow(flame: array2<Byte>, ghost g: Grid, y: nat)
    requires Rect(g, flame.Length0, flame.Length1)
    requires 1 <= y < flame.Length0
    requires forall r, c :: 0 <= r < y && 0 <= c < flame.Length1 ==> flame[r, c] == g[r][c]
    modifies flame
    ensures forall c :: 0 <= c < flame.Length1 ==> flame[y, c] == SweptCell(g, flame.Length1, y, c)
    ensures forall r, c :: 0 <= r < flame.Length0 && r != y && 0 <= c < flame.Length1 ==>
      flame[r, c] == old(flame[r, c])
  {
    var w := flame.Length1;
    for x := 0 to w
      invariant forall c :: 0 <= c < x ==> flame[y, c] == SweptCell(g, w, y, c)
      invariant forall r, c :: 0 <= r < flame.Length0 && r != y && 0 <= c < w ==> flame[r, c] == old(flame[r, c])
    {
      SweepCell(flame, g, y, x);
    }
  }

  /** The stencil sweep of `draw_fire`, in place: `y` from the top row down
      to 1. Row `y` reads only rows `y - 1` and `y - 2`, which the sweep
      rewrites later, so the grid ends up as the simultaneous update
      `Swept` of the grid before it. */
  method Sweep(flame: array2<Byte>)
    requires flame.Length0 >= 1
    modifies flame
    ensures Cells(flame) == Swept(old(Cells(flame)), flame.Length1)
  {
    ghost var g := Cells(flame);
    var h, w := flame.Length0, flame.Length1;
    var y := h - 1;
    while y > 0
      invariant 0 <= y < h
      invariant forall r, c :: 0 <= r <= y && 0 <= c < w ==> flame[r, c] == g[r][c]
      invariant forall r, c :: y < r < h && 0 <= c < w ==> flame[r, c] == SweptCell(g, w, r, c)
    {
      SweepRow(flame, g, y);
      y := y - 1;
    }
    CellsEq(flame, Swept(g, w));
  }

  /** The grid with its seed row, row 0, replaced by `row`. */
  function WithSeedRow(g: Grid, w: nat, row: seq<Byte>): (s: Grid)
    requires Rect(g, |g|, w) && |g| >= 1 && |row| == w
    ensures Rect(s, |g|, w)
  {
    g[0 := row]
  }

  /** `for (x = 0; x < bw; ++x) flame[0][x] = 0;` */
  method ClearSeedRow(flame: array2<Byte>)
    requires flame.Length0 >= 1
    modifies flame
    ensures Cells(flame) == WithSeedRow(old(Cells(flame)), flame.Length1, seq(flame.Length1, x => 0))
  {
    ghost var g := Cells(flame);
    for x := 0 to flame.Length1
      invariant forall r, c :: 0 <= r < flame.Length0 && 0 <= c < flame.Length1 ==>
        flame[r, c] == if r == 0 && c < x then 0 else g[r][c]
    {
      flame[0, x] := 0;
    }
    CellsEq(flame, WithSeedRow(g, flame.Length1, seq(flame.Length1, x => 0)));
  }

  /** The seed row `rand()` gives: each value stored as a `uint8_t`, that
      is, modulo 256. */
  function Seeds(noise: seq<nat>, w: nat): (row: seq<Byte>)
    requires |noise| >= w
    ensures |row| == w
    ensures forall x :: 0 <= x < w ==> row[x] == noise[x] % 256
  {
    seq(w, x requires 0 <= x < w => noise[x] % 256)
  }

  /** `for (x = 0; x < bw; ++x) flame[0][x] = rand();` */
  method Reseed(flame: array2<Byte>, noise: seq<nat>)
    requires flame.Length0 >= 1 && |noise| >= flame.Length1
    modifies flame
    ensures Cells(flame) == WithSeedRow(old(Cells(flame)), flame.Length1, Seeds(noise, flame.Length1))
  {
    ghost var g := Cells(flame);
    for x := 0 to flame.Length1
      invariant forall r, c :: 0 <= r < flame.Length0 && 0 <= c < flame.Length1 ==>
        flame[r, c] == if r == 0 && c < x then noise[c] % 256 else g[r][c]
    {
      flame[0, x] := noise[x] % 256;
    }
    CellsEq(flame, WithSeedRow(g, flame.Length1, Seeds(noise, flame.Length1)));
  }

  // ---------------------------------------------------------------------
  // The letters

  /** A grid cell, row then column. */
  datatype Cell = Cell(row: nat, col: nat)

  /** `for (x = x0; x < x1; ++x)` along design row `row`: the letters are
      laid out on a 192 x 256 design grid. */
  function Across(row: nat, x0: nat, x1: nat): (cs: seq<Cell>)
    requires x0 <= x1
    ensures |cs| == x1 - x0
  {
    seq(x1 - x0, i requires 0 <= i < x1 - x0 => Cell(row, x0 + i))
  }

  /** `for (y = 100; y < 140; ++y)` down design column `col`. */
  function Down(col: nat): (cs: seq<Cell>)
    ensures |cs| == 40
  {
    seq(40, i requires 0 <= i < 40 => Cell(100 + i, col))
  }

  /** The slanted stroke of the last letter: column `180 + (y - 100)` in
      the upper half, `220 - (y - 100)` in the lower half. */
  function Slant(y: nat): (c: nat)
    requires 100 <= y < 140
    ensures 180 <= c <= 200
  {
    if y < 120 then 180 + (y - 100) else 220 - (y - 100)
  }

  /** The last loop of `draw_euclid`: at each design row, the upright at
      column 180, then the slanted stroke. */
  function Legs(): (cs: seq<Cell>)
    ensures |cs| == 80
  {
    seq(80, i requires 0 <= i < 80 => var y := 100 + i / 2; if i % 2 == 0 then Cell(y, 180) else Cell(y, Slant(y)))
  }

  /** Every design cell `draw_euclid` writes, in the order it writes them
      (the upright at column 170 is written twice). */
  function Design(): (cs: seq<Cell>)
    ensures |cs| == 500
  {
    Across(140, 50, 70) + Across(120, 50, 70) + Across(100, 50, 70) + Down(50)
    + Across(100, 80, 100) + Down(80) + Down(100)
    + Across(100, 110, 130) + Across(140, 110, 130) + Down(110)
    + Across(100, 140, 160) + Down(140)
    + Down(170)
    + Down(170) + Legs()
  }

  /** Every cell of `cs` lies in design rows 100 to 140 and columns 50
      to 200. */
  ghost predicate InBox(cs: seq<Cell>)
  {
    forall i :: 0 <= i < |cs| ==> 100 <= cs[i].row <= 140 && 50 <= cs[i].col <= 200
  }

  lemma BoxJoin(a: seq<Cell>, b: seq<Cell>)
    requires InBox(a) && InBox(b)
    ensures InBox(a + b)
  {
    forall i | 0 <= i < |a + b|
      ensures 100 <= (a + b)[i].row <= 140 && 50 <= (a + b)[i].col <= 200
    {
      if i >= |a| {
        assert (a + b)[i] == b[i - |a|];
      }
    }
  }

  /** The design lies in rows 100 to 140 and columns 50 to 200. */
  lemma DesignBounds()
    ensures forall i :: 0 <= i < 500 ==>
      100 <= Design()[i].row <= 140 && 50 <= Design()[i].col <= 200
  {
    var d := Across(140, 50, 70);
    assert InBox(d);
    assert InBox(Across(120, 50, 70));
    BoxJoin(d, Across(120, 50, 70));
    d := d + Across(120, 50, 70);
    assert InBox(Across(100, 50, 70));
    BoxJoin(d, Across(100, 50, 70));
    d := d + Across(100, 50, 70);
    assert InBox(Down(50));
    BoxJoin(d, Down(50));
    d := d + Down(50);
    assert InBox(Across(100, 80, 100));
    BoxJoin(d, Across(100, 80, 100));
    d := d + Across(100, 80, 100);
    assert InBox(Down(80));
    BoxJoin(d, Down(80));
    d := d + Down(80);
    assert InBox(Down(100));
    BoxJoin(d, Down(100));
    d := d + Down(100);
    assert InBox(Across(100, 110, 130));
    BoxJoin(d, Across(100, 110, 130));
    d := d + Across(100, 110, 130);
    assert InBox(Across(140, 110, 130));
    BoxJoin(d, Across(140, 110, 130));
    d := d + Across(140, 110, 130);
    assert InBox(Down(110));
    BoxJoin(d, Down(110));
    d := d + Down(110);
    assert InBox(Across(100, 140, 160));
    BoxJoin(d, Across(100, 140, 160));
    d := d + Across(100, 140, 160);
    assert InBox(Down(140));
    BoxJoin(d, Down(140));
    d := d + Down(140);
    assert InBox(Down(170));
    BoxJoin(d, Down(170));
    d := d + Down(170);
    assert InBox(Down(170));
    BoxJoin(d, Down(170));
    d := d + Down(170);
    assert InBox(Legs());
    BoxJoin(d, Legs());
    d := d + Legs();
    assert d == Design();
  }

  /** Design cell (row, col) on a `bh x bw` grid: `flame[row * bh / 192][col * bw / 256]`. */
  function Place(c: Cell, bh: nat, bw: nat): (p: Cell)
  {
    Cell(c.row * bh / 192, c.col * bw / 256)
  }

  /** The grid cells `draw_euclid` writes on a `bh x bw` grid, in order. */
  function EuclidCells(bh: nat, bw: nat): (cs: seq<Cell>)
    ensures |cs| == 500
  {
    seq(500, i requires 0 <= i < 500 => Place(Design()[i], bh, bw))
  }

  /** Scaling a design coordinate to the grid keeps its order. */
  lemma ScaleMono(a: nat, b: nat, n: nat, d: nat)
    requires a <= b && d > 0
    ensures a * n / d <= b * n / d
  {
    MulNonneg(b - a, n);
    var p, q := a * n, b * n;
    if p / d > q / d {
      MulNonneg(d, p / d - q / d - 1);
      assert false;
    }
  }

  /** A design coordinate below `d` lands inside a grid of size `n`. */
  lemma ScaleBelow(a: nat, n: nat, d: nat)
    requires a < d && n > 0
    ensures a * n / d < n
  {
    MulNonneg(d - 1 - a, n);
    if a * n / d >= n {
      MulNonneg(d, a * n / d - n);
      assert false;
    }
  }

  /** Every write of `draw_euclid` stays in the grid: rows from
      `100 * bh / 192` to `140 * bh / 192`, columns from `50 * bw / 256` to
      `200 * bw / 256`. */
  lemma EuclidInside(bh: nat, bw: nat)
    requires bh >= 1 && bw >= 1
    ensures forall i :: 0 <= i < 500 ==>
      var c := EuclidCells(bh, bw)[i];
      100 * bh / 192 <= c.row <= 140 * bh / 192 < bh && 50 * bw / 256 <= c.col <= 200 * bw / 256 < bw
    ensures InGrid(EuclidCells(bh, bw), bh, bw)
  {
    DesignBounds();
    ScaleBelow(140, bh, 192);
    ScaleBelow(200, bw, 256);
    forall i | 0 <= i < 500
      ensures var c := EuclidCells(bh, bw)[i];
        100 * bh / 192 <= c.row <= 140 * bh / 192 && 50 * bw / 256 <= c.col <= 200 * bw / 256
    {
      var d := Design()[i];
      ScaleMono(100, d.row, bh, 192);
      ScaleMono(d.row, 140, bh, 192);
      ScaleMono(50, d.col, bw, 256);
      ScaleMono(d.col, 200, bw, 256);
    }
  }

  /** Every cell lies in a `h x w` grid. */
  ghost predicate InGrid(cells: seq<Cell>, h: nat, w: nat)
  {
    forall i :: 0 <= i < |cells| ==> cells[i].row < h && cells[i].col < w
  }

  /** The grid after `cells` have been written in order, the `i`-th with
      `rand() % ceil` from the `i`-th value of `noise`. */
  function Stamp(g: Grid, w: nat, cells: seq<Cell>, noise: seq<nat>, ceil: nat): (s: Grid)
    requires Rect(g, |g|, w) && InGrid(cells, |g|, w) && |noise| >= |cells| && 0 < ceil <= 256
    ensures Rect(s, |g|, w)
    decreases |cells|
  {
    if cells == [] then g
    else
      var n := |cells| - 1;
      var s := Stamp(g, w, cells[..n], noise, ceil);
      var c := cells[n];
      Write(s, c.row, c.col, noise[n] % ceil)
  }

  /** A stamp changes only the cells it writes, and leaves each of them
      below `ceil`. */
  lemma {:induction false} StampEffect(g: Grid, w: nat, cells: seq<Cell>, noise: seq<nat>, ceil: nat)
    requires Rect(g, |g|, w) && InGrid(cells, |g|, w) && |noise| >= |cells| && 0 < ceil <= 256
    ensures forall y, x :: 0 <= y < |g| && 0 <= x < w && Cell(y, x) !in cells ==>
      Stamp(g, w, cells, noise, ceil)[y][x] == g[y][x]
    ensures forall y, x :: 0 <= y < |g| && 0 <= x < w && Cell(y, x) in cells ==>
      Stamp(g, w, cells, noise, ceil)[y][x] < ceil
    decreases |cells|
  {
    if cells != [] {
      var n := |cells| - 1;
      StampEffect(g, w, cells[..n], noise, ceil);
      assert cells == cells[..n] + [cells[n]];
      forall y, x | 0 <= y < |g| && 0 <= x < w && Cell(y, x) in cells && Cell(y, x) != cells[n]
        ensures Cell(y, x) in cells[..n]
      {
        var i :| 0 <= i < |cells| && cells[i] == Cell(y, x);
        assert i < n;
      }
    }
  }

  /** `draw_euclid(ceil)`: the letter cells written in order, each with
      `rand() % ceil`, from the stream `noise` of `rand()` results. The
      code's fifteen loops (sixteen write statements) write the cells of `EuclidCells` in this order,
      which the one loop here walks. */
  method DrawEuclid(flame: array2<Byte>, ceil: nat, noise: seq<nat>)
    requires flame.Length0 >= 1 && flame.Length1 >= 1 && 0 < ceil <= 256 && |noise| >= 500
    modifies flame
    ensures InGrid(EuclidCells(flame.Length0, flame.Length1), flame.Length0, flame.Length1)
    ensures Cells(flame) ==
      Stamp(old(Cells(flame)), flame.Length1, EuclidCells(flame.Length0, flame.Length1), noise, ceil)
  {
    ghost var g := Cells(flame);
    var h, w := flame.Length0, flame.Length1;
    var cells := EuclidCells(h, w);
    EuclidInside(h, w);
    for i := 0 to 500
      invariant Cells(flame) == Stamp(g, w, cells[..i], noise, ceil)
    {
      var c := cells[i];
      Put(flame, c.row, c.col, noise[i] % ceil);
      assert cells[..i + 1][..i] == cells[..i];
    }
    assert cells[..500] == cells;
  }

  // ---------------------------------------------------------------------
  // Painting

  /** Row `k / w` of a `h x w` grid exists for every pixel `k` of it. */
  lemma RowOf(k: nat, w: nat, h: nat)
    requires k < h * w
    ensures w > 0 && k / w < h
  {
    if k / w >= h {
      MulNonneg(w, k / w - h);
      assert false;
    }
  }

  /** Pixel `k` of the painted frame: cell `(k / w, k % w)` through the
      palette. */
  function PaintedPixel(g: Grid, w: nat, pal: seq<RGB>, k: nat): (px: RGB)
    requires Rect(g, |g|, w) && |pal| == 256 && k < |g| * w
  {
    RowOf(k, w, |g|);
    pal[g[k / w][k % w]]
  }

  /** The first `n` pixels of the painted frame, in the order the paint
      loop visits them. */
  function Painted(g: Grid, w: nat, pal: seq<RGB>, n: nat): (pic: seq<RGB>)
    requires Rect(g, |g|, w) && |pal| == 256 && n <= |g| * w
    ensures |pic| == n
  {
    if n == 0 then [] else Painted(g, w, pal, n - 1) + [PaintedPixel(g, w, pal, n - 1)]
  }

  lemma {:induction false} PaintedAt(g: Grid, w: nat, pal: seq<RGB>, n: nat)
    requires Rect(g, |g|, w) && |pal| == 256 && n <= |g| * w
    ensures forall k :: 0 <= k < n ==> Painted(g, w, pal, n)[k] == PaintedPixel(g, w, pal, k)
  {
    if n > 0 {
      PaintedAt(g, w, pal, n - 1);
    }
  }

  /** Pixel `y * bw + x` of the painted frame has the palette colour of
      the heat of cell (y, x). */
  lemma PaintedCellAt(g: Grid, w: nat, pal: seq<RGB>, y: nat, x: nat)
    requires Rect(g, |g|, w) && |pal| == 256 && y < |g| && x < w
    ensures y * w + x < |g| * w && Painted(g, w, pal, |g| * w)[y * w + x] == pal[g[y][x]]
  {
    var k := y * w + x;
    FlatInside(y, x, w, |g|);
    FlatIndex(y, x, w);
    PaintedAt(g, w, pal, |g| * w);
    assert Painted(g, w, pal, |g| * w)[k] == PaintedPixel(g, w, pal, k);
  }

  /** One row of the paint loop. */
  method PaintRow(pixels: array<RGB>, flame: array2<Byte>, pal: seq<RGB>, y: nat, k: nat)
    requires |pal| == 256 && pixels.Length == flame.Length0 * flame.Length1
    requires y < flame.Length0 && k == y * flame.Length1 && k + flame.Length1 <= pixels.Length
    requires pixels[..k] == Painted(Cells(flame), flame.Length1, pal, k)
    modifies pixels
    ensures pixels[..k + flame.Length1] == Painted(Cells(flame), flame.Length1, pal, k + flame.Length1)
  {
    ghost var g := Cells(flame);
    var w := flame.Length1;
    var x, j := 0, k;
    while x < w
      invariant 0 <= x <= w && j == k + x
      invariant pixels[..j] == Painted(g, w, pal, j)
    {
      FlatIndex(y, x, w);
      pixels[j] := pal[flame[y, x]];
      assert pixels[..j + 1] == pixels[..j] + [pixels[j]];
      x, j := x + 1, j + 1;
    }
  }

  /** The paint loop: every cell of the grid through the palette into
      `pixels`, row by row. */
  method Paint(pixels: array<RGB>, flame: array2<Byte>, pal: seq<RGB>)
    requires |pal| == 256 && pixels.Length == flame.Length0 * flame.Length1
    modifies pixels
    ensures pixels[..] == Painted(Cells(flame), flame.Length1, pal, flame.Length0 * flame.Length1)
  {
    var h, w := flame.Length0, flame.Length1;
    var k := 0;
    var y := 0;
    while y < h
      invariant 0 <= y <= h && k == y * w
      invariant y < h ==> k + w <= pixels.Length
      invariant y == h ==> k == pixels.Length
      invariant pixels[..k] == Painted(Cells(flame), w, pal, k)
    {
      NextRow(y, w, h);
      PaintRow(pixels, flame, pal, y, k);
      k, y := k + w, y + 1;
    }
    assert pixels[..] == pixels[..k];
  }

  // ---------------------------------------------------------------------
  // One frame

  /** `draw_fire` stamps the letters only while `0 < t < 1`. */
  predicate Stamping(t: real)
  {
    0.0 < t < 1.0
  }

  /** The grid at the moment `draw_fire(t)` paints it: letters at heat
      below 64 when stamping, the sweep, the seed row cleared, letters at
      heat below 128 when stamping. */
  function Burnt(g: Grid, w: nat, t: real, noise: seq<nat>): (b: Grid)
    requires Rect(g, |g|, w) && |g| >= 1 && w >= 1 && (Stamping(t) ==> |noise| >= 1000)
    ensures Rect(b, |g|, w)
  {
    EuclidInside(|g|, w);
    var cells := EuclidCells(|g|, w);
    var g1 := if Stamping(t) then Stamp(g, w, cells, noise, 64) else g;
    var g2 := WithSeedRow(Swept(g1, w), w, seq(w, x => 0));
    if Stamping(t) then Stamp(g2, w, cells, noise[500..], 128) else g2
  }

  /** The number of `rand()` values `draw_fire(t)` takes: 500 per stamp
      and one per column of the new seed row. */
  function Draws(t: real, w: nat): nat
  {
    (if Stamping(t) then 1000 else 0) + (if t < 1.0 then w else 0)
  }

  /** The grid `draw_fire(t)` leaves for the next frame: the painted grid,
      with a fresh seed row while `t < 1`. */
  function NextGrid(g: Grid, w: nat, t: real, noise: seq<nat>): (n: Grid)
    requires Rect(g, |g|, w) && |g| >= 1 && w >= 1 && |noise| >= Draws(t, w)
    ensures Rect(n, |g|, w)
  {
    var b := Burnt(g, w, t, noise);
    if t < 1.0 then WithSeedRow(b, w, Seeds(noise[Draws(t, w) - w..], w)) else b
  }

  /** `draw_fire(t)`, taking its `rand()` values from `noise`; returns how
      many it took. */
  method DrawFire(flame: array2<Byte>, pixels: array<RGB>, pal: seq<RGB>, t: real, noise: seq<nat>)
    returns (used: nat)
    requires flame.Length0 >= 1 && flame.Length1 >= 1
    requires pixels.Length == flame.Length0 * flame.Length1 && |pal| == 256
    requires |noise| >= Draws(t, flame.Length1)
    modifies flame, pixels
    ensures used == Draws(t, flame.Length1)
    ensures pixels[..] ==
      Painted(Burnt(old(Cells(flame)), flame.Length1, t, noise), flame.Length1, pal, flame.Length0 * flame.Length1)
    ensures Cells(flame) == NextGrid(old(Cells(flame)), flame.Length1, t, noise)
  {
    ghost var g := Cells(flame);
    var w := flame.Length1;
    used := 0;
    if 0.0 < t < 1.0 {
      DrawEuclid(flame, 64, noise);
      used := 500;
    }
    Sweep(flame);
    ClearSeedRow(flame);
    if 0.0 < t < 1.0 {
      DrawEuclid(flame, 128, noise[500..]);
      used := 1000;
    }
    assert Cells(flame) == Burnt(g, w, t, noise);
    Paint(pixels, flame, pal);
    if t < 1.0 {
      Reseed(flame, noise[used..]);
      used := used + w;
    }
  }

  /** While the letters are stamped, every letter cell is painted at a heat
      below 128, and every other cell of the seed row is cold. */
  lemma LettersGlow(g: Grid, w: nat, t: real, noise: seq<nat>)
    requires Rect(g, |g|, w) && |g| >= 1 && w >= 1 && |noise| >= 1000 && Stamping(t)
    ensures forall y, x :: 0 <= y < |g| && 0 <= x < w && Cell(y, x) in EuclidCells(|g|, w) ==>
      Burnt(g, w, t, noise)[y][x] < 128
    ensures forall x :: 0 <= x < w && Cell(0, x) !in EuclidCells(|g|, w) ==> Burnt(g, w, t, noise)[0][x] == 0
  {
    EuclidInside(|g|, w);
    var cells := EuclidCells(|g|, w);
    var g1 := Stamp(g, w, cells, noise, 64);
    var g2 := WithSeedRow(Swept(g1, w), w, seq(w, x => 0));
    StampEffect(g2, w, cells, noise[500..], 128);
  }

  /** Once the letters are gone (`t >= 1`), a frame is the sweep with the
      seed row cleared, whatever `rand()` would have given. */
  function Settled(g: Grid, w: nat): (n: Grid)
    requires Rect(g, |g|, w) && |g| >= 1
    ensures Rect(n, |g|, w)
  {
    WithSeedRow(Swept(g, w), w, seq(w, x => 0))
  }

  /** From `t = 1` on, `draw_fire(t)` stamps nothing, draws nothing and
      leaves the settled grid. */
  lemma NextGridSettled(g: Grid, w: nat, t: real, noise: seq<nat>)
    requires Rect(g, |g|, w) && |g| >= 1 && w >= 1 && t >= 1.0
    ensures Draws(t, w) == 0
    ensures NextGrid(g, w, t, noise) == Settled(g, w)
  {
  }

  /** A settled frame cools the fire: if no cell is hotter than `m`, no
      cell is hotter than `0.99 m` afterwards, so when `m > 0` every cell
      is below `m`, and the seed row is cold. */
  lemma SettledCools(g: Grid, w: nat, m: nat)
    requires Rect(g, |g|, w) && |g| >= 1 && w >= 1
    requires AtMost(g, w, m) && m <= 255
    ensures forall y, x :: 0 <= y < |g| && 0 <= x < w ==>
      Settled(g, w)[y][x] as real <= 0.99 * m as real
    ensures m > 0 ==> AtMost(Settled(g, w), w, m - 1)
    ensures forall x :: 0 <= x < w ==> Settled(g, w)[0][x] == 0
  {
    SweptCools(g, w, m);
  }

  /** Once the letters are gone (`t >= 1`), a frame of `draw_fire` cools
      the fire by at least a hundredth and leaves the seed row cold. */
  lemma FireCools(g: Grid, w: nat, t: real, noise: seq<nat>, m: nat)
    requires Rect(g, |g|, w) && |g| >= 1 && w >= 1 && t >= 1.0
    requires AtMost(g, w, m) && m <= 255
    ensures forall y, x :: 0 <= y < |g| && 0 <= x < w ==>
      NextGrid(g, w, t, noise)[y][x] as real <= 0.99 * m as real
    ensures m > 0 ==> AtMost(NextGrid(g, w, t, noise), w, m - 1)
    ensures forall x :: 0 <= x < w ==> NextGrid(g, w, t, noise)[0][x] == 0
  {
    NextGridSettled(g, w, t, noise);
    SettledCools(g, w, m);
  }

  /** `draw_fire(t)` with `t >= 1` repeated `n` times from grid `g` (each a
      settled frame, by `NextGridSettled`). */
  function Embers(g: Grid, w: nat, n: nat): (e: Grid)
    requires Rect(g, |g|, w) && |g| >= 1
    ensures Rect(e, |g|, w)
  {
    if n == 0 then g else Settled(Embers(g, w, n - 1), w)
  }

  /** After `n` frames of `draw_fire(t)` with `t >= 1` no cell is hotter
      than `255 - n`: the fire has burnt out, every cell 0, after 255
      frames. */
  lemma {:induction false} BurnsOut(g: Grid, w: nat, n: nat)
    requires Rect(g, |g|, w) && |g| >= 1 && w >= 1 && n <= 255
    ensures AtMost(Embers(g, w, n), w, 255 - n)
  {
    if n > 0 {
      var e := Embers(g, w, n - 1);
      BurnsOut(g, w, n - 1);
      SettledCools(e, w, 255 - (n - 1));
    }
  }
}
