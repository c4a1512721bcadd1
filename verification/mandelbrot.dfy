/** `draw_mandelbrot`: every pixel is mapped into the plane, classified as
    inside the set (by one of the short-cut disks or by surviving the escape
    loop) or escaped after some number of steps, and coloured from that
    verdict. The `goto setpixel` of the program becomes the `Verdict` value. */
module Mandelbrot {
  import opened Numeric
  import opened Interp

  /** The escape loop's bound: a point still bounded after this many steps
      counts as inside. */
  const Cap := 192

  /** The view: the plane point at the centre, the half height `scale`,
      and the size of the low-resolution buffer. */
  datatype View = View(cx: real, cy: real, scale: real, bw: nat, bh: nat)

  predicate ValidView(v: View)
  {
    v.bw > 0 && v.bh > 0
  }

  /** The plane point `a + bi` of pixel (y, x). */
  function Plane(v: View, y: nat, x: nat): Vec2
    requires ValidView(v)
  {
    Vec2(v.cx + (v.bw as real) * v.scale / (v.bh as real) * (-1.0 + 2.0 * (x as real) / (v.bw as real)),
         v.cy + v.scale * (1.0 - 2.0 * (y as real) / (v.bh as real)))
  }

  /** Row 0 sits `scale` above the centre and column 0 sits half the
      width to the left of it. */
  lemma PlaneCorner(v: View)
    requires ValidView(v)
    ensures Plane(v, 0, 0) == Vec2(v.cx - (v.bw as real) * v.scale / (v.bh as real), v.cy + v.scale)
  {
    var k := (v.bw as real) * v.scale / (v.bh as real);
    assert -1.0 + 2.0 * (0 as real) / (v.bw as real) == -1.0;
    assert 1.0 - 2.0 * (0 as real) / (v.bh as real) == 1.0;
    assert k * -1.0 == -k;
  }

  /** With an even buffer the middle pixel is the centre of the view. */
  lemma PlaneCentre(v: View)
    requires ValidView(v) && v.bw % 2 == 0 && v.bh % 2 == 0
    ensures Plane(v, v.bh / 2, v.bw / 2) == Vec2(v.cx, v.cy)
  {
    var k := (v.bw as real) * v.scale / (v.bh as real);
    var fx := 2.0 * ((v.bw / 2) as real) / (v.bw as real);
    var fy := 2.0 * ((v.bh / 2) as real) / (v.bh as real);
    Middle(v.bw);
    Middle(v.bh);
    assert fx == 1.0 && fy == 1.0;
    assert Plane(v, v.bh / 2, v.bw / 2) == Vec2(v.cx + k * (-1.0 + fx), v.cy + v.scale * (1.0 - fy));
  }

  /** The middle index of an even, non-zero size sits exactly halfway. */
  lemma Middle(n: nat)
    requires n > 0 && n % 2 == 0
    ensures 2.0 * ((n / 2) as real) / (n as real) == 1.0
  {
    assert 2.0 * ((n / 2) as real) == n as real;
  }

  /** `dx*dx + dy*dy < r2` with `dx = a + ox`, `dy = b + oy`: the point lies
      in the open disk of squared radius `r2` about (−ox, −oy). */
  predicate Near(c: Vec2, ox: real, oy: real, r2: real)
  {
    (c.x + ox) * (c.x + ox) + (c.y + oy) * (c.y + oy) < r2
  }

  /** The short-cut disks: two tiny ones near the zoom target when the
      view is narrower than 2/100, otherwise the main cardioid's inner disk,
      the period-two bulb and a small bulb on the way to the target. */
  predicate Shortcut(c: Vec2, scale: real)
  {
    if scale < 2.0 / 100.0 then
      Near(c, 0.6506, 0.4780, 0.0000007) || Near(c, 0.64915, 0.47855, 0.0000002)
    else
      Near(c, 0.25, 0.0, 0.23) || Near(c, 1.0, 0.0, 0.05) || Near(c, 0.623, 0.425, 0.00035)
  }

  /** One step of z ↦ z² + c, written as the loop writes it. */
  function Next(z: Vec2, c: Vec2): Vec2
  {
    Vec2(z.x * z.x - z.y * z.y + c.x, 2.0 * (z.x * z.y) + c.y)
  }

  /** The orbit of c after `k` steps, starting at z = c. */
  function Orbit(c: Vec2, k: nat): Vec2
  {
    if k == 0 then c else Next(Orbit(c, k - 1), c)
  }

  /** The loop's exit test `zaa + zbb > 4`. */
  predicate Escapes(z: Vec2)
  {
    z.x * z.x + z.y * z.y > 4.0
  }

  /** The step count the loop stops at, continuing from step `i` at `z`.
      (Naming `z` in the `decreases` clause, though the count alone bounds
      the recursion, keeps the verifier from unrolling all 192 steps from
      the literal start at step 0.) */
  function EscapeFrom(c: Vec2, z: Vec2, i: nat): nat
    requires i <= Cap
    decreases Cap - i, z
  {
    if i == Cap then Cap
    else if Escapes(z) then i
    else EscapeFrom(c, Next(z, c), i + 1)
  }

  /** The step count of the escape loop for c. */
  function EscapeTime(c: Vec2): nat
  {
    EscapeFrom(c, c, 0)
  }

  /** Continuing from step `i` of the orbit yields the first escaping step
      at or after `i`, or the cap. */
  lemma {:induction false} EscapeFromFirst(c: Vec2, i: nat)
    requires i <= Cap
    ensures var r := EscapeFrom(c, Orbit(c, i), i);
      i <= r <= Cap &&
      (forall k :: i <= k < r ==> !Escapes(Orbit(c, k))) &&
      (r < Cap ==> Escapes(Orbit(c, r)))
    decreases Cap - i
  {
    if i < Cap && !Escapes(Orbit(c, i)) {
      assert Next(Orbit(c, i), c) == Orbit(c, i + 1);
      EscapeFromFirst(c, i + 1);
    }
  }

  /** The escape time is the first step whose orbit point has left the
      radius-2 disk, or the cap when none of the first 192 has. */
  lemma EscapeTimeFirst(c: Vec2)
    ensures EscapeTime(c) <= Cap
    ensures forall k :: 0 <= k < EscapeTime(c) ==> !Escapes(Orbit(c, k))
    ensures EscapeTime(c) < Cap ==> Escapes(Orbit(c, EscapeTime(c)))
  {
    EscapeFromFirst(c, 0);
  }

  /** The loop runs to the cap exactly when none of the first 192 orbit
      points has left the radius-2 disk. */
  lemma BoundedIff(c: Vec2)
    ensures EscapeTime(c) == Cap ==> forall k :: 0 <= k < Cap ==> !Escapes(Orbit(c, k))
    ensures (forall k :: 0 <= k < Cap ==> !Escapes(Orbit(c, k))) ==> EscapeTime(c) == Cap
  {
    EscapeTimeFirst(c);
    var t := EscapeTime(c);
    if t < Cap {
      assert Escapes(Orbit(c, t));
    }
  }

  /** These two facts pin the step count down: no other number has them. */
  lemma EscapeTimeUnique(c: Vec2, r: nat)
    requires r <= Cap
    requires forall k :: 0 <= k < r ==> !Escapes(Orbit(c, k))
    requires r < Cap ==> Escapes(Orbit(c, r))
    ensures r == EscapeTime(c)
  {
    EscapeTimeFirst(c);
  }

  /** The loop's squares `zaa`, `zbb` are those of the exit test and the step. */
  lemma StepFacts(c: Vec2, za: real, zb: real, zaa: real, zbb: real)
    requires zaa == za * za && zbb == zb * zb
    ensures Escapes(Vec2(za, zb)) <==> zaa + zbb > 4.0
    ensures Next(Vec2(za, zb), c) == Vec2(zaa - zbb + c.x, 2.0 * (za * zb) + c.y)
  {
  }

  /** The escape loop: `za`, `zb` follow the orbit until the exit test
      fires or the cap is reached. */
  method Escape(c: Vec2) returns (i: nat)
    ensures i == EscapeTime(c)
  {
    var za, zb := c.x, c.y;
    i := 0;
    while i < Cap
      invariant i <= Cap
      invariant EscapeFrom(c, Vec2(za, zb), i) == EscapeTime(c)
      decreases Cap - i
    {
      var zaa := za * za;
      var zbb := zb * zb;
      StepFacts(c, za, zb, zaa, zbb);
      if zaa + zbb > 4.0 {
        break;
      }
      assert EscapeFrom(c, Vec2(za, zb), i) == EscapeFrom(c, Next(Vec2(za, zb), c), i + 1);
      zb := (2.0 * (za * zb)) + c.y;
      za := zaa - zbb + c.x;
      i := i + 1;
    }
  }

  /** The outcome `setpixel` is reached with: `i == 192` or a smaller step count. */
  datatype Verdict = Inside | Escaped(steps: nat)

  /** The classification of one plane point: inside when a disk test
      fires or the orbit stays bounded for `Cap` steps, otherwise the step
      at which it escapes. */
  function Classify(c: Vec2, scale: real): (v: Verdict)
    ensures Shortcut(c, scale) ==> v == Inside
    ensures v.Escaped? ==> v.steps < Cap
  {
    EscapeTimeFirst(c);
    if Shortcut(c, scale) then Inside
    else if EscapeTime(c) == Cap then Inside
    else Escaped(EscapeTime(c))
  }

  /** What a verdict means for the orbit: an escaped point escapes exactly
      at its step count, and a point the disk tests do not catch is inside
      exactly when its orbit stays bounded for `Cap` steps. */
  lemma ClassifyMeaning(c: Vec2, scale: real)
    ensures var v := Classify(c, scale);
      v.Escaped? ==>
        Escapes(Orbit(c, v.steps)) && forall k :: 0 <= k < v.steps ==> !Escapes(Orbit(c, k))
    ensures !Shortcut(c, scale) && Classify(c, scale) == Inside ==>
      forall k :: 0 <= k < Cap ==> !Escapes(Orbit(c, k))
    ensures !Shortcut(c, scale) && (forall k :: 0 <= k < Cap ==> !Escapes(Orbit(c, k))) ==>
      Classify(c, scale) == Inside
  {
    EscapeTimeFirst(c);
    BoundedIff(c);
  }

  /** The disk tests, then the escape loop: the two ways to `setpixel`. */
  method ClassifyPoint(c: Vec2, scale: real) returns (verdict: Verdict)
    ensures verdict == Classify(c, scale)
  {
    if Shortcut(c, scale) {
      verdict := Inside;
    } else {
      var i := Escape(c);
      verdict := if i == Cap then Inside else Escaped(i);
    }
  }

  /** `if (t > .95) d = 20 * (t - .95)`: the darkening the fade-out at the
      end of the zoom asks for, before its square root is taken. */
  function FadeBase(d: real, t: real): (r: real)
    ensures t <= 0.95 ==> r == d
    ensures t == 1.0 ==> r == 1.0
    ensures 0.0 <= d && 0.0 <= t ==> 0.0 <= r
  {
    if t > 0.95 then 20.0 * (t - 0.95) else d
  }

  /** `i = rand() % 48; i -= 48 * d; if (i < 0) i = 0;`: the speckle grey
      of an inside pixel, from the raw `rand()` value and the darkening. */
  function GreyLevel(rnd: nat, dark: real): (g: Byte)
    requires 0.0 <= dark
    ensures g <= rnd % 48 <= 47
    ensures dark == 0.0 ==> g == rnd % 48
    ensures 1.0 <= dark ==> g == 0
  {
    var i := Trunc((rnd % 48) as real - 48.0 * dark);
    if i < 0 then 0 else i
  }

  /** `R -= 256 * d; if (R < 0) R = 0;` on one palette channel. */
  function Darken(ch: Byte, dark: real): (r: Byte)
    requires 0.0 <= dark
    ensures r <= ch
    ensures dark == 0.0 ==> r == ch
    ensures 1.0 <= dark ==> r == 0
  {
    var v := Trunc(ch as real - 256.0 * dark);
    if v < 0 then 0 else v
  }

  /** More darkening never brightens a channel. */
  lemma DarkenMonotone(ch: Byte, d1: real, d2: real)
    requires 0.0 <= d1 <= d2
    ensures Darken(ch, d2) <= Darken(ch, d1)
  {
    var a, b := ch as real - 256.0 * d1, ch as real - 256.0 * d2;
    assert b <= a;
    if 0.0 <= b {
      assert b.Floor <= a.Floor;
    }
  }

  /** The colour `setpixel` stores for a verdict: a speckle grey inside,
      the darkened palette row of the step count outside. */
  function Shade(v: Verdict, pal: seq<RGB>, dark: real, rnd: nat): RGB
    requires |pal| == 256 && 0.0 <= dark
    requires v.Escaped? ==> v.steps < Cap
  {
    match v
    case Inside => Grey(GreyLevel(rnd, dark))
    case Escaped(i) =>
      RGB(Darken(pal[i].r, dark), Darken(pal[i].g, dark), Darken(pal[i].b, dark))
  }

  /** Inside pixels are greys no lighter than 47; escaped pixels are their
      palette row, darkened channel by channel, and exactly that row when
      there is no darkening. */
  lemma ShadeRange(v: Verdict, pal: seq<RGB>, dark: real, rnd: nat)
    requires |pal| == 256 && 0.0 <= dark
    requires v.Escaped? ==> v.steps < Cap
    ensures var s := Shade(v, pal, dark, rnd);
      (v == Inside ==> s.r == s.g == s.b <= 47) &&
      (v.Escaped? ==> s.r <= pal[v.steps].r && s.g <= pal[v.steps].g && s.b <= pal[v.steps].b) &&
      (v.Escaped? && dark == 0.0 ==> s == pal[v.steps])
  {
  }

  /** Once the darkening reaches 1 (at the end of the zoom, t = 1) the whole
      frame is black, whatever the verdict and the noise. */
  lemma FadeToBlack(v: Verdict, pal: seq<RGB>, dark: real, rnd: nat)
    requires |pal| == 256 && 1.0 <= dark
    requires v.Escaped? ==> v.steps < Cap
    ensures Shade(v, pal, dark, rnd) == Black
  {
  }

  /** The verdict of the pixel at flat index `k`. */
  function VerdictAt(v: View, k: nat): (r: Verdict)
    requires ValidView(v)
    ensures r.Escaped? ==> r.steps < Cap
  {
    Classify(Plane(v, k / v.bw, k % v.bw), v.scale)
  }

  /** How many `rand()` values the pixels before flat index `k` consumed:
      one per inside pixel. */
  function InsideBefore(v: View, k: nat): (n: nat)
    requires ValidView(v)
    ensures n <= k
  {
    if k == 0 then 0
    else InsideBefore(v, k - 1) + (if VerdictAt(v, k - 1) == Inside then 1 else 0)
  }

  /** The colour of the pixel at flat index `k`, drawing its speckle from
      the `rand()` stream in the order the pixels are visited. */
  function PixelAt(v: View, pal: seq<RGB>, dark: real, noise: seq<nat>, k: nat): RGB
    requires ValidView(v) && |pal| == 256 && 0.0 <= dark && k < |noise|
  {
    Shade(VerdictAt(v, k), pal, dark, noise[InsideBefore(v, k)])
  }

  /** The first `n` pixels of the frame, in the order they are visited. */
  function Picture(v: View, pal: seq<RGB>, dark: real, noise: seq<nat>, n: nat): (pic: seq<RGB>)
    requires ValidView(v) && |pal| == 256 && 0.0 <= dark && n <= |noise|
    ensures |pic| == n
  {
    if n == 0 then [] else Picture(v, pal, dark, noise, n - 1) + [PixelAt(v, pal, dark, noise, n - 1)]
  }

  /** Pixel `k` of the picture is the colour of pixel `k`. */
  lemma {:induction false} PictureAt(v: View, pal: seq<RGB>, dark: real, noise: seq<nat>, n: nat)
    requires ValidView(v) && |pal| == 256 && 0.0 <= dark && n <= |noise|
    ensures forall k :: 0 <= k < n ==> Picture(v, pal, dark, noise, n)[k] == PixelAt(v, pal, dark, noise, k)
  {
    if n > 0 {
      PictureAt(v, pal, dark, noise, n - 1);
    }
  }

  /** One pass of the inner loop body: classify pixel (y, x), colour it,
      and take a `rand()` value from the stream when it is inside. */
  method SetPixel(v: View, pal: seq<RGB>, dark: real, noise: seq<nat>, y: nat, x: nat, k: nat, used: nat)
    returns (colour: RGB, used': nat)
    requires ValidView(v) && x < v.bw && k == y * v.bw + x && |pal| == 256 && 0.0 <= dark
    requires k < |noise| && used == InsideBefore(v, k)
    ensures colour == PixelAt(v, pal, dark, noise, k)
    ensures used' == InsideBefore(v, k + 1)
  {
    FlatIndex(y, x, v.bw);
    var verdict := ClassifyPoint(Plane(v, y, x), v.scale);
    assert verdict == VerdictAt(v, k);
    colour := Shade(verdict, pal, dark, noise[used]);
    used' := if verdict == Inside then used + 1 else used;
  }

  /** The inner loop of `draw_mandelbrot`: row `y`, whose first pixel has
      flat index `k`, left to right. */
  method DrawRow(pixels: array<RGB>, v: View, pal: seq<RGB>, dark: real, noise: seq<nat>,
                 y: nat, k: nat, used: nat) returns (used': nat)
    requires ValidView(v) && |pal| == 256 && 0.0 <= dark
    requires k == y * v.bw && k + v.bw <= |noise| && k + v.bw <= pixels.Length
    requires used == InsideBefore(v, k) && pixels[..k] == Picture(v, pal, dark, noise, k)
    modifies pixels
    ensures used' == InsideBefore(v, k + v.bw)
    ensures pixels[..k + v.bw] == Picture(v, pal, dark, noise, k + v.bw)
  {
    used' := used;
    var x, j := 0, k;
    while x < v.bw
      invariant 0 <= x <= v.bw && j == k + x
      invariant used' == InsideBefore(v, j)
      invariant pixels[..j] == Picture(v, pal, dark, noise, j)
    {
      var colour;
      colour, used' := SetPixel(v, pal, dark, noise, y, x, j, used');
      pixels[j] := colour;
      assert pixels[..j + 1] == pixels[..j] + [colour];
      x, j := x + 1, j + 1;
    }
  }

  /** The pixel loop of `draw_mandelbrot`, row by row: map, classify (the
      disks first, then the escape loop), colour. `noise` is the stream of
      `rand()` results; `used` is how many of them were consumed. */
  method DrawMandelbrot(pixels: array<RGB>, v: View, pal: seq<RGB>, dark: real, noise: seq<nat>)
    returns (used: nat)
    requires ValidView(v) && pixels.Length == v.bw * v.bh
    requires |pal| == 256 && 0.0 <= dark && |noise| >= v.bw * v.bh
    modifies pixels
    ensures used == InsideBefore(v, v.bw * v.bh)
    ensures pixels[..] == Picture(v, pal, dark, noise, v.bw * v.bh)
  {
    used := 0;
    var k := 0;
    var y := 0;
    while y < v.bh
      invariant 0 <= y <= v.bh && k == y * v.bw
      invariant y < v.bh ==> k + v.bw <= pixels.Length
      invariant y == v.bh ==> k == pixels.Length
      invariant used == InsideBefore(v, k)
      invariant pixels[..k] == Picture(v, pal, dark, noise, k)
    {
      NextRow(y, v.bw, v.bh);
      used := DrawRow(pixels, v, pal, dark, noise, y, k, used);
      k, y := k + v.bw, y + 1;
    }
    assert pixels[..] == pixels[..k];
  }
}
