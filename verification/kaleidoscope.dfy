/** The two kaleidoscope effects: `make_kochz` / `make_qochz` bake a
    read-back picture of the finished curve into a square texture, and
    `draw_kochz` / `draw_qochz` paint every pixel of the frame from the texel
    a polar warp of its position lands on. Textures are `sh * sh` pixels,
    row-major, each pixel the three bytes R, G, B. */
module Kaleidoscope {
  import opened Numeric
  import opened Interp

  const White := RGB(255, 255, 255)

  /** The side of a checker square, `sh >> 2`. */
  function Tile(sh: nat): nat { sh / 4 }

  /** `(x / (sh >> 2)) % 2 ^ (y / (sh >> 2)) % 2`: pixel (y, x) lies in an
      odd square of the 4 x 4 checkerboard laid over the texture. */
  predicate Checker(y: nat, x: nat, sh: nat)
    requires sh >= 4
  {
    (x / Tile(sh)) % 2 != (y / Tile(sh)) % 2
  }

  predicate CheckerAt(j: nat, sh: nat)
    requires sh >= 4
  {
    Checker(j / sh, j % sh, sh)
  }

  // ---------------------------------------------------------------------
  // What the bake loops read, as written

  /** The flat pixels whose red byte `make_kochz` reads while it bakes pixel
      `j`: rule `r` (0 to 4) looks at `p[3 + 3r]`, the pixel `j + 1 + r`,
      and at `p[3 * sh + 3r]`, the pixel `j + sh + r`. */
  function KochzReads(j: nat, sh: nat): (at: seq<nat>)
    ensures |at| == 10
  {
    seq(10, r => if r < 5 then j + 1 + r else j + sh + (r - 5))
  }

  /** The flat pixels `make_qochz` reads while it bakes pixel `j`: `p[3]`
      and `p[3 * sh]`. */
  function QochzReads(j: nat, sh: nat): (at: seq<nat>)
    ensures |at| == 2
  {
    [j + 1, j + sh]
  }

  /** Every read lies ahead of the pixel being written, and pixel `j` is
      the only one written at step `j`: so each step sees the read-back
      picture, never an already baked pixel. */
  lemma BakeReadsAhead(j: nat, sh: nat)
    requires sh >= 1
    ensures forall i :: 0 <= i < 10 ==> j < KochzReads(j, sh)[i]
    ensures forall i :: 0 <= i < 2 ==> j < QochzReads(j, sh)[i]
  {
  }

  /** As written, the `make_kochz` loop reads past the end of its
      `sh * sh * 3`-byte buffer: every read of pixel `j` is inside exactly
      when `j + sh + 4 < sh * sh`, which fails for the last `sh + 4`
      pixels. */
  lemma KochzOverread(j: nat, sh: nat)
    requires sh >= 4
    ensures (forall i :: 0 <= i < 10 ==> KochzReads(j, sh)[i] < sh * sh) ==> j + sh + 4 < sh * sh
    ensures j + sh + 4 < sh * sh ==> forall i :: 0 <= i < 10 ==> KochzReads(j, sh)[i] < sh * sh
    ensures KochzReads(sh * sh - 1, sh)[9] >= sh * sh
  {
    assert KochzReads(j, sh)[9] == j + sh + 4;
  }

  /** Likewise `make_qochz` reads past its buffer for the last `sh` pixels. */
  lemma QochzOverread(j: nat, sh: nat)
    requires sh >= 4
    ensures (forall i :: 0 <= i < 2 ==> QochzReads(j, sh)[i] < sh * sh) ==> j + sh < sh * sh
    ensures j + sh < sh * sh ==> forall i :: 0 <= i < 2 ==> QochzReads(j, sh)[i] < sh * sh
    ensures QochzReads(sh * sh - 1, sh)[1] >= sh * sh
  {
    assert QochzReads(j, sh)[1] == j + sh;
  }

  // ---------------------------------------------------------------------
  // The bake, with reads past the end seeing the cleared background

  /** The red byte of flat pixel `i` of a picture, or `bg`, the colour the
      picture was cleared to, where `i` lies past its end. */
  function RedOr(img: seq<RGB>, i: nat, bg: Byte): (b: Byte)
    ensures i < |img| ==> b == img[i].r
  {
    if i < |img| then img[i].r else bg
  }

  /** Rule `r` of `make_kochz` fires for pixel `j`: one of the two pixels
      it looks at is lit. Past the end the picture is black (it was cleared
      to black before the curve was drawn). */
  predicate KochzRule(img: seq<RGB>, j: nat, sh: nat, r: nat)
  {
    RedOr(img, j + 1 + r, 0) != 0 || RedOr(img, j + sh + r, 0) != 0
  }

  /** The colour rule `r` paints. */
  function KochzRuleColour(r: nat): RGB
  {
    if r < 3 then White else if r == 3 then RGB(255, 220, 150) else RGB(255, 192, 128)
  }

  /** Pixel `j` after the five rules, each of which overwrites the pixel
      when it fires: the last rule that fires decides. */
  function KochzEdge(img: seq<RGB>, j: nat, sh: nat): RGB
    requires j < |img|
  {
    if KochzRule(img, j, sh, 4) then KochzRuleColour(4)
    else if KochzRule(img, j, sh, 3) then KochzRuleColour(3)
    else if KochzRule(img, j, sh, 2) || KochzRule(img, j, sh, 1) || KochzRule(img, j, sh, 0) then White
    else img[j]
  }

  /** The baked pixel `j`: the edge rules, then grey 32 on an odd checker
      square where the pixel is still unlit. */
  function KochzTexel(img: seq<RGB>, j: nat, sh: nat): RGB
    requires sh >= 4 && j < |img|
  {
    var e := KochzEdge(img, j, sh);
    if e.r == 0 && CheckerAt(j, sh) then Grey(32) else e
  }

  /** The whole baked `kochz` texture. */
  function KochzBake(img: seq<RGB>, sh: nat): (tex: seq<RGB>)
    requires sh >= 4
    ensures |tex| == |img|
  {
    seq(|img|, j requires 0 <= j < |img| => KochzTexel(img, j, sh))
  }

  /** What the kochz bake does to one pixel: it turns white or a warm
      colour next to a lit pixel, with the latest firing rule's colour; it
      turns grey 32 exactly when no rule fires, its red byte is 0 and it
      lies on an odd checker square; otherwise it keeps its colour. */
  lemma KochzTexelMeaning(img: seq<RGB>, j: nat, sh: nat)
    requires sh >= 4 && j < |img|
    ensures var fired := exists r :: 0 <= r < 5 && KochzRule(img, j, sh, r);
      var c := KochzTexel(img, j, sh);
      (KochzRule(img, j, sh, 4) ==> c == RGB(255, 192, 128)) &&
      (!KochzRule(img, j, sh, 4) && KochzRule(img, j, sh, 3) ==> c == RGB(255, 220, 150)) &&
      (fired ==> c.r == 255) &&
      (!fired && img[j].r == 0 && CheckerAt(j, sh) ==> c == Grey(32)) &&
      (!fired && (img[j].r != 0 || !CheckerAt(j, sh)) ==> c == img[j])
  {
    var fired := exists r :: 0 <= r < 5 && KochzRule(img, j, sh, r);
    if !fired {
      assert !KochzRule(img, j, sh, 0) && !KochzRule(img, j, sh, 1) && !KochzRule(img, j, sh, 2);
      assert !KochzRule(img, j, sh, 3) && !KochzRule(img, j, sh, 4);
    } else {
      var r :| 0 <= r < 5 && KochzRule(img, j, sh, r);
      assert KochzEdge(img, j, sh).r == 255;
    }
  }

  /** `make_qochz`: the picture was cleared to white, so past its end every
      pixel reads as 255. A pixel next to an unlit pixel turns black; then
      a pixel whose red byte is 255 on an odd checker square turns grey 224. */
  function QochzTexel(img: seq<RGB>, j: nat, sh: nat): RGB
    requires sh >= 4 && j < |img|
  {
    var e := if RedOr(img, j + 1, 255) == 0 || RedOr(img, j + sh, 255) == 0 then Black else img[j];
    if e.r == 255 && CheckerAt(j, sh) then Grey(224) else e
  }

  /** The whole baked `qochz` texture. */
  function QochzBake(img: seq<RGB>, sh: nat): (tex: seq<RGB>)
    requires sh >= 4
    ensures |tex| == |img|
  {
    seq(|img|, j requires 0 <= j < |img| => QochzTexel(img, j, sh))
  }

  /** A qochz texel is black, grey 224 or the picture's own pixel: black
      next to an unlit pixel (the checker never paints over a pixel that
      the edge rule blackened); otherwise grey 224 exactly where the pixel
      is lit in red on an odd checker square, and the pixel itself
      everywhere else. */
  lemma QochzTexelMeaning(img: seq<RGB>, j: nat, sh: nat)
    requires sh >= 4 && j < |img|
    ensures var c := QochzTexel(img, j, sh);
      c == Black || c == Grey(224) || c == img[j]
    ensures RedOr(img, j + 1, 255) == 0 || RedOr(img, j + sh, 255) == 0 ==> QochzTexel(img, j, sh) == Black
    ensures RedOr(img, j + 1, 255) != 0 && RedOr(img, j + sh, 255) != 0 ==>
      (img[j].r == 255 && CheckerAt(j, sh) ==> QochzTexel(img, j, sh) == Grey(224))
    ensures RedOr(img, j + 1, 255) != 0 && RedOr(img, j + sh, 255) != 0 ==>
      (!(img[j].r == 255 && CheckerAt(j, sh)) ==> QochzTexel(img, j, sh) == img[j])
    ensures QochzTexel(img, j, sh) == Grey(224) && img[j] != Grey(224) ==>
      img[j].r == 255 && CheckerAt(j, sh)
  {
  }

  /** The red byte of pixel `i` of a texture being baked, `bg` past its end. */
  function RedAt(tex: array<RGB>, i: nat, bg: Byte): Byte
    reads tex
  {
    if i < tex.Length then tex[i].r else bg
  }

  /** One pass of the `make_kochz` loop body, at pixel (y, x), flat index
      `j`: the pixels from `j` on still hold the read-back picture `img`. */
  method BakeKochzPixel(tex: array<RGB>, sh: nat, y: nat, x: nat, j: nat, ghost img: seq<RGB>)
    requires sh >= 4 && x < sh && j == y * sh + x && j < tex.Length == |img|
    requires forall i :: j <= i < tex.Length ==> tex[i] == img[i]
    modifies tex
    ensures tex[j] == KochzTexel(img, j, sh)
    ensures forall i :: 0 <= i < tex.Length && i != j ==> tex[i] == old(tex[i])
  {
    FlatIndex(y, x, sh);
    assert forall i :: j < i ==> RedAt(tex, i, 0) == RedOr(img, i, 0);
    var c := tex[j];
    if RedAt(tex, j + 1, 0) != 0 || RedAt(tex, j + sh, 0) != 0 { c := White; }
    if RedAt(tex, j + 2, 0) != 0 || RedAt(tex, j + sh + 1, 0) != 0 { c := White; }
    if RedAt(tex, j + 3, 0) != 0 || RedAt(tex, j + sh + 2, 0) != 0 { c := White; }
    assert c == if KochzRule(img, j, sh, 2) || KochzRule(img, j, sh, 1) || KochzRule(img, j, sh, 0)
      then White else img[j];
    if RedAt(tex, j + 4, 0) != 0 || RedAt(tex, j + sh + 3, 0) != 0 { c := RGB(255, 220, 150); }
    if RedAt(tex, j + 5, 0) != 0 || RedAt(tex, j + sh + 4, 0) != 0 { c := RGB(255, 192, 128); }
    assert c == KochzEdge(img, j, sh);
    if c.r == 0 && Checker(y, x, sh) {
      c := Grey(32);
    }
    tex[j] := c;
  }

  /** One pass of the `make_qochz` loop body. */
  method BakeQochzPixel(tex: array<RGB>, sh: nat, y: nat, x: nat, j: nat, ghost img: seq<RGB>)
    requires sh >= 4 && x < sh && j == y * sh + x && j < tex.Length == |img|
    requires forall i :: j <= i < tex.Length ==> tex[i] == img[i]
    modifies tex
    ensures tex[j] == QochzTexel(img, j, sh)
    ensures forall i :: 0 <= i < tex.Length && i != j ==> tex[i] == old(tex[i])
  {
    FlatIndex(y, x, sh);
    assert forall i :: j < i ==> RedAt(tex, i, 255) == RedOr(img, i, 255);
    if RedAt(tex, j + 1, 255) == 0 || RedAt(tex, j + sh, 255) == 0 { tex[j] := Black; }
    if tex[j].r == 255 && Checker(y, x, sh) {
      tex[j] := Grey(224);
    }
  }

  /** The post-pass of `make_kochz`, in place, row by row: the texture ends
      up as the bake of the picture that was read back into it. */
  method BakeKochz(tex: array<RGB>, sh: nat)
    requires sh >= 4 && tex.Length == sh * sh
    modifies tex
    ensures tex[..] == KochzBake(old(tex[..]), sh)
  {
    ghost var img := tex[..];
    var y, k := 0, 0;
    while y < sh
      invariant 0 <= y <= sh && k == y * sh
      invariant y < sh ==> k + sh <= tex.Length
      invariant y == sh ==> k == tex.Length
      invariant forall i :: 0 <= i < k ==> tex[i] == KochzTexel(img, i, sh)
      invariant forall i :: k <= i < tex.Length ==> tex[i] == img[i]
    {
      NextRow(y, sh, sh);
      var x, j := 0, k;
      while x < sh
        invariant 0 <= x <= sh && j == k + x
        invariant forall i :: 0 <= i < j ==> tex[i] == KochzTexel(img, i, sh)
        invariant forall i :: j <= i < tex.Length ==> tex[i] == img[i]
      {
        BakeKochzPixel(tex, sh, y, x, j, img);
        x, j := x + 1, j + 1;
      }
      y, k := y + 1, k + sh;
    }
  }

  /** The post-pass of `make_qochz`, in place, row by row. */
  method BakeQochz(tex: array<RGB>, sh: nat)
    requires sh >= 4 && tex.Length == sh * sh
    modifies tex
    ensures tex[..] == QochzBake(old(tex[..]), sh)
  {
    ghost var img := tex[..];
    var y, k := 0, 0;
    while y < sh
      invariant 0 <= y <= sh && k == y * sh
      invariant y < sh ==> k + sh <= tex.Length
      invariant y == sh ==> k == tex.Length
      invariant forall i :: 0 <= i < k ==> tex[i] == QochzTexel(img, i, sh)
      invariant forall i :: k <= i < tex.Length ==> tex[i] == img[i]
    {
      NextRow(y, sh, sh);
      var x, j := 0, k;
      while x < sh
        invariant 0 <= x <= sh && j == k + x
        invariant forall i :: 0 <= i < j ==> tex[i] == QochzTexel(img, i, sh)
        invariant forall i :: j <= i < tex.Length ==> tex[i] == img[i]
      {
        BakeQochzPixel(tex, sh, y, x, j, img);
        x, j := x + 1, j + 1;
      }
      y, k := y + 1, k + sh;
    }
  }

  // ---------------------------------------------------------------------
  // The camera

  /** Where a kaleidoscope frame looks: the offset `ox`, `oy` (in texture
      widths), the rotation `roto` and the `zoom`. */
  datatype Camera = Camera(ox: real, oy: real, roto: real, zoom: real)

  /** The camera of `draw_kochz(t)`: two fixed close-ups, then from t = 0.5
      a drift, a turn and a zoom out driven by 2(t - 0.5). */
  function KochzCamera(t: real): Camera
  {
    if t < 0.25 then Camera(0.0, 0.0, 0.0, 4.0)
    else if t < 0.5 then Camera(0.0, 0.0, 0.0, 12.0)
    else
      var s := 2.0 * (t - 0.5);
      Camera(Lerp(0.0, 0.25, s), Lerp(0.0, 0.25, s), Lerp(0.0, 24.0, s), Lerp(12.0, 2.0, s))
  }

  /** The camera of `draw_qochz(t)`. */
  function QochzCamera(t: real): Camera
  {
    if t < 0.25 then Camera(0.0, 0.0, 0.0, 4.0)
    else if t < 0.5 then Camera(0.0, 0.0, 0.0, 12.0)
    else
      var s := 2.0 * (t - 0.5);
      Camera(Lerp(0.0, 0.14746, s), Lerp(0.0, 0.22265, s), Lerp(32.0, 0.0, s), Lerp(12.0, 0.5, s))
  }

  /** The kochz drift starts where the second close-up left off and reaches
      offset (0.25, 0.25), 24 radians and zoom 2 at t = 1. Its zoom stays
      positive only while t < 1.1: driven on to t = 1.85, as the scene list
      does, it passes through 0 and ends negative, turning the picture
      over. */
  lemma KochzCameraPath(t: real)
    ensures KochzCamera(0.5) == KochzCamera(0.49) && KochzCamera(1.0) == Camera(0.25, 0.25, 24.0, 2.0)
    ensures 0.5 <= t ==> (KochzCamera(t).zoom > 0.0 <==> t < 1.1)
    ensures KochzCamera(1.1).zoom == 0.0
    ensures KochzCamera((57.73 - 30.0) / 15.0).zoom < 0.0
  {
  }

  /** The qochz camera over the range it is driven through: the zoom runs
      from 12 down to 0.5 and stays positive; at t = 1 the drift has
      reached (0.14746, 0.22265) and the turn is undone. */
  lemma QochzCameraPath(t: real)
    ensures 0.0 <= t <= 1.0 ==> 0.5 <= QochzCamera(t).zoom <= 12.0
    ensures QochzCamera(1.0) == Camera(0.14746, 0.22265, 0.0, 0.5)
    ensures QochzCamera(0.5) == Camera(0.0, 0.0, 32.0, 12.0)
  {
    if 0.5 <= t <= 1.0 {
      LerpBetween(12.0, 0.5, 2.0 * (t - 0.5));
    }
  }

  // ---------------------------------------------------------------------
  // The warp

  /** The polar maths of one frame pixel, left to the caller: `r` is the
      `sqrtf` distance of the pixel from the frame centre, `cos` and `sin`
      those of its angle (the `atan2` plus the camera's `roto`, and the
      quarter turn `draw_kochz` adds). The camera's `roto` reaches the
      warp only through these two numbers: `Warped` reads the camera's
      offset and zoom, and the caller must have turned the angle by the
      `roto` of the same camera. */
  datatype Polar = Polar(r: real, cos: real, sin: real)

  /** `X` and `Y` after the warp: the radius scaled by the zoom, turned,
      and shifted by the camera offset. */
  function Warped(p: Polar, cam: Camera, sh: nat): Vec2
  {
    Vec2(p.r * cam.zoom * p.cos + cam.zoom * sh as real * cam.ox,
         p.r * cam.zoom * p.sin + cam.zoom * sh as real * cam.oy)
  }

  /** As written: `sx = ((int)X + sh / 2) % sh`, with C's remainder. */
  function ColumnC(X: real, sh: nat): int
    requires sh > 0
  {
    CRem(Trunc(X) + sh / 2, sh)
  }

  /** As written: `sy = (((int)Y + sh / 2) + 16 * sh) % sh`. */
  function RowC(Y: real, sh: nat): int
    requires sh > 0
  {
    CRem((Trunc(Y) + sh / 2) + 16 * sh, sh)
  }

  /** As written: the flat texel `sy * sh + sx` the pixel reads. */
  function TexelIndexC(w: Vec2, sh: nat): int
    requires sh > 0
  {
    RowC(w.y, sh) * sh + ColumnC(w.x, sh)
  }

  /** The row is a texture row whenever `(int)Y` is no lower than
      `-16 sh - sh/2`, the shift `16 * sh` was added for. */
  lemma RowCRange(Y: real, sh: nat)
    requires sh > 0
    ensures -(sh as int) < RowC(Y, sh) < sh
    ensures Trunc(Y) >= -16 * sh - sh / 2 ==> 0 <= RowC(Y, sh)
  {
  }

  /** The column has no such shift: it is a texture column when
      `(int)X + sh/2` is not negative, and it is that negative number
      itself when `(int)X + sh/2` lies in (-sh, 0). */
  lemma ColumnCRange(X: real, sh: nat)
    requires sh > 0
    ensures -(sh as int) < ColumnC(X, sh) < sh
    ensures Trunc(X) + sh / 2 >= 0 ==> 0 <= ColumnC(X, sh)
    ensures -(sh as int) < Trunc(X) + sh / 2 < 0 ==> ColumnC(X, sh) == Trunc(X) + sh / 2
  {
    var a := Trunc(X) + sh / 2;
    if -(sh as int) < a < 0 {
      DivModUnique(-a, sh, 0, -a);
    }
  }

  /** With the row inside the texture, the byte offset `3 * (sy * sh + sx)`
      lies inside the `sh * sh * 3` buffer exactly when the column is not
      negative or the row is not the first. */
  lemma TexelIndexCInBounds(w: Vec2, sh: nat)
    requires sh > 0 && 0 <= RowC(w.y, sh)
    ensures 0 <= TexelIndexC(w, sh) < sh * sh ==> ColumnC(w.x, sh) >= 0 || RowC(w.y, sh) >= 1
    ensures ColumnC(w.x, sh) >= 0 || RowC(w.y, sh) >= 1 ==> 0 <= TexelIndexC(w, sh) < sh * sh
  {
    var sy, sx := RowC(w.y, sh), ColumnC(w.x, sh);
    assert 0 <= sy < sh && -(sh as int) < sx < sh;
    IndexFacts(sy, sx, sh);
  }

  /** Where a row `sy` of an `sh`-wide texture starts, and the flat range
      that a column in (-sh, sh) reaches from it. */
  lemma IndexFacts(sy: int, sx: int, sh: nat)
    requires 0 <= sy < sh && -(sh as int) < sx < sh
    ensures sy * sh + sx < sh * sh
    ensures sy == 0 ==> sy * sh + sx == sx
    ensures sy >= 1 ==> sy * sh + sx >= 0
  {
    assert sy * sh + sx < (sy + 1) * sh <= sh * sh;
    if sy >= 1 {
      MulNonneg(sy - 1, sh);
    }
  }

  /** As written, a point just left of the texture in its first row is
      read from before the start of the buffer: for every texture at least
      2 pixels wide, `X = -(sh/2) - 1` and `Y = -(sh/2)` give flat texel -1. */
  lemma TexelIndexCBeforeStart(sh: nat)
    requires sh >= 2
    ensures TexelIndexC(Vec2((-(sh / 2) - 1) as real, (-(sh / 2)) as real), sh) == -1
  {
    var w := Vec2((-(sh / 2) - 1) as real, (-(sh / 2)) as real);
    assert Trunc(w.x) == -(sh / 2) - 1;
    assert Trunc(w.y) == -(sh / 2);
    DivModUnique(16 * sh, sh, 16, 0);
    DivModUnique(1, sh, 0, 1);
    assert RowC(w.y, sh) == 0;
    assert ColumnC(w.x, sh) == -1;
  }

  /** As written, a point left of the texture in a later row is read from
      the row above, at the wrapped column. Just left of it, at column -1,
      that is the last texel of the row above: for every texture at least 2
      pixels wide, `X = -(sh/2) - 1` and `Y = 1 - sh/2` give column -1 of
      row 1, flat texel `sh - 1`, where the wrapped column reads `2 sh - 1`. */
  lemma TexelIndexCRowAbove(sh: nat)
    requires sh >= 2
    ensures TexelIndexC(Vec2((-(sh / 2) - 1) as real, (1 - sh / 2) as real), sh) == sh - 1
    ensures TexelIndex(Vec2((-(sh / 2) - 1) as real, (1 - sh / 2) as real), sh) == 2 * sh - 1
  {
    var w := Vec2((-(sh / 2) - 1) as real, (1 - sh / 2) as real);
    assert Trunc(w.x) == -(sh / 2) - 1;
    assert Trunc(w.y) == 1 - sh / 2;
    DivModUnique(16 * sh + 1, sh, 16, 1);
    DivModUnique(1, sh, 0, 1);
    assert RowC(w.y, sh) == 1;
    assert ColumnC(w.x, sh) == -1;
  }

  /** As written, the `16 * sh` shift of the row runs out below
      `(int)Y = -16 sh - sh/2`: for every texture at least 2 pixels wide,
      `X = -(sh/2)` and `Y = -16 sh - sh/2 - 1` give row -1 and flat texel
      `-sh`, a whole row before the buffer, where the wrapped row reads the
      first texel of the last row. */
  lemma TexelIndexCNegativeRow(sh: nat)
    requires sh >= 2
    ensures TexelIndexC(Vec2((-(sh / 2)) as real, (-16 * sh - sh / 2 - 1) as real), sh) == -(sh as int)
    ensures TexelIndex(Vec2((-(sh / 2)) as real, (-16 * sh - sh / 2 - 1) as real), sh) == (sh - 1) * sh
  {
    var w := Vec2((-(sh / 2)) as real, (-16 * sh - sh / 2 - 1) as real);
    assert Trunc(w.x) == -(sh / 2);
    assert Trunc(w.y) == -16 * sh - sh / 2 - 1;
    DivModUnique(1, sh, 0, 1);
    DivModUnique(-1, sh, -1, sh - 1);
    DivModUnique(0, sh, 0, 0);
    assert RowC(w.y, sh) == -1;
    assert ColumnC(w.x, sh) == 0;
    assert Row(w.y, sh) == sh - 1;
    assert Column(w.x, sh) == 0;
  }

  /** Corrected: the column wraps the way the row does, with a remainder
      that is never negative; it is the code's column where that is not
      negative, and one texture width further right where it is. */
  function Column(X: real, sh: nat): (sx: nat)
    requires sh > 0
    ensures sx < sh
    ensures ColumnC(X, sh) >= 0 ==> sx == ColumnC(X, sh)
    ensures ColumnC(X, sh) < 0 ==> sx == ColumnC(X, sh) + sh
  {
    CRemWrap(Trunc(X) + sh / 2, sh);
    (Trunc(X) + sh / 2) % sh
  }

  /** Corrected row: `sy` taken with the same remainder; it is the code's
      row wherever that is a texture row. */
  function Row(Y: real, sh: nat): (sy: nat)
    requires sh > 0
    ensures sy < sh
    ensures RowC(Y, sh) >= 0 ==> sy == RowC(Y, sh)
  {
    CRemWrap((Trunc(Y) + sh / 2) + 16 * sh, sh);
    ((Trunc(Y) + sh / 2) + 16 * sh) % sh
  }

  /** The flat index `y * sh + x` of texel (y, x). */
  function Flat(y: nat, x: nat, sh: nat): (i: nat)
    requires y < sh && x < sh
    ensures i < sh * sh
  {
    FlatInside(y, x, sh, sh);
    MulNonneg(y, sh);
    y * sh + x
  }

  /** Corrected: the flat texel the pixel reads, always inside the texture. */
  function TexelIndex(w: Vec2, sh: nat): (i: nat)
    requires sh > 0
    ensures i < sh * sh
  {
    Flat(Row(w.y, sh), Column(w.x, sh), sh)
  }

  /** The corrected texel is the one the code reads whenever the code's
      column is not negative; where it is negative (and the code's row is
      a texture row) the code reads `sh` texels too early: before the
      buffer in the first row, and in a later row the texel of the row
      above at the wrapped column `sx + sh`, anywhere along that row. */
  lemma TexelIndexCorrection(w: Vec2, sh: nat)
    requires sh > 0 && 0 <= RowC(w.y, sh)
    ensures ColumnC(w.x, sh) >= 0 ==> TexelIndexC(w, sh) == TexelIndex(w, sh)
    ensures ColumnC(w.x, sh) < 0 ==> TexelIndexC(w, sh) == TexelIndex(w, sh) - sh
    ensures ColumnC(w.x, sh) < 0 && RowC(w.y, sh) >= 1 ==>
      TexelIndexC(w, sh) == Flat(Row(w.y, sh) - 1, Column(w.x, sh), sh)
  {
  }

  // ---------------------------------------------------------------------
  // The frames

  /** `q`, the grey the checker squares pulse with in `draw_kochz`: 32
      until 34 seconds in, then `64 + 32 * pw`, where `pw` is the `pow`
      term (a fourth power of a number in (-1.37, 1]), stored as a byte. */
  function Pulse(u: real, pw: real): (q: Byte)
    requires 0.0 <= pw < 6.0
    ensures u <= 34.0 ==> q == 32
    ensures 34.0 < u ==> 64 <= q && q as real <= 64.0 + 32.0 * pw
  {
    if u > 34.0 then Trunc(64.0 + 32.0 * pw) else 32
  }

  /** The per-pixel choice of `draw_kochz`: a texel marked with red 32 (the
      checker squares of the bake) shows the grey `q`, any other texel is
      copied. */
  function KochzShow(texel: RGB, q: Byte): (c: RGB)
    ensures texel.r == 32 ==> c == Grey(q)
    ensures texel.r != 32 ==> c == texel
  {
    if texel.r == 32 then Grey(q) else texel
  }

  /** The colour `draw_kochz` gives a pixel with polar data `p`. */
  function KochzPixel(tex: seq<RGB>, sh: nat, p: Polar, cam: Camera, q: Byte): RGB
    requires sh > 0 && |tex| == sh * sh
  {
    KochzShow(tex[TexelIndex(Warped(p, cam, sh), sh)], q)
  }

  /** The colour `draw_qochz` gives a pixel: the texel, copied. */
  function QochzPixel(tex: seq<RGB>, sh: nat, p: Polar, cam: Camera): RGB
    requires sh > 0 && |tex| == sh * sh
  {
    tex[TexelIndex(Warped(p, cam, sh), sh)]
  }

  /** On a texture `make_kochz` baked, the pixels the checker painted pulse
      with `q` wherever the warp lands on them. */
  lemma CheckerPulses(img: seq<RGB>, sh: nat, j: nat, q: Byte)
    requires sh >= 4 && j < |img|
    requires !(exists r :: 0 <= r < 5 && KochzRule(img, j, sh, r))
    requires img[j].r == 0 && CheckerAt(j, sh)
    ensures KochzShow(KochzBake(img, sh)[j], q) == Grey(q)
  {
    KochzTexelMeaning(img, j, sh);
  }

  /** Lines `sx = ...`, `sy = ...`, `p = ...` of the draw loops, with the
      corrected column: the texel the warped point `w` lands on. */
  method Sample(tex: array<RGB>, sh: nat, w: Vec2) returns (texel: RGB)
    requires sh > 0 && tex.Length == sh * sh
    ensures texel == tex[TexelIndex(w, sh)]
  {
    var sx := Column(w.x, sh);
    var sy := Row(w.y, sh);
    texel := tex[Flat(sy, sx, sh)];
  }

  /** `draw_kochz(t)`: every pixel of the `bw * bh` frame warped onto the
      baked texture. `u` is the clock and `pw` the `pow` term of the pulse;
      `polar` holds the polar maths of every pixel. The rows-then-columns
      loops of the code visit the pixels in flat order, as the one loop
      here does: the body needs no more of (y, x) than the flat index.
      `polar[k]` must carry the angle of pixel `k` turned by
      `KochzCamera(t).roto` and a quarter turn. */
  method DrawKochz(pixels: array<RGB>, tex: array<RGB>, sh: nat, bw: nat, bh: nat,
                   polar: seq<Polar>, t: real, u: real, pw: real)
    requires sh > 0 && tex.Length == sh * sh && pixels != tex
    requires pixels.Length == bw * bh && |polar| == bw * bh && 0.0 <= pw < 6.0
    modifies pixels
    ensures forall k :: 0 <= k < pixels.Length ==>
      pixels[k] == KochzPixel(tex[..], sh, polar[k], KochzCamera(t), Pulse(u, pw))
  {
    ghost var img := tex[..];
    var q := Pulse(u, pw);
    var cam := KochzCamera(t);
    for j := 0 to pixels.Length
      invariant forall i :: 0 <= i < j ==> pixels[i] == KochzPixel(img, sh, polar[i], cam, q)
    {
      var texel := Sample(tex, sh, Warped(polar[j], cam, sh));
      if texel.r == 32 {
        pixels[j] := Grey(q);
      } else {
        pixels[j] := texel;
      }
    }
  }

  /** `draw_qochz(t)`: the same warp onto the qochz texture, every texel
      copied. `polar[k]` must carry the angle of pixel `k` turned by
      `QochzCamera(t).roto`. */
  method DrawQochz(pixels: array<RGB>, tex: array<RGB>, sh: nat, bw: nat, bh: nat,
                   polar: seq<Polar>, t: real)
    requires sh > 0 && tex.Length == sh * sh && pixels != tex
    requires pixels.Length == bw * bh && |polar| == bw * bh
    modifies pixels
    ensures forall k :: 0 <= k < pixels.Length ==>
      pixels[k] == QochzPixel(tex[..], sh, polar[k], QochzCamera(t))
  {
    ghost var img := tex[..];
    var cam := QochzCamera(t);
    for j := 0 to pixels.Length
      invariant forall i :: 0 <= i < j ==> pixels[i] == QochzPixel(img, sh, polar[i], cam)
    {
      pixels[j] := Sample(tex, sh, Warped(polar[j], cam, sh));
    }
  }
}
