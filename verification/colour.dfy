/** `hsl2rgb` and the two palettes built from it. */
module Colour {
  import opened Numeric
  import opened Interp

  /** A colour with real channels, as `hsl2rgb` holds it before the byte store. */
  datatype Rgbf = Rgbf(r: real, g: real, b: real)

  /** v of the sextant formula: the value of the largest channel. */
  function Peak(s: real, l: real): real
  {
    if l <= 0.5 then l * (1.0 + s) else l + s - l * s
  }

  /** m = l + l − v: the value of the smallest channel. */
  function Base(s: real, l: real): real
  {
    l + l - Peak(s, l)
  }

  function Max3(c: Rgbf): real { Max(Max(c.r, c.g), c.b) }
  function Min3(c: Rgbf): real { Min(Min(c.r, c.g), c.b) }

  /** `hsl2rgb` before the store into bytes: the sextant formula. A sextant
      outside 0..5 (h ≥ 1, or h ≤ −1/6) matches no case of the switch and
      leaves the grey `l` the channels start from. */
  function HslToRgb(h: real, s: real, l: real): (c: Rgbf)
    ensures Peak(s, l) <= 0.0 ==> c == Rgbf(l, l, l)
    ensures 1.0 <= h ==> c == Rgbf(l, l, l)
  {
    var v := Peak(s, l);
    if v > 0.0 then
      var m := l + l - v;
      var sextant := Sextant(h);
      var vsf := Spread(h, s, l);
      var mid1 := m + vsf;
      var mid2 := v - vsf;
      if sextant == 0 then Rgbf(v, mid1, m)
      else if sextant == 1 then Rgbf(mid2, v, m)
      else if sextant == 2 then Rgbf(m, v, mid1)
      else if sextant == 3 then Rgbf(m, mid2, v)
      else if sextant == 4 then Rgbf(mid1, m, v)
      else if sextant == 5 then Rgbf(v, m, mid2)
      else Rgbf(l, l, l)
    else
      Rgbf(l, l, l)
  }

  /** `sextant = (int)(h * 6)`. */
  function Sextant(h: real): int
  {
    Trunc(h * 6.0)
  }

  /** `fract = h - sextant`, with h already scaled by 6. */
  function Fract(h: real): real
  {
    h * 6.0 - Sextant(h) as real
  }

  /** `vsf = v * sv * fract`, the offset of the two middle channels from m and v. */
  function Spread(h: real, s: real, l: real): real
    requires Peak(s, l) > 0.0
  {
    var v := Peak(s, l);
    var m := l + l - v;
    var sv := (v - m) / v;
    v * sv * Fract(h)
  }

  lemma FractRange(h: real)
    requires 0.0 <= h
    ensures 0.0 <= Fract(h) < 1.0
  {
  }

  lemma SpreadForm(h: real, s: real, l: real)
    requires Peak(s, l) > 0.0
    ensures Spread(h, s, l) == (Peak(s, l) - Base(s, l)) * Fract(h)
  {
    var v := Peak(s, l);
    var m := l + l - v;
    DivCancel(v - m, v);
  }

  /** For a hue in [0, 1] the spread is a fraction of v − m. */
  lemma SpreadBounds(h: real, s: real, l: real)
    requires 0.0 <= h <= 1.0 && Peak(s, l) > 0.0 && Base(s, l) <= Peak(s, l)
    ensures 0.0 <= Spread(h, s, l) <= Peak(s, l) - Base(s, l)
  {
    var d, f := Peak(s, l) - Base(s, l), Fract(h);
    assert Spread(h, s, l) == d * f by { SpreadForm(h, s, l); }
    assert 0.0 <= d * f <= d by { FractRange(h); MulBetween(d, f); }
  }

  /** For s, l in [0, 1]: 0 ≤ m ≤ l ≤ v ≤ 1. */
  lemma PeakBaseRange(s: real, l: real)
    requires 0.0 <= s <= 1.0 && 0.0 <= l <= 1.0
    ensures 0.0 <= Base(s, l) <= l <= Peak(s, l) <= 1.0
  {
    assert Peak(s, l) == if l <= 0.5 then l + l * s else l + s - l * s;
    MulBetween(l, s);
    ComplementBounds(s, l);
    PeakBaseLinear(l, s, l * s, Peak(s, l));
  }

  lemma ComplementBounds(s: real, l: real)
    requires 0.0 <= s <= 1.0 && 0.0 <= l <= 1.0
    ensures 0.0 <= s - l * s <= 1.0 - l
  {
    var p := (1.0 - l) * s;
    assert p == s - l * s;
    assert p <= 1.0 - l by { MulBetween(1.0 - l, s); }
    assert 0.0 <= p by { MulNonnegReal(1.0 - l, s); }
  }

  lemma PeakBaseLinear(l: real, s: real, ls: real, peak: real)
    requires peak == if l <= 0.5 then l + ls else l + s - ls
    requires 0.0 <= ls <= l && 0.0 <= s - ls <= 1.0 - l && l <= 1.0
    ensures 0.0 <= l + l - peak <= l <= peak <= 1.0
  {
  }

  lemma DivCancel(a: real, v: real)
    requires v != 0.0
    ensures v * (a / v) == a
  {
  }

  /** For h, s, l in [0, 1] every channel lies in [m, v], so in [0, 1]. */
  lemma HslChannelsInRange(h: real, s: real, l: real)
    requires 0.0 <= h <= 1.0 && 0.0 <= s <= 1.0 && 0.0 <= l <= 1.0
    ensures var c := HslToRgb(h, s, l);
      && Base(s, l) <= c.r <= Peak(s, l)
      && Base(s, l) <= c.g <= Peak(s, l)
      && Base(s, l) <= c.b <= Peak(s, l)
    ensures 0.0 <= Base(s, l) && Peak(s, l) <= 1.0
  {
    PeakBaseRange(s, l);
    if Peak(s, l) > 0.0 {
      SpreadBounds(h, s, l);
    }
  }

  /** For a hue in [0, 1) and a non-black colour the formula is exact HSL:
      the largest channel is v and the smallest is m. */
  lemma HslExtremes(h: real, s: real, l: real)
    requires 0.0 <= h < 1.0 && 0.0 <= s <= 1.0 && 0.0 < l <= 1.0
    ensures Max3(HslToRgb(h, s, l)) == Peak(s, l)
    ensures Min3(HslToRgb(h, s, l)) == Base(s, l)
  {
    HslChannelsInRange(h, s, l);
    PeakBaseRange(s, l);
    assert 0 <= Trunc(h * 6.0) <= 5;
  }

  /** With no saturation the colour is the grey `l`, whatever the hue. */
  lemma HslUnsaturatedIsGrey(h: real, l: real)
    requires 0.0 <= l <= 1.0
    ensures HslToRgb(h, 0.0, l) == Rgbf(l, l, l)
  {
  }

  /** The store `rgb[i] = 255 * c` into a `uint8_t`: truncation. */
  function ToByte(c: real): (b: Byte)
    requires 0.0 <= c <= 1.0
    ensures b as real <= 255.0 * c < b as real + 1.0
  {
    (255.0 * c).Floor
  }

  /** `hsl2rgb` as a whole: the sextant formula stored into three bytes. */
  function HslBytes(h: real, s: real, l: real): RGB
    requires 0.0 <= h <= 1.0 && 0.0 <= s <= 1.0 && 0.0 <= l <= 1.0
  {
    HslChannelsInRange(h, s, l);
    var c := HslToRgb(h, s, l);
    RGB(ToByte(c.r), ToByte(c.g), ToByte(c.b))
  }

  /** `make_mandelbrot`: rows 0..190 come from the sextant formula at full
      saturation, row 191 is black, and rows 192..255 keep the zero bytes of
      static storage. `hue[i]` and `light[i]` are the `fmodf`/`powf` values the
      source computes for row i. */
  method MakeMandelPalette(hue: seq<real>, light: seq<real>) returns (pal: seq<RGB>)
    requires |hue| == 192 && |light| == 192
    requires forall i :: 0 <= i < 192 ==> 0.0 <= hue[i] <= 1.0 && 0.0 <= light[i] <= 1.0
    ensures |pal| == 256
    ensures forall i :: 0 <= i < 191 ==> pal[i] == HslBytes(hue[i], 1.0, light[i])
    ensures forall i :: 191 <= i < 256 ==> pal[i] == Black
  {
    var rows := new RGB[256](_ => Black);
    var i := 0;
    while i < 192
      invariant 0 <= i <= 192
      invariant forall j :: 0 <= j < i ==> rows[j] == HslBytes(hue[j], 1.0, light[j])
      invariant forall j :: i <= j < 256 ==> rows[j] == Black
    {
      rows[i] := HslBytes(hue[i], 1.0, light[i]);
      i := i + 1;
    }
    rows[191] := Black;
    pal := rows[..];
  }

  /** `make_fire`: all 256 rows from the sextant formula at full saturation;
      `hue[i]` and `light[i]` are the `powf` values for row i. */
  method MakeFirePalette(hue: seq<real>, light: seq<real>) returns (pal: seq<RGB>)
    requires |hue| == 256 && |light| == 256
    requires forall i :: 0 <= i < 256 ==> 0.0 <= hue[i] <= 1.0 && 0.0 <= light[i] <= 1.0
    ensures |pal| == 256
    ensures forall i :: 0 <= i < 256 ==> pal[i] == HslBytes(hue[i], 1.0, light[i])
  {
    var rows := new RGB[256](_ => Black);
    var i := 0;
    while i < 256
      invariant 0 <= i <= 256
      invariant forall j :: 0 <= j < i ==> rows[j] == HslBytes(hue[j], 1.0, light[j])
    {
      rows[i] := HslBytes(hue[i], 1.0, light[i]);
      i := i + 1;
    }
    pal := rows[..];
  }
}
