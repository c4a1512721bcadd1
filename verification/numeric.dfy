/** Integer and byte behaviour of the C program that the other modules rely on. */
module Numeric {

  /** An unsigned 8-bit value, C's `uint8_t`. */
  type Byte = b: int | 0 <= b < 256

  /** One pixel: the three consecutive bytes R, G, B of a frame buffer or texture. */
  datatype RGB = RGB(r: Byte, g: Byte, b: Byte)

  const Black := RGB(0, 0, 0)

  function Grey(v: Byte): RGB { RGB(v, v, v) }

  /** C conversion of a floating value to an integer: truncation toward zero. */
  function Trunc(x: real): (r: int)
    ensures 0.0 <= x ==> 0 <= r && r as real <= x < r as real + 1.0
    ensures x < 0.0 ==> r <= 0 && r as real - 1.0 < x <= r as real
  {
    if x >= 0.0 then x.Floor else -((-x).Floor)
  }

  /** C's `/` on `int`: the quotient truncated toward zero (C11 6.5.5). */
  function CDiv(a: int, n: int): int
    requires n > 0
  {
    if a >= 0 then a / n else -((-a) / n)
  }

  /** C's `%` on `int`: what is left after the truncating division, so it carries
      the sign of the dividend (C11 6.5.5). */
  function CRem(a: int, n: int): (r: int)
    requires n > 0
    ensures a == n * CDiv(a, n) + r
    ensures 0 <= a ==> 0 <= r < n
    ensures a < 0 ==> -n < r <= 0
  {
    if a >= 0 then a % n else -((-a) % n)
  }

  /** Natural-number power, used for point counts. */
  function Pow(b: nat, e: nat): (r: nat)
    ensures 1 <= b ==> 1 <= r
  {
    if e == 0 then 1 else b * Pow(b, e - 1)
  }

  lemma MulNonneg(a: int, b: int)
    requires 0 <= a && 0 <= b
    ensures 0 <= a * b
  {
  }

  /** Pixel (y, x) of a row-major image `w` pixels wide sits at flat index y*w + x,
      and that index determines the pair back. */
  lemma FlatIndex(y: nat, x: nat, w: nat)
    requires x < w
    ensures (y * w + x) / w == y && (y * w + x) % w == x
  {
    var k := y * w + x;
    var q, r := k / w, k % w;
    assert k == w * q + r;
    if q < y {
      MulNonneg(w, y - q - 1);
      assert false;
    } else if q > y {
      MulNonneg(w, q - y - 1);
      assert false;
    }
  }

  /** Pixels of a row-major image are laid out in row-then-column order. */
  lemma FlatOrder(y: nat, x: nat, y': nat, x': nat, w: nat)
    requires x < w && x' < w
    requires y' < y || (y' == y && x' < x)
    ensures y' * w + x' < y * w + x
  {
    if y' < y {
      assert y' * w + x' < y' * w + w == (y' + 1) * w <= y * w;
    }
  }

  /** Where the next row starts, and that it still fits in a `w`-wide,
      `h`-high buffer. */
  lemma NextRow(y: nat, w: nat, h: nat)
    requires y < h
    ensures (y + 1) * w == y * w + w
    ensures y + 1 < h ==> (y + 1) * w + w <= w * h
    ensures y + 1 == h ==> (y + 1) * w == w * h
  {
    if y + 1 < h {
      assert (y + 2) * w <= h * w;
    }
  }

  /** Pixel (y, x) of a `w`-wide, `h`-high image has a flat index below `w * h`. */
  lemma FlatInside(y: nat, x: nat, w: nat, h: nat)
    requires y < h && x < w
    ensures y * w + x < w * h
  {
    assert y * w + x < (y + 1) * w <= h * w;
  }

  /** Euclidean division is unique: any quotient and remainder in [0, n)
      that rebuild `a` are Dafny's `a / n` and `a % n`. */
  lemma DivModUnique(a: int, n: int, q: int, r: int)
    requires n > 0 && 0 <= r < n && a == n * q + r
    ensures a / n == q && a % n == r
  {
    var q', r' := a / n, a % n;
    assert n * q + r == n * q' + r';
    if q < q' {
      MulNonneg(n, q' - q - 1);
      assert false;
    } else if q' < q {
      MulNonneg(n, q - q' - 1);
      assert false;
    }
  }

  /** C's remainder and the Euclidean one agree where C's is not negative,
      and differ by exactly `n` where it is. */
  lemma CRemWrap(a: int, n: int)
    requires n > 0
    ensures CRem(a, n) >= 0 ==> a % n == CRem(a, n)
    ensures CRem(a, n) < 0 ==> a % n == CRem(a, n) + n
  {
    var q, r := CDiv(a, n), CRem(a, n);
    if r >= 0 {
      DivModUnique(a, n, q, r);
    } else {
      assert n * (q - 1) == n * q - n;
      DivModUnique(a, n, q - 1, r + n);
    }
  }
}
