/** The scene sequencer of `display`: from the time since start it picks
    one effect and that effect's parameters, by a literal chain of time
    boundaries. The zoom `z = pow(2, lerp(1, -12, u))` of the Mandelbrot
    dive is computed outside the model and passed in as a number. */
module Sequencer {
  import opened Interp

  /** What one frame of `display` draws. */
  datatype Effect =
    | Mandel(x: real, y: real, z: real, fade: real, u: real)  // draw_mandelbrot(x, y, z, fade, u)
    | Koch(u: real)                                           // clear to black, draw_koch(u)
    | Kochz(u: real)                                          // draw_kochz(u)
    | Qochz(u: real)                                          // draw_qochz(u)
    | Qoch(grey: real, u: real)                               // clear to grey, draw_qoch(u)
    | Blank                                                   // clear to black
    | Fire(u: real)                                           // draw_fire(u)
    | Exit                                                    // exit(EXIT_SUCCESS)

  /** The effect of a frame and the position, counted from 0, of the branch
      of the chain that chose it. */
  datatype Scene = Scene(branch: nat, effect: Effect)

  /** The time `display` works with: the clock (seconds since start, or
      frames / 30 when recording) less two seconds of lead-in. */
  function SceneTime(record: bool, frames: nat, elapsed: real): (t: real)
    ensures record ==> t == frames as real / 30.0 - 2.0
    ensures !record ==> t + 2.0 == elapsed
  {
    if record then frames as real / 30.0 - 2.0 else elapsed - 2.0
  }

  /** The exponent of the zoom in the dive: `lerp(1, -12, u)` with
      `u = t / 16.5`; the caller passes `z = pow(2, DiveExponent(t))`. */
  function DiveExponent(t: real): (e: real)
    requires 0.0 <= t < 16.5
    ensures -12.0 < e <= 1.0
  {
    LerpBetween(1.0, -12.0, t / 16.5);
    Lerp(1.0, -12.0, t / 16.5)
  }

  /** The branch chain of `display`, boundary by boundary. The branch taken
      is the number of boundaries the time has reached: exactly one branch
      per time, in the order of the boundaries. */
  function Dispatch(t: real, z: real): (s: Scene)
    ensures s.branch <= 13
    ensures s.branch == Passed(Bounds, t)
  {
    var s :=
      if t < 0.0 then Scene(0, Mandel(0.0, 0.0, 2.0, -0.5 * t, 0.0))
      else if t < 16.5 then
        var u := (t - 0.0) / (16.5 - 0.0);
        Scene(1, Mandel(Lerp(0.0, -0.6506, 1.0 - z / 2.0), Lerp(0.0, -0.4785, 1.0 - z / 2.0), z, 0.0, u))
      else if t < 30.0 then Scene(2, Koch((t - 16.5) / (30.0 - 16.5)))
      else if t < 57.73 then Scene(3, Kochz((t - 30.0) / (45.0 - 30.0)))
      else if t < 66.06 then Scene(4, Qochz(1.0 - ((t - 57.73) / (66.25 - 57.73)) / 2.0))
      else if t < 66.28 then Scene(5, Qochz(0.3))
      else if t < 66.8 then Scene(6, Qochz(0.0))
      else if t < 77.0 then Scene(7, Qoch(1.0, 1.0 - (t - 65.0) / (77.0 - 65.0)))
      else if t < 80.0 then
        var u := (t - 77.0) / (80.0 - 77.0);
        Scene(8, Qoch(1.0 - u, 0.0))
      else if t < 81.22 then Scene(9, Blank)
      else if t < 84.14 then Scene(10, Fire(0.0))
      else if t < 87.88 then Scene(11, Fire(0.2))
      else if t < 93.0 then Scene(12, Fire(1.0))
      else Scene(13, Exit);
    BoundsIncrease();
    PassedSorted(Bounds, t, s.branch);
    s
  }

  /** The boundaries of the chain, in the order it tests them. */
  const Bounds: seq<real> := [0.0, 16.5, 30.0, 57.73, 66.06, 66.28, 66.8, 77.0, 80.0, 81.22, 84.14, 87.88, 93.0]

  /** How many of the boundaries `bs` time `t` has reached. */
  function Passed(bs: seq<real>, t: real): (n: nat)
    ensures n <= |bs|
  {
    if bs == [] then 0 else (if bs[0] <= t then 1 else 0) + Passed(bs[1..], t)
  }

  /** Every boundary comes strictly after the one before it. */
  lemma BoundsIncrease()
    ensures forall i, j :: 0 <= i < j < |Bounds| ==> Bounds[i] < Bounds[j]
  {
  }

  /** In increasing boundaries, a time between boundaries `k - 1` and `k`
      has passed exactly `k` of them. */
  lemma {:induction false} PassedSorted(bs: seq<real>, t: real, k: nat)
    requires forall i, j :: 0 <= i < j < |bs| ==> bs[i] < bs[j]
    requires k <= |bs| && (k > 0 ==> bs[k - 1] <= t) && (k < |bs| ==> t < bs[k])
    ensures Passed(bs, t) == k
    decreases |bs|
  {
    if bs != [] {
      if k == 0 {
        assert t < bs[0];
        PassedSorted(bs[1..], t, 0);
      } else {
        assert bs[0] <= t;
        PassedSorted(bs[1..], t, k - 1);
      }
    }
  }

  /** A later time never goes back to an earlier branch. */
  lemma DispatchInOrder(t: real, t': real, z: real, z': real)
    requires t <= t'
    ensures Dispatch(t, z).branch <= Dispatch(t', z').branch
  {
    PassedMonotone(Bounds, t, t');
  }

  lemma {:induction false} PassedMonotone(bs: seq<real>, t: real, t': real)
    requires t <= t'
    ensures Passed(bs, t) <= Passed(bs, t')
    decreases |bs|
  {
    if bs != [] {
      PassedMonotone(bs[1..], t, t');
    }
  }

  /** The demo ends exactly when the time reaches 93. */
  lemma ExitIff(t: real, z: real)
    ensures Dispatch(t, z).effect == Exit <==> t >= 93.0
  {
  }

  /** The progress each effect is driven with: the Koch morph runs over
      [0, 1); the kaleidoscope's `u` runs on to (57.73 - 30) / 15, past 1;
      the first `draw_qochz` argument falls from 1 towards 0.51; the
      `draw_qoch(1 - u)` branch starts at `u = (66.8 - 65) / 12 = 0.15`,
      not at 0, and ends at 1; the fade to black runs the clear colour from
      1 down to 0. */
  lemma EffectProgress(t: real, z: real)
    ensures Dispatch(t, z).effect.Koch? ==> 0.0 <= Dispatch(t, z).effect.u < 1.0
    ensures Dispatch(t, z).effect.Kochz? ==> 0.0 <= Dispatch(t, z).effect.u < (57.73 - 30.0) / 15.0
    ensures 57.73 <= t < 66.06 ==> 1.0 - (66.06 - 57.73) / (2.0 * (66.25 - 57.73)) < Dispatch(t, z).effect.u <= 1.0
    ensures 66.8 <= t < 77.0 ==> 0.15 <= (t - 65.0) / 12.0 < 1.0 && 0.0 < Dispatch(t, z).effect.u <= 0.85
    ensures 77.0 <= t < 80.0 ==> 0.0 < Dispatch(t, z).effect.grey <= 1.0
  {
  }

  /** The kaleidoscope's progress reaches values arbitrarily close to
      (57.73 - 30) / 15, about 1.85, well past the end of its own camera
      schedule at 1. */
  lemma KochzOvershoots(z: real)
    ensures Dispatch(57.72, z).effect == Kochz(27.72 / 15.0)
    ensures 27.72 / 15.0 > 1.8
  {
  }

  /** The `draw_qoch(1 - u)` branch starts its curve partly unfolded:
      at its first moment, `draw_qoch(0.85)`. */
  lemma QochStartsAt(z: real)
    ensures Dispatch(66.8, z) == Scene(7, Qoch(1.0, 0.85))
  {
  }

  /** The Mandelbrot lead-in fades in while the time runs from -2 to 0,
      over a fixed view at zoom 2; the dive starts from the same view. */
  lemma MandelLeadIn(t: real, z: real)
    requires t < 0.0
    ensures Dispatch(t, z).effect == Mandel(0.0, 0.0, 2.0, -0.5 * t, 0.0)
    ensures Dispatch(0.0, 2.0).effect == Mandel(0.0, 0.0, 2.0, 0.0, 0.0)
  {
  }
}
