/** The level meter of the windowed front end: 40 canvases, 20 pixels high,
    each showing one bar whose height follows the latest loudness, tallest in
    the middle. Floating point is modelled by exact reals. */
module Meter {

  const BarCount := 40
  const CanvasHeight := 20
  const MinHeight := 2
  /** The bar with the largest weight. */
  const Centre := 20

  /** What a canvas shows: nothing yet, or one rectangle from the top edge
      `top` down to the bottom of the canvas, filled with colour `fill`. */
  datatype Bar = Blank | Rect(top: int, fill: string)

  function Abs(x: int): (a: nat)
    ensures a == x || a == -x
  {
    if x < 0 then -x else x
  }

  /** `min(1.0, audio_level * 5)`: the scaled level, capped at 1. */
  function Level(audioLevel: real): (level: real)
    ensures level <= 1.0 && level <= audioLevel * 5.0
    ensures level == 1.0 || level == audioLevel * 5.0
    ensures audioLevel >= 0.0 ==> level >= 0.0
  {
    if audioLevel * 5.0 < 1.0 then audioLevel * 5.0 else 1.0
  }

  /** Python's `int()` on a float: truncation toward zero. */
  function Trunc(x: real): (n: int)
    ensures x >= 0.0 ==> n as real <= x < n as real + 1.0
    ensures x < 0.0 ==> n as real - 1.0 < x <= n as real
  {
    if x >= 0.0 then x.Floor else -((-x).Floor)
  }

  /** `1 - abs(i - 20) / 20`: the share of the full height bar `i` may reach. */
  function Weight(i: int): (w: real)
    ensures 0 <= i <= 2 * Centre ==> 0.0 <= w <= 1.0
  {
    1.0 - Abs(i - Centre) as real / 20.0
  }

  /** `a * w`: a full height scaled down by a bar's weight. */
  function Scale(a: real, w: real): (r: real) {
    a * w
  }

  /** `20 * level * weight`: the value `int()` truncates for bar `i`. */
  function Scaled(level: real, i: int): (r: real) {
    Scale(20.0 * level, Weight(i))
  }

  /** `max(2, int(20 * level * weight))`: the height of bar `i` in pixels. */
  function BarHeight(level: real, i: int): (h: int)
    ensures h >= MinHeight
  {
    var raw := Trunc(Scaled(level, i));
    if raw < MinHeight then MinHeight else raw
  }

  /** `'#ff4444' if level > 0.5 else '#ff8888'`. */
  function Fill(level: real): (colour: string) {
    if level > 0.5 then "#ff4444" else "#ff8888"
  }

  /** Scaling a non-negative value by a share in [0, 1] gives a value
      between 0 and that value. */
  lemma ScaleWithin(a: real, w: real)
    requires 0.0 <= a && 0.0 <= w <= 1.0
    ensures 0.0 <= Scale(a, w) <= a
  {
    assert a * w <= a by {
      assert a - a * w == a * (1.0 - w);
    }
  }

  /** The value `int()` truncates for bar `i` lies between 0 and the canvas
      height. */
  lemma ScaledBounds(level: real, i: int)
    requires 0.0 <= level <= 1.0 && 0 <= i < BarCount
    ensures 0.0 <= Scaled(level, i) <= 20.0
  {
    ScaleWithin(20.0 * level, Weight(i));
  }

  /** For a level the meter can show and a bar that exists, the height is
      between 2 and the canvas height. */
  lemma BarHeightBounds(level: real, i: int)
    requires 0.0 <= level <= 1.0 && 0 <= i < BarCount
    ensures MinHeight <= BarHeight(level, i) <= CanvasHeight
  {
    ScaledBounds(level, i);
  }

  /** The rectangle drawn on canvas `i`: from `20 - height` to the bottom. */
  function DrawnBar(level: real, i: int): (b: Bar)
    requires 0.0 <= level <= 1.0 && 0 <= i < BarCount
    ensures b.Rect? && 0 <= b.top <= CanvasHeight - MinHeight
    ensures b.top == CanvasHeight - BarHeight(level, i)
    ensures b.fill == (if level > 0.5 then "#ff4444" else "#ff8888")
  {
    BarHeightBounds(level, i);
    Rect(CanvasHeight - BarHeight(level, i), Fill(level))
  }

  /** Bars the same distance from the centre are equally tall. */
  lemma BarsSymmetric(level: real, d: int)
    ensures BarHeight(level, Centre - d) == BarHeight(level, Centre + d)
  {
    assert Abs(Centre - d - Centre) == Abs(Centre + d - Centre);
  }

  /** Truncation keeps the order of non-negative values. */
  lemma TruncMonotone(x: real, y: real)
    requires 0.0 <= x <= y
    ensures Trunc(x) <= Trunc(y)
  {
  }

  /** Scaling by a non-negative factor keeps the order of non-negative values. */
  lemma ScaleMonotone(a: real, x: real, y: real)
    requires 0.0 <= a && 0.0 <= x <= y
    ensures 0.0 <= Scale(a, x) <= Scale(a, y)
  {
    assert a * y - a * x == a * (y - x);
  }

  /** The weights grow from the left edge to the centre. */
  lemma WeightRisesToCentre(i: int, j: int)
    requires 0 <= i <= j <= Centre
    ensures 0.0 <= Weight(i) <= Weight(j)
  {
  }

  /** The scaled values grow from the left edge to the centre. */
  lemma ScaledRisesToCentre(level: real, i: int, j: int)
    requires 0.0 <= level && 0 <= i <= j <= Centre
    ensures 0.0 <= Scaled(level, i) <= Scaled(level, j)
  {
    WeightRisesToCentre(i, j);
    ScaleMonotone(20.0 * level, Weight(i), Weight(j));
  }

  /** Walking from the left edge to the centre, the bars never get shorter. */
  lemma BarsRiseToCentre(level: real, i: int, j: int)
    requires 0.0 <= level && 0 <= i <= j <= Centre
    ensures BarHeight(level, i) <= BarHeight(level, j)
  {
    ScaledRisesToCentre(level, i, j);
    TruncMonotone(Scaled(level, i), Scaled(level, j));
  }

  /** Silence shows every bar at the minimum height. */
  lemma QuietMeter(i: int)
    ensures BarHeight(0.0, i) == MinHeight
  {
  }

  /** At full level the centre bar fills its canvas. */
  lemma FullMeter()
    ensures BarHeight(1.0, Centre) == CanvasHeight
  {
  }
}
