/** Small numeric helpers shared by the page's frame computations:
    `Math.max`, `Math.min` and the `Math.min(Math.max(x, 0), 1)` clamp
    used both by the hero tilt and by the timeline progress, plus an
    Option for a DOM ref that may not be attached yet. */
module Common {

  /** A ref's `current` value: `None` while the element is not mounted. */
  datatype Option<T> = None | Some(value: T)

  /** `Math.max(a, b)` on finite numbers. */
  function Max(a: real, b: real): (r: real)
    ensures r >= a && r >= b
    ensures r == a || r == b
  {
    if a >= b then a else b
  }

  /** `Math.min(a, b)` on finite numbers. */
  function Min(a: real, b: real): (r: real)
    ensures r <= a && r <= b
    ensures r == a || r == b
  {
    if a <= b then a else b
  }

  /** `Math.min(Math.max(x, 0), 1)`: the nearest point of [0, 1] to `x`. */
  function Clamp01(x: real): (r: real)
    ensures 0.0 <= r <= 1.0
    ensures 0.0 <= x <= 1.0 ==> r == x
    ensures x <= 0.0 ==> r == 0.0
    ensures x >= 1.0 ==> r == 1.0
  {
    Min(Max(x, 0.0), 1.0)
  }

  /** Clamping never reverses the order of its arguments. */
  lemma Clamp01Monotone(x: real, y: real)
    requires x <= y
    ensures Clamp01(x) <= Clamp01(y)
  {
  }

  /** Clamping never moves two points further apart. */
  lemma Clamp01Contracts(x: real, y: real)
    requires x <= y
    ensures 0.0 <= Clamp01(y) - Clamp01(x) <= y - x
  {
  }
}
