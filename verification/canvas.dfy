/** Pieces shared by both background engines: the range of `Math.random()`,
    picking a table entry with `Math.floor(Math.random() * n)`, and the
    toroidal wrap applied to each coordinate on every frame. */
module Canvas {

  /** A draw of `Math.random()`: a value in [0, 1). */
  predicate IsUnit(r: real) {
    0.0 <= r < 1.0
  }

  /** `Math.floor(r * n)` for a unit draw `r`: always a valid index. */
  function FloorIndex(r: real, n: nat): (i: nat)
    requires IsUnit(r) && n > 0
    ensures i < n
    ensures i as real <= r * n as real < i as real + 1.0
  {
    ScaleBelow(r, n as real);
    (r * n as real).Floor
  }

  /** A table entry chosen by a unit draw; it is always one of the entries. */
  function Pick<T>(xs: seq<T>, r: real): (x: T)
    requires IsUnit(r) && |xs| > 0
    ensures x in xs
  {
    xs[FloorIndex(r, |xs|)]
  }

  /** `r * k`: a coordinate drawn across a canvas side of length `k`. */
  function Scaled(r: real, k: real): (v: real)
    requires IsUnit(r) && k >= 0.0
    ensures 0.0 <= v <= k
    ensures k > 0.0 ==> v < k
  {
    ScaleBelow(r, k);
    r * k
  }

  /** `(r - 0.5) * speed`: a velocity component centred on zero. */
  function Centred(r: real, speed: real): (v: real)
    requires IsUnit(r) && speed >= 0.0
    ensures -speed / 2.0 <= v <= speed / 2.0
    ensures speed > 0.0 ==> v < speed / 2.0
  {
    ScaleBelow(r, speed);
    (r - 0.5) * speed
  }

  /** `r * span + low`: a value in [low, low + span). */
  function Spread(r: real, low: real, span: real): (v: real)
    requires IsUnit(r) && span > 0.0
    ensures low <= v < low + span
  {
    ScaleBelow(r, span);
    r * span + low
  }

  /** A unit draw scaled by a non-negative factor stays below the factor (or at
      zero when the factor is zero). */
  lemma ScaleBelow(r: real, k: real)
    requires IsUnit(r) && k >= 0.0
    ensures 0.0 <= r * k <= k
    ensures k > 0.0 ==> r * k < k
  {
    assert (1.0 - r) * k >= 0.0;
    if k > 0.0 {
      assert (1.0 - r) * k > 0.0;
    }
  }

  /** The per-axis wrap both engines run after moving an element: below `low`
      it jumps to `high`, then above `high` it jumps to `low`. The two tests
      run one after the other, exactly as the two `if` statements do. */
  function Wrap(v: real, low: real, high: real): (w: real)
    requires low <= high
    ensures low <= w <= high
    ensures low <= v <= high ==> w == v
    ensures v < low ==> w == high
    ensures v > high ==> w == low
  {
    var afterLow := if v < low then high else v;
    if afterLow > high then low else afterLow
  }
}
