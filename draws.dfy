/** Random draws. Every `Math.random()` call of the component is a parameter of
    the model: a real in [0, 1). */
module Draws {

  /** What `Math.random()` may return. */
  predicate IsDraw(r: real) {
    0.0 <= r < 1.0
  }

  predicate AllDraws(rs: seq<real>) {
    forall i :: 0 <= i < |rs| ==> IsDraw(rs[i])
  }

  /** `Math.floor(r * n)`: the index a draw picks from a table of `n` entries. */
  function Pick(r: real, n: nat): (i: int)
    requires IsDraw(r) && n > 0
    ensures 0 <= i < n
    ensures i as real <= r * n as real < i as real + 1.0
  {
    ScaledDraw(r, n as real);
    (r * n as real).Floor
  }

  /** Every entry of a table is picked by some draw: r = i / n picks i. */
  lemma PickReachesEvery(i: nat, n: nat)
    requires i < n
    ensures IsDraw(i as real / n as real)
    ensures Pick(i as real / n as real, n) == i
  {
    var r := i as real / n as real;
    assert r * n as real == i as real;
  }

  /** `Math.random() * span`: a draw scaled to a span, landing in [0, span]. */
  function Scaled(r: real, span: real): (v: real)
    requires IsDraw(r)
    ensures span >= 0.0 ==> 0.0 <= v <= span
    ensures span > 0.0 ==> v < span
  {
    if span >= 0.0 then ScaledDraw(r, span); r * span else r * span
  }

  /** `r * span` for a draw `r` lies in [0, span], and below `span` when `span > 0`. */
  lemma ScaledDraw(r: real, span: real)
    requires IsDraw(r) && span >= 0.0
    ensures 0.0 <= r * span <= span
    ensures span > 0.0 ==> r * span < span
  {
    assert (1.0 - r) * span >= 0.0;
  }
}
