/** Randomness as an input. Every `Math.random()` call of the application,
    except those of the shuffle comparator and of the line ids, is replaced
    by the next value of a caller-supplied stream of draws in [0, 1); a
    cursor says how many draws have been consumed so far. The comparator's
    draws are not numbered, so a draw index after a shuffle is not the
    program's count of calls. */
module Draws {

  /** One value of `Math.random()`. */
  type Draw = r: real | 0.0 <= r < 1.0

  /** The draws in the order the program consumes them. */
  type Stream = nat -> Draw

  /** `Math.floor(Math.random() * n)`: an index below `n` when `n > 0`. */
  function Pick(r: Draw, n: nat): (i: nat)
    ensures n > 0 ==> i < n
    ensures n == 0 ==> i == 0
  {
    ScaledDraw(r, n);
    (r * n as real).Floor
  }

  /** A draw scaled by `n` lies in [0, n), and is 0 when `n` is 0. */
  lemma {:induction false} ScaledDraw(r: Draw, n: nat)
    ensures 0.0 <= r * n as real
    ensures n > 0 ==> r * n as real < n as real
    ensures n == 0 ==> r * n as real == 0.0
  {
    if n > 0 {
      ScaledDraw(r, n - 1);
      assert r * n as real == r * (n - 1) as real + r;
    }
  }

  /** `Math.random() > 0.5 ? 1 : -1`. */
  function Direction(r: Draw): (d: real)
    ensures d == 1.0 || d == -1.0
    ensures d == 1.0 <==> r > 0.5
  {
    if r > 0.5 then 1.0 else -1.0
  }

  /** `Math.floor(Math.random() * 36) * 10`: the fallback angle, a multiple of
      10 in [0, 350]. */
  function FallbackAngle(r: Draw): (a: real)
    ensures 0.0 <= a <= 350.0
    ensures a == a.Floor as real && a.Floor % 10 == 0
  {
    (Pick(r, 36) * 10) as real
  }
}
