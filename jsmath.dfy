/**
 * The JavaScript number idioms the core relies on, written out over
 * unbounded numbers: Math.round, Math.floor(Math.random() * n) and
 * `cond ? 1 : 0`.
 */
module JsMath {

  /** Math.round: rounds half-way values up (towards +infinity). */
  function Round(x: real): (r: int)
    ensures x - 0.5 < r as real <= x + 0.5
  {
    (x + 0.5).Floor
  }

  /** A rounded value that is already an integer is left alone. */
  lemma RoundOfInteger(n: int)
    ensures Round(n as real) == n
  {
  }

  /** Half-way values go up, as Math.round does (Math.round(-2.5) == -2). */
  lemma RoundHalfGoesUp()
    ensures Round(2.5) == 3 && Round(-2.5) == -2
  {
  }

  /**
   * Math.floor(u * n) for a draw u of Math.random, which lies in [0, 1):
   * an index in [0, n), namely the i with u in [i/n, (i+1)/n).
   */
  function DrawIndex(u: real, n: nat): (i: nat)
    requires 0.0 <= u < 1.0
    requires n > 0
    ensures i < n
    ensures i as real <= u * n as real < i as real + 1.0
  {
    var x := u * n as real;
    assert 0.0 <= x < n as real;
    x.Floor
  }

  /** `cond ? 1 : 0`: one when the condition holds, zero otherwise. */
  function Indicator(cond: bool): (f: nat)
    ensures f <= 1
    ensures f == 1 <==> cond
  {
    if cond then 1 else 0
  }
}
