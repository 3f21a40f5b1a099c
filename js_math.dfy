/** JavaScript arithmetic on the integer millisecond values the core handles. */
module JsMath {

  /**
   * `Math.round(ms / 1000)` for an integer `ms`: `Math.round` rounds to the
   * nearest integer and sends halves towards +infinity, which is
   * `floor(ms / 1000 + 1/2)`; Dafny's `/` on a positive divisor floors.
   */
  function RoundMillisToSeconds(ms: int): (s: int)
  {
    (ms + 500) / 1000
  }

  /**
   * The rounded value is the nearest whole second, halves going up: it is
   * the unique `s` with `ms` in `[1000 s - 500, 1000 s + 500)`.
   */
  lemma RoundMillisToSecondsNearest(ms: int, s: int)
    ensures RoundMillisToSeconds(ms) == s <==> 1000 * s - 500 <= ms < 1000 * s + 500
  {
    var r := RoundMillisToSeconds(ms);
    assert 1000 * r <= ms + 500 < 1000 * r + 1000;
  }
}
