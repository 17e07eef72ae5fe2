/** The one-question-at-a-time navigator shared by the form pages: `Next`
    and `Previous` move the index by one and do nothing at the ends. */
module Navigator {

  /** `if (i < n - 1) setIndex(i + 1)`. */
  function NextIndex(i: int, n: int): int {
    if i < n - 1 then i + 1 else i
  }

  /** `if (i > 0) setIndex(i - 1)`. */
  function PreviousIndex(i: int): int {
    if i > 0 then i - 1 else i
  }

  /** From an index in [0, n - 1] both moves stay in [0, n - 1]; each moves
      by exactly one unless it is already at its end. */
  lemma NavigationStaysInRange(i: int, n: int)
    requires 0 <= i < n
    ensures 0 <= NextIndex(i, n) < n && 0 <= PreviousIndex(i) < n
    ensures NextIndex(i, n) == if i == n - 1 then i else i + 1
    ensures PreviousIndex(i) == if i == 0 then i else i - 1
  {
  }
}
