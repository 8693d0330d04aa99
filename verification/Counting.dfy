/**
  Counting the integers of a half-open interval that satisfy a predicate.
  Every measure of time in this project is such a count.
 */
module Counting {

  // The number of x with lo <= x < hi and p(x).
  function CountIf(p: int -> bool, lo: int, hi: int): nat
    decreases hi - lo
  {
    if hi <= lo then 0 else CountIf(p, lo, hi - 1) + (if p(hi - 1) then 1 else 0)
  }

  lemma {:induction false} CountSplits(p: int -> bool, lo: int, mid: int, hi: int)
    requires lo <= mid <= hi
    ensures CountIf(p, lo, hi) == CountIf(p, lo, mid) + CountIf(p, mid, hi)
    decreases hi - mid
  {
    if mid < hi {
      CountSplits(p, lo, mid, hi - 1);
    }
  }

  // Extending the interval to the right never lowers the count.
  lemma {:induction false} CountGrows(p: int -> bool, lo: int, mid: int, hi: int)
    requires mid <= hi
    ensures CountIf(p, lo, mid) <= CountIf(p, lo, hi)
  {
    if lo <= mid {
      CountSplits(p, lo, mid, hi);
    }
  }

  // The count is at most the length of the interval, and reaches it exactly when every point counts.
  lemma {:induction false} CountFull(p: int -> bool, lo: int, hi: int)
    requires lo <= hi
    ensures CountIf(p, lo, hi) <= hi - lo
    ensures CountIf(p, lo, hi) == hi - lo <==> forall x | lo <= x < hi :: p(x)
    decreases hi - lo
  {
    if lo < hi {
      CountFull(p, lo, hi - 1);
      if CountIf(p, lo, hi) == hi - lo {
        assert p(hi - 1);
      }
    }
  }

  // Predicates that agree on the interval have the same count there.
  lemma {:induction false} CountAgrees(p: int -> bool, q: int -> bool, lo: int, hi: int)
    requires forall x | lo <= x < hi :: p(x) == q(x)
    ensures CountIf(p, lo, hi) == CountIf(q, lo, hi)
    decreases hi - lo
  {
    if lo < hi {
      CountAgrees(p, q, lo, hi - 1);
    }
  }

  // A predicate that holds nowhere on the interval counts nothing there.
  lemma {:induction false} CountNone(p: int -> bool, lo: int, hi: int)
    requires forall x | lo <= x < hi :: !p(x)
    ensures CountIf(p, lo, hi) == 0
    decreases hi - lo
  {
    if lo < hi {
      CountNone(p, lo, hi - 1);
    }
  }
}
