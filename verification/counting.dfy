/** Counting the draws of a uniform random number that satisfy a predicate,
    so that a probability is a count over the draw's range. */
module Counting {

  /** How many draws in `[lo, hi)` satisfy `p`. */
  function Count(lo: int, hi: int, p: int -> bool): (n: nat)
    ensures n <= if lo < hi then hi - lo else 0
    decreases hi - lo
  {
    if lo >= hi then 0 else (if p(lo) then 1 else 0) + Count(lo + 1, hi, p)
  }

  /** When `p` holds exactly on `[a, b)` within `[lo, hi)`, it holds for as
      many draws as the two intervals share. */
  lemma {:induction false} CountInterval(lo: int, hi: int, a: int, b: int, p: int -> bool)
    requires lo <= a <= b <= hi
    requires forall d :: lo <= d < hi ==> (p(d) <==> a <= d < b)
    ensures Count(lo, hi, p) == b - a
    decreases hi - lo
  {
    if lo < hi {
      if lo == a && a < b {
        CountInterval(lo + 1, hi, a + 1, b, p);
      } else if lo == a {
        CountInterval(lo + 1, hi, a + 1, b + 1, p);
        assert Count(lo + 1, hi, p) == 0;
      } else {
        CountInterval(lo + 1, hi, a, b, p);
      }
    }
  }

  /** A predicate that never holds counts zero. */
  lemma {:induction false} CountNone(lo: int, hi: int, p: int -> bool)
    requires forall d :: lo <= d < hi ==> !p(d)
    ensures Count(lo, hi, p) == 0
    decreases hi - lo
  {
    if lo < hi {
      CountNone(lo + 1, hi, p);
    }
  }

  /** Two predicates that agree on `[lo, hi)` count the same there. */
  lemma {:induction false} CountSame(lo: int, hi: int, p: int -> bool, q: int -> bool)
    requires forall d :: lo <= d < hi ==> p(d) == q(d)
    ensures Count(lo, hi, p) == Count(lo, hi, q)
    decreases hi - lo
  {
    if lo < hi {
      CountSame(lo + 1, hi, p, q);
    }
  }
}
