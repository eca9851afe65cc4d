/** Facts about multiplication and division that the solver needs spelled out. */
module Numbers {

  lemma MulMonotone(x: int, y: int, k: int)
    requires x <= y && k >= 0
    ensures x * k <= y * k
  {
  }

  lemma MulCancel(x: int, y: int, k: int)
    requires x * k <= y * k && k > 0
    ensures x <= y
  {
    if x > y {
      MulMonotone(y + 1, x, k);
    }
  }

  lemma Distribute(x: int, y: int, k: int)
    ensures (x + y) * k == x * k + y * k
  {
  }

  lemma QuotientBounds(c: int, b: int, q: int, r: int)
    requires c >= 0 && b > 0 && 0 <= r < b && c == q * b + r
    ensures 0 <= q && (b > 1 ==> q <= c) && (b > 1 && c > 0 ==> q < c)
  {
    if q < 0 {
      MulMonotone(q, -1, b);
    } else if q > 0 && b > 1 {
      MulMonotone(2, b, q);
    }
  }

  lemma DivMod(c: int, b: int)
    requires c >= 0 && b > 0
    ensures 0 <= c / b && 0 <= c % b < b && c == (c / b) * b + c % b
    ensures b > 1 ==> c / b <= c && (c > 0 ==> c / b < c)
  {
    QuotientBounds(c, b, c / b, c % b);
  }

  /** Floor and ceiling are the only multiples this close. */
  lemma QuotientUnique(q: int, p: int, den: int, low: int)
    requires den > 0 && low <= q * den < low + den && low <= p * den < low + den
    ensures q == p
  {
    if q < p {
      MulMonotone(q + 1, p, den);
    } else if p < q {
      MulMonotone(p + 1, q, den);
    }
  }
}
