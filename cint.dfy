/**
 * C integer arithmetic that differs from Dafny's: the `/` operator on `int`
 * truncates toward zero, whereas Dafny's `/` is Euclidean.
 */
module CInt {

  function Abs(x: int): nat {
    if x < 0 then -x else x
  }

  /**
   * C's `a / b` on signed integers (C99 6.5.5): the quotient truncated toward
   * zero, so the remainder `a - q * b` is smaller than the divisor in
   * magnitude and is zero or has the sign of the dividend.
   */
  function Div(a: int, b: int): (q: int)
    requires b != 0
    ensures Abs(a - q * b) < Abs(b)
    ensures a - q * b == 0 || (a - q * b > 0) == (a > 0)
    ensures Abs(q) <= Abs(a)
  {
    var m := Abs(a) / Abs(b);
    TruncatedRemainder(a, b);
    if (a < 0) == (b < 0) then m else -m
  }

  lemma TruncatedRemainder(a: int, b: int)
    requires b != 0
    ensures var m := Abs(a) / Abs(b);
            var q := if (a < 0) == (b < 0) then m else -m;
            a - q * b == (if a < 0 then -(Abs(a) % Abs(b)) else Abs(a) % Abs(b)) &&
            Abs(q) <= Abs(a)
  {
    var n, d := Abs(a), Abs(b);
    var m, r := n / d, n % d;
    assert n == m * d + r;
    MulMonotone(m, d);
    if a >= 0 && b > 0 {
      assert a - m * b == r;
    } else if a >= 0 {
      assert (-m) * b == m * d;
    } else if b > 0 {
      assert (-m) * b == -(m * d);
    } else {
      assert m * b == -(m * d);
    }
  }

  lemma MulAbs(k: int, b: int)
    ensures Abs(k * b) == Abs(k) * Abs(b)
    ensures (k * b > 0) == ((k > 0 && b > 0) || (k < 0 && b < 0))
  {
    if k < 0 && b < 0 {
      assert k * b == (-k) * (-b);
    } else if k < 0 {
      assert k * b == -((-k) * b);
    } else if b < 0 {
      assert k * b == -(k * (-b));
    }
  }

  lemma MulMonotone(m: nat, n: nat)
    requires n >= 1
    ensures m * n >= m
  {
    assert m * n == m * (n - 1) + m;
  }

  /** The two properties of `Div` determine the quotient: there is no other. */
  lemma DivUnique(a: int, b: int, q: int)
    requires b != 0
    requires Abs(a - q * b) < Abs(b)
    requires a - q * b == 0 || (a - q * b > 0) == (a > 0)
    ensures q == Div(a, b)
  {
    var p := Div(a, b);
    // Both remainders lie on the same side of zero and are smaller than |b|,
    // so they differ by less than |b|; yet they differ by (p - q) * b.
    SameSideClose(a, a - q * b, a - p * b, Abs(b));
    if p != q {
      MultipleDistance(a, b, p, q);
    }
  }

  lemma SameSideClose(a: int, r: int, s: int, d: int)
    requires Abs(r) < d && Abs(s) < d
    requires r == 0 || (r > 0) == (a > 0)
    requires s == 0 || (s > 0) == (a > 0)
    ensures Abs(r - s) < d
  {
  }

  lemma MultipleDistance(a: int, b: int, p: int, q: int)
    requires b != 0 && p != q
    ensures Abs((a - q * b) - (a - p * b)) >= Abs(b)
  {
    var k := p - q;
    assert (a - q * b) - (a - p * b) == k * b;
    MulAbs(k, b);
    assert Abs(k) * Abs(b) == Abs(b) * Abs(k);
    MulMonotone(Abs(b), Abs(k));
  }
}
