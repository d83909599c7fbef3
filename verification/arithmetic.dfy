/** Facts about multiplication and Euclidean division on non-negative
    operands that the solver does not find unaided. */
module Arithmetic {

  function Abs(x: int): nat {
    if x < 0 then -x else x
  }

  lemma MulLeRight(x: int, y: int, b: int)
    requires x <= y && b >= 0
    ensures x * b <= y * b
  {
    assert y * b - x * b == (y - x) * b;
  }

  /** The quotient is the one multiple that brackets the dividend. */
  lemma DivUnique(a: int, b: int, q: int)
    requires b > 0 && q * b <= a < q * b + b
    ensures a / b == q
  {
    var q' := a / b;
    if q' < q {
      MulLeRight(q' + 1, q, b);
    } else if q' > q {
      MulLeRight(q + 1, q', b);
    }
  }

  lemma MulDiv(d: int, r: int)
    requires r > 0
    ensures (d * r) / r == d
  {
    DivUnique(d * r, r, d);
  }

  lemma DivMono(a1: nat, a2: nat, b: int)
    requires a1 <= a2 && b > 0
    ensures a1 / b <= a2 / b
  {
    var q1, q2 := a1 / b, a2 / b;
    if q1 > q2 {
      MulLeRight(q2 + 1, q1, b);
    }
  }

  lemma DivAntitone(n: nat, d1: int, d2: int)
    requires 0 < d1 <= d2
    ensures n / d2 <= n / d1
  {
    var q := n / d2;
    MulLeRight(d1, d2, q);
    assert q * d1 <= n;
    var m := n / d1;
    if q > m {
      MulLeRight(m + 1, q, d1);
    }
  }

  lemma DivCancel(a: nat, c: int, b: int)
    requires c > 0 && b > 0
    ensures (c * a) / (c * b) == a / b
  {
    var q, r := a / b, a % b;
    assert a == q * b + r;
    assert c * a == q * (c * b) + c * r by {
      assert c * (q * b) == q * (c * b);
    }
    assert 0 <= c * r < c * b by {
      MulLeRight(r + 1, b, c);
    }
    DivUnique(c * a, c * b, q);
  }
}
