/**
 The store derives days remaining with `int(a / b)`: a floating-point quotient
 cast back to an integer, which truncates toward zero. Dafny's `/` on `int` is
 Euclidean, so the truncating quotient is written out here and characterised
 independently of its definition.
 */
module Division {

  /** The bracket that pins down the truncated quotient: q carries the sign
      of a, q * b lies between 0 and a, and the next multiple of b away
      from zero passes a. */
  ghost predicate IsTruncQuotient(a: int, b: int, q: int)
    requires b > 0
  {
    if a >= 0 then 0 <= q && q * b <= a < q * b + b
    else q <= 0 && q * b - b < a <= q * b
  }

  /** The quotient a / b rounded toward zero, for a positive divisor. */
  function TruncDiv(a: int, b: int): (q: int)
    requires b > 0
    ensures IsTruncQuotient(a, b, q)
  {
    if a >= 0 then a / b else -((-a) / b)
  }

  lemma MulMonotone(x: int, y: int, b: int)
    requires b > 0 && x < y
    ensures x * b + b <= y * b
  {
    assert y * b - x * b == (y - x) * b;
    assert (y - x) * b >= b by {
      assert y - x >= 1;
    }
  }

  /** Exactly one integer satisfies the bracket, so TruncDiv is the
      truncating quotient and nothing else is. */
  lemma TruncDivUnique(a: int, b: int, q: int)
    requires b > 0
    ensures IsTruncQuotient(a, b, q) <==> q == TruncDiv(a, b)
  {
    var t := TruncDiv(a, b);
    if IsTruncQuotient(a, b, q) && q != t {
      if q < t {
        MulMonotone(q, t, b);
      } else {
        MulMonotone(t, q, b);
      }
    }
  }

  /** Truncation is symmetric about zero: negating the dividend negates the
      quotient. Euclidean and floor division do not have this property. */
  lemma TruncDivNegate(a: int, b: int)
    requires b > 0
    ensures TruncDiv(-a, b) == -TruncDiv(a, b)
  {
  }
}
