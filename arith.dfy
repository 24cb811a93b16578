/** Facts about multiplication and division by a positive page size that
    the solver does not find on its own. */
module Arith {

  lemma MulMonotone(x: int, y: int, size: nat)
    requires x <= y
    ensures x * size <= y * size
  {
    assert y * size == x * size + (y - x) * size;
  }

  lemma MulNonNegative(x: int, size: nat)
    requires x >= 0
    ensures x * size >= 0
  {
  }

  lemma DivExact(q: int, size: nat)
    requires size > 0 && q >= 0
    ensures (q * size) / size == q
  {
    DivWithRemainder(q, size, 0);
  }

  lemma DivWithRemainder(q: int, size: nat, r: nat)
    requires size > 0 && q >= 0 && r < size
    ensures (q * size + r) / size == q
  {
    var n := q * size + r;
    var d := n / size;
    var m := n % size;
    assert n == d * size + m;
    if d < q {
      MulMonotoneStrict(d, q, size);
      assert false;
    } else if d > q {
      MulMonotoneStrict(q, d, size);
      assert false;
    }
  }

  lemma MulMonotoneStrict(x: int, y: int, size: nat)
    requires x < y && size > 0
    ensures x * size + size <= y * size
  {
    var k := y - x;
    assert y * size == x * size + k * size;
    assert k * size == (k - 1) * size + size;
    MulNonNegative(k - 1, size);
  }
}
