/** The constant, the window and the rounding helpers of csrc/instant_tensor/common.hpp, on unbounded naturals. */
module RoundMath {

  const MAX_PREFETCH_CHUNKS: nat := 1024

  /** How many chunks may be in flight. */
  function Window(ioDepth: nat): nat {
    if ioDepth < MAX_PREFETCH_CHUNKS then ioDepth else MAX_PREFETCH_CHUNKS
  }

  function Max(a: int, b: int): int {
    if a < b then b else a
  }

  function DivCeil(x: nat, y: nat): nat
    requires y > 0
  {
    (x + y - 1) / y
  }

  function RoundUp(x: nat, y: nat): nat
    requires y > 0
  {
    DivCeil(x, y) * y
  }

  function RoundDown(x: nat, y: nat): nat
    requires y > 0
  {
    x / y * y
  }

  /** RoundUp(x, y) is the only multiple of y in [x, x + y). */
  lemma RoundUpIs(x: nat, y: nat)
    requires y > 0
    ensures x <= RoundUp(x, y) < x + y
    ensures RoundUp(x, y) % y == 0
  {
    var q := x + y - 1;
    assert q == q / y * y + q % y;
    MultipleMod(q / y, y);
  }

  /** RoundDown(x, y) is the only multiple of y in (x - y, x]. */
  lemma RoundDownIs(x: nat, y: nat)
    requires y > 0
    ensures RoundDown(x, y) <= x < RoundDown(x, y) + y
    ensures x == RoundDown(x, y) + x % y
    ensures RoundDown(x, y) % y == 0
  {
    MultipleMod(x / y, y);
  }

  lemma MultipleMod(k: nat, y: nat)
    requires y > 0
    ensures k * y % y == 0
  {
    if k > 0 {
      MultipleMod(k - 1, y);
      assert k * y == (k - 1) * y + y;
      ModAdd((k - 1) * y, y);
    }
  }

  lemma ModAdd(x: nat, y: nat)
    requires y > 0
    ensures (x + y) % y == x % y && (x + y) / y == x / y + 1
  {
    var q, r := x / y, x % y;
    assert x + y == (q + 1) * y + r;
    DivModUnique(x + y, y, q + 1, r);
  }

  lemma DivModUnique(x: nat, y: nat, q: nat, r: nat)
    requires y > 0 && x == q * y + r && r < y
    ensures x / y == q && x % y == r
  {
    var q', r' := x / y, x % y;
    assert x == q' * y + r';
    if q' < q {
      MulLe(q' + 1, q, y);
      assert false;
    }
    if q < q' {
      MulLe(q + 1, q', y);
      assert false;
    }
  }

  lemma MulLe(a: nat, b: nat, y: nat)
    requires a <= b
    ensures a * y <= b * y
  {
  }

  /** The sum of two multiples is a multiple. */
  lemma ModSum(a: nat, b: nat, y: nat)
    requires y > 0 && a % y == 0 && b % y == 0
    ensures (a + b) % y == 0
  {
    assert a == a / y * y && b == b / y * y;
    assert a + b == (a / y + b / y) * y;
    MultipleMod(a / y + b / y, y);
  }

  /** Rounding up commutes with adding a multiple. */
  lemma RoundUpShift(m: nat, x: nat, y: nat)
    requires y > 0 && m % y == 0
    ensures RoundUp(m + x, y) == m + RoundUp(x, y)
  {
    var k, c := m / y, DivCeil(x, y);
    var q := x + y - 1;
    assert m == k * y;
    assert m + x + y - 1 == (k + c) * y + q % y by {
      assert q == c * y + q % y;
      assert (k + c) * y == k * y + c * y;
    }
    DivModUnique(m + x + y - 1, y, k + c, q % y);
    assert (k + c) * y == k * y + c * y;
  }

  lemma RoundUpMono(a: nat, b: nat, y: nat)
    requires y > 0 && a <= b
    ensures RoundUp(a, y) <= RoundUp(b, y)
  {
    DivMono(a + y - 1, b + y - 1, y);
    MulLe(DivCeil(a, y), DivCeil(b, y), y);
  }

  lemma DivMono(a: nat, b: nat, y: nat)
    requires y > 0 && a <= b
    ensures a / y <= b / y
  {
    var q, q' := a / y, b / y;
    if q' < q {
      MulLe(q' + 1, q, y);
      assert false;
    }
  }

  lemma RoundUpMultiple(m: nat, y: nat)
    requires y > 0 && m % y == 0
    ensures RoundUp(m, y) == m
  {
    RoundUpShift(m, 0, y);
    DivModUnique(y - 1, y, 0, y - 1);
  }

  lemma RoundDownMultiple(m: nat, y: nat)
    requires y > 0 && m % y == 0
    ensures RoundDown(m, y) == m
  {
  }

  /** A multiple of a multiple is a multiple. */
  lemma ModTrans(a: nat, b: nat, c: nat)
    requires b > 0 && c > 0 && a % b == 0 && b % c == 0
    ensures a % c == 0
  {
    var k, l := a / b, b / c;
    assert a == k * (l * c) == (k * l) * c;
    MultipleMod(k * l, c);
  }
}
