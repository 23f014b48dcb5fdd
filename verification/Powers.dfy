// Powers of two, and the few facts about dividing by them that the allocators need.
module Powers {

  function Pow2(k: nat): (r: nat)
    ensures r >= 1
  {
    if k == 0 then 1 else 2 * Pow2(k - 1)
  }

  lemma {:induction false} Pow2Monotonic(a: nat, b: nat)
    requires a <= b
    ensures Pow2(a) <= Pow2(b)
    ensures a < b ==> 2 * Pow2(a) <= Pow2(b)
    decreases b - a
  {
    if a < b {
      Pow2Monotonic(a + 1, b);
    }
  }

  lemma {:induction false} Pow2Add(a: nat, b: nat)
    ensures Pow2(a + b) == Pow2(a) * Pow2(b)
  {
    if a > 0 {
      Pow2Add(a - 1, b);
      Doubled(Pow2(a - 1), Pow2(b));
    }
  }

  lemma Doubled(x: nat, y: nat)
    ensures 2 * (x * y) == (2 * x) * y
  {
  }

  function Div(p: nat, m: nat): nat
    requires m > 0
  {
    DivNonNegative(p, m);
    p / m
  }

  lemma DivNonNegative(p: nat, m: nat)
    requires m > 0
    ensures p / m >= 0
  {
  }

  // The quotient is the only q with q*m <= p < (q+1)*m.
  lemma DivUnique(p: nat, m: nat, q: int)
    requires m > 0
    ensures q * m <= p < q * m + m <==> Div(p, m) == q
  {
    var r := p / m;
    assert p == r * m + p % m;
    if r < q {
      assert (r + 1) * m <= q * m;
    } else if q < r {
      assert (q + 1) * m <= r * m;
    }
  }

  lemma DivTwice(p: nat, m: nat)
    requires m > 0
    ensures Div(p, 2 * m) == Div(p, m) / 2
  {
    var q := Div(p, m);
    DivUnique(p, m, q);
    var h := q / 2;
    assert (2 * h) * m == h * (2 * m);
    assert (2 * h + 1) * m == h * (2 * m) + m;
    DivUnique(p, 2 * m, h);
  }

  lemma MultipleModulo(q: nat, m: nat)
    requires m > 0
    ensures q * m >= 0 && (q * m) % m == 0
  {
    var p := q * m;
    DivUnique(p, m, q);
    assert p == (p / m) * m + p % m;
  }

  lemma DivExact(p: nat, m: nat)
    requires m > 0 && p % m == 0
    ensures Div(p, m) * m == p
  {
    assert p == (p / m) * m + p % m;
  }

  lemma DivBelow(p: nat, m: nat, b: nat)
    requires m > 0 && p < b * m
    ensures Div(p, m) < b
  {
    DivUnique(p, m, Div(p, m));
  }

  lemma ScaleLess(i: nat, j: nat, k: nat)
    requires i < j
    ensures i * k + k <= j * k
  {
    assert (i + 1) * k <= j * k;
  }
}
