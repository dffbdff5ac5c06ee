/** Counting round a cycle of n places, without division, and what that has to do with division. */
module Cycle {
  /** Where place p of an endless cycle over n lies. */
  function Wrap(p: nat, n: nat): (r: nat)
    requires n > 0
    ensures r < n
  {
    if p < n then p else Wrap(p - n, n)
  }

  function Rounds(p: nat, n: nat): nat
    requires n > 0
  {
    if p < n then 0 else 1 + Rounds(p - n, n)
  }

  lemma MulMono(n: nat, a: nat, b: nat)
    ensures a < b ==> n * a + n <= n * b
  {
    assert n * (a + 1) == n * a + n;
  }

  lemma DivModUnique(n: nat, q: nat, r: nat)
    requires r < n
    ensures (n * q + r) / n == q && (n * q + r) % n == r
  {
    var x := n * q + r;
    assert x == n * (x / n) + x % n;
    MulMono(n, x / n, q);
    MulMono(n, q, x / n);
  }

  lemma {:induction false} Splits(p: nat, n: nat)
    requires n > 0
    ensures p == n * Rounds(p, n) + Wrap(p, n)
  {
    if p >= n {
      Splits(p - n, n);
      var q := Rounds(p - n, n);
      assert n * (1 + q) == n + n * q;
    } else {
      assert n * 0 == 0;
    }
  }

  lemma WrapIsMod(p: nat, n: nat)
    requires n > 0
    ensures Wrap(p, n) == p % n && Rounds(p, n) == p / n
  {
    Splits(p, n);
    DivModUnique(n, Rounds(p, n), Wrap(p, n));
  }

  lemma {:induction false} WrapAdd(a: nat, b: nat, n: nat)
    requires n > 0
    ensures Wrap(a + Wrap(b, n), n) == Wrap(a + b, n)
  {
    if b >= n {
      WrapAdd(a, b - n, n);
    }
  }

  /** Two places less than a round apart are different. */
  lemma {:induction false} WrapApart(a: nat, b: nat, n: nat)
    requires n > 0 && a < b < a + n
    ensures Wrap(a, n) != Wrap(b, n)
  {
    if a >= n {
      WrapApart(a - n, b - n, n);
    }
  }

  lemma {:induction false} WrapNext(p: nat, n: nat)
    requires n > 0
    ensures Wrap(p + 1, n) == if Wrap(p, n) + 1 == n then 0 else Wrap(p, n) + 1
    ensures Rounds(p + 1, n) == Rounds(p, n) + if Wrap(p, n) + 1 == n then 1 else 0
  {
    if p >= n {
      WrapNext(p - n, n);
    }
  }

  lemma Ceiling(x: nat, n: nat)
    requires n > 0
    ensures (x + n - 1) / n == Rounds(x, n) + if Wrap(x, n) > 0 then 1 else 0
  {
    Splits(x, n);
    var q, r := Rounds(x, n), Wrap(x, n);
    assert n * (q + 1) == n * q + n;
    if r > 0 { DivModUnique(n, q + 1, r - 1); } else { DivModUnique(n, q, n - 1); }
  }

  lemma MulNext(k: nat, m: nat)
    ensures k * (m + 1) == k * m + k && k * 0 == 0
  {
  }
}
