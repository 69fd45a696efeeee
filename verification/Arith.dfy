/**
 Multiplication and division of naturals by recursion, so that a proof unfolds them only
 where a lemma asks for it. Each is proved equal to the built-in operator.
 */
module Arith {
  function Times(a: nat, b: nat): nat {
    if a == 0 then 0 else Times(a - 1, b) + b
  }

  function Div(a: nat, b: nat): nat
    requires b > 0
  {
    if a < b then 0 else Div(a - b, b) + 1
  }

  function Mod(a: nat, b: nat): nat
    requires b > 0
  {
    if a < b then a else Mod(a - b, b)
  }

  lemma {:induction false} TimesIsProduct(a: nat, b: nat)
    ensures Times(a, b) == a * b
  {
    if a > 0 {
      TimesIsProduct(a - 1, b);
      assert a * b == (a - 1) * b + b;
    }
  }

  lemma {:induction false} TimesAdd(a: nat, c: nat, b: nat)
    ensures Times(a + c, b) == Times(a, b) + Times(c, b)
  {
    if c > 0 {
      TimesAdd(a, c - 1, b);
      assert a + c - 1 == a + (c - 1);
    }
  }

  lemma {:induction false} TimesMono(a: nat, amax: nat, b: nat, bmax: nat)
    requires a <= amax && b <= bmax
    ensures Times(a, b) <= Times(amax, bmax)
    ensures a > 0 ==> b <= Times(a, b)
    decreases amax
  {
    if a > 0 {
      TimesMono(a - 1, amax - 1, b, bmax);
    }
  }

  /** Division with remainder exists ... */
  lemma {:induction false} DivMod(a: nat, b: nat)
    requires b > 0
    ensures a == Times(Div(a, b), b) + Mod(a, b)
    ensures Mod(a, b) < b && Div(a, b) <= a
  {
    if a >= b {
      DivMod(a - b, b);
    }
  }

  /** ... and is unique. */
  lemma {:induction false} DivModUnique(q: nat, b: nat, r: nat)
    requires r < b
    ensures Div(Times(q, b) + r, b) == q && Mod(Times(q, b) + r, b) == r
  {
    if q > 0 {
      DivModUnique(q - 1, b, r);
      assert Times(q, b) + r - b == Times(q - 1, b) + r;
    }
  }

  lemma {:induction false} DivIsQuotient(a: nat, b: nat)
    requires b > 0
    ensures Div(a, b) == a / b && Mod(a, b) == a % b
  {
    DivMod(a, b);
    var q, r := Div(a, b), Mod(a, b);
    TimesIsProduct(q, b);
    EuclidUnique(a, b, q, r);
  }

  lemma EuclidUnique(a: nat, b: nat, q: nat, r: nat)
    requires r < b && a == q * b + r
    ensures a / b == q && a % b == r
  {
    var q1, r1 := a / b, a % b;
    assert a == q1 * b + r1;
    assert (q1 - q) * b == r - r1;
    MultipleBelow(q1 - q, b);
  }

  lemma MultipleBelow(d: int, b: nat)
    ensures 0 - b < d * b < b ==> d == 0
  {
  }
}
