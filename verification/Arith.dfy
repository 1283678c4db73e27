/** Small facts about products and floors that the solver needs spelled out. */
module Arith {

  lemma MulLe(a: nat, b: nat, c: nat)
    requires a <= b
    ensures a * c <= b * c
  {
  }

  lemma Distribute(a: int, b: int, c: int)
    ensures (a + b) * c == a * c + b * c
    ensures (a - b) * c == a * c - b * c
    ensures c * (a + b) == c * a + c * b
    ensures c * (a - b) == c * a - c * b
  {
  }

  lemma Floor(a: int, b: int)
    requires b > 0
    ensures a / b * b <= a < (a / b) * b + b
  {
  }

  lemma FloorBounds(a: int, b: int)
    requires b > 0
    ensures a / b * b <= a < (a / b + 1) * b
  {
    Distribute(a / b, 1, b);
  }

  /** The floor is the greatest quotient: `q * b <= a` exactly when `q <= a / b`. */
  lemma FloorIsGreatest(q: int, a: int, b: int)
    requires b > 0
    ensures q * b <= a <==> q <= a / b
  {
    Floor(a, b);
    if q <= a / b {
      MulLeInt(q, a / b, b);
    } else {
      MulLeInt(a / b + 1, q, b);
    }
  }

  lemma MulLeInt(a: int, b: int, c: nat)
    requires a <= b
    ensures a * c <= b * c
  {
  }

  lemma MulCancel(a: int, b: int, c: int)
    requires c > 0 && a * c <= b * c
    ensures a <= b
  {
  }

  lemma FloorMono(a: int, a': int, b: int)
    requires b > 0 && a <= a'
    ensures a / b <= a' / b
  {
    FloorIsGreatest(a / b, a', b);
    Floor(a, b);
  }

  lemma Assoc(a: int, b: int, c: int)
    ensures a * b * c == a * (b * c) == (a * c) * b == b * (a * c)
  {
  }

  /** `a/s <= a'/s'`, cross-multiplied. */
  predicate RatioLe(a: int, s: int, a': int, s': int) { a * s' <= a' * s }

  /** `a/s <= a'/s'` and `a'/s' <= a''/s''` give `a/s <= a''/s''`. */
  lemma RatioTransitive(a: nat, s: nat, a': nat, s': nat, a'': nat, s'': nat)
    requires s' > 0 && RatioLe(a, s, a', s') && RatioLe(a', s', a'', s'')
    ensures RatioLe(a, s, a'', s'')
  {
    MulLe(a * s', a' * s, s'');
    MulLe(a' * s'', a'' * s', s);
    Assoc(a, s', s'');
    Assoc(a', s, s'');
    Assoc(a'', s', s);
    assert (a * s'') * s' <= (a'' * s) * s';
    MulCancel(a * s'', a'' * s, s');
  }

  /** `x` is at most `num/den` of `u`. */
  predicate Scaled(x: nat, u: nat, num: nat, den: nat) { x * den <= u * num }

  lemma AddScaled(x: nat, y: nat, u: nat, v: nat, num: nat, den: nat)
    requires Scaled(x, u, num, den) && Scaled(y, v, num, den)
    ensures Scaled(x + y, u + v, num, den)
  {
    Distribute(x, y, den);
    Distribute(u, v, num);
  }

  /** A part `x` of `a + 1` in the proportion `p / (p + extra)` stays below `a + 1`. */
  lemma ProperPart(x: nat, p: nat, extra: nat, a: nat)
    requires extra > 0 && x * (p + extra) <= p * (a + 1)
    ensures x <= a
  {
    if a + 1 <= x {
      MulLe(a + 1, x, p + extra);
      Distribute(p, extra, a + 1);
    }
  }

  /** `x * num / den`, rounded down: multiply first, then divide. */
  function MulDiv(x: nat, num: nat, den: nat): nat
    requires den > 0
  {
    x * num / den
  }

  lemma MulDivAtMost(x: nat, num: nat, den: nat)
    requires 0 < den && num <= den
    ensures MulDiv(x, num, den) <= x
  {
    MulLe(num, den, x);
    Floor(x * num, den);
    MulCancel(MulDiv(x, num, den), x, den);
  }

  lemma MulDivMono(x: nat, num: nat, num': nat, den: nat)
    requires 0 < den && num <= num'
    ensures MulDiv(x, num, den) <= MulDiv(x, num', den)
  {
    MulLe(num, num', x);
    FloorMono(x * num, x * num', den);
  }
}
