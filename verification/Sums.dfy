/** Sums and products over the reals, and Chebyshev's sum inequality. */
module Sums {
  /** Proofs that need only a few laws of the product hide it. */
  function Mul(a: real, b: real): real { a * b }

  function Sum(xs: seq<real>): real {
    if xs == [] then 0.0 else Sum(xs[..|xs| - 1]) + xs[|xs| - 1]
  }

  function Dot(xs: seq<real>, ys: seq<real>): real
    requires |xs| == |ys|
  {
    if xs == [] then 0.0 else Dot(xs[..|xs| - 1], ys[..|ys| - 1]) + Mul(xs[|xs| - 1], ys[|ys| - 1])
  }

  lemma MulSign(u: real, v: real)
    requires (u >= 0.0 && v >= 0.0) || (u <= 0.0 && v <= 0.0)
    ensures Mul(u, v) >= 0.0
    ensures Mul(u, v) > 0.0 <==> u != 0.0 && v != 0.0
  {
    if u < 0.0 { assert u * v == (0.0 - u) * (0.0 - v); }
  }

  lemma MulZero(x: real)
    ensures Mul(x, 0.0) == 0.0 && Mul(0.0, x) == 0.0
  {
  }

  // ---------- one pair against many ----------

  /** Two pairs are ordered alike. */
  predicate Alike(a: real, b: real, x: real, y: real) { (a <= x && b <= y) || (a >= x && b >= y) }

  predicate Differ(a: real, b: real, x: real, y: real) { a != x && b != y }

  ghost predicate AllAlike(xs: seq<real>, ys: seq<real>, x: real, y: real)
    requires |xs| == |ys|
  {
    forall i :: 0 <= i < |xs| ==> Alike(xs[i], ys[i], x, y)
  }

  ghost predicate SomeDiffer(xs: seq<real>, ys: seq<real>, x: real, y: real)
    requires |xs| == |ys|
  {
    exists i :: 0 <= i < |xs| && Differ(xs[i], ys[i], x, y)
  }

  /** The sum of (xi - x) * (yi - y) */
  function Cross(xs: seq<real>, ys: seq<real>, x: real, y: real): real
    requires |xs| == |ys|
    decreases |xs|
  {
    if xs == [] then 0.0
    else Cross(xs[..|xs| - 1], ys[..|ys| - 1], x, y) + Mul(xs[|xs| - 1] - x, ys[|ys| - 1] - y)
  }

  lemma SomeDifferStep(xs: seq<real>, ys: seq<real>, x: real, y: real)
    requires |xs| == |ys| > 0
    ensures var n := |xs| - 1;
            SomeDiffer(xs, ys, x, y) <==> SomeDiffer(xs[..n], ys[..n], x, y) || Differ(xs[n], ys[n], x, y)
  {
    var n := |xs| - 1;
    var xs', ys' := xs[..n], ys[..n];
    if SomeDiffer(xs', ys', x, y) {
      var i :| 0 <= i < n && Differ(xs'[i], ys'[i], x, y);
      assert Differ(xs[i], ys[i], x, y);
    }
    if SomeDiffer(xs, ys, x, y) {
      var i :| 0 <= i < |xs| && Differ(xs[i], ys[i], x, y);
      assert i < n ==> Differ(xs'[i], ys'[i], x, y);
    }
  }

  lemma {:induction false} CrossSign(xs: seq<real>, ys: seq<real>, x: real, y: real)
    requires |xs| == |ys| && AllAlike(xs, ys, x, y)
    ensures Cross(xs, ys, x, y) >= 0.0
    ensures Cross(xs, ys, x, y) > 0.0 <==> SomeDiffer(xs, ys, x, y)
    decreases |xs|
  {
    hide Mul;
    if xs != [] {
      var n := |xs| - 1;
      assert Alike(xs[n], ys[n], x, y);
      CrossSign(xs[..n], ys[..n], x, y);
      MulSign(xs[n] - x, ys[n] - y);
      SomeDifferStep(xs, ys, x, y);
    }
  }

  lemma CrossAlgebra(n: real, s: real, t: real, a: real, b: real, x: real, y: real)
    ensures Mul(n, Mul(x, y)) - Mul(x, t) - Mul(y, s) + Mul(a - x, b - y)
            == Mul(a, b) + Mul(n + 1.0, Mul(x, y)) - Mul(x, t + b) - Mul(y, s + a)
  {
    assert (a - x) * (b - y) == a * b - a * y - x * b + x * y;
    assert (n + 1.0) * (x * y) == n * (x * y) + x * y;
  }

  lemma {:induction false} CrossIs(xs: seq<real>, ys: seq<real>, x: real, y: real)
    requires |xs| == |ys|
    ensures Cross(xs, ys, x, y)
            == Dot(xs, ys) + Mul(|xs| as real, Mul(x, y)) - Mul(x, Sum(ys)) - Mul(y, Sum(xs))
    decreases |xs|
  {
    hide Mul;
    if xs == [] {
      MulZero(x);
      MulZero(y);
      MulZero(Mul(x, y));
    } else {
      var n := |xs| - 1;
      CrossIs(xs[..n], ys[..n], x, y);
      CrossAlgebra(n as real, Sum(xs[..n]), Sum(ys[..n]), xs[n], ys[n], x, y);
    }
  }

  // ---------- Chebyshev ----------

  /** Sorting one sequence sorts the other. */
  ghost predicate SimilarlyOrdered(xs: seq<real>, ys: seq<real>)
    requires |xs| == |ys|
  {
    forall i, j :: 0 <= i < j < |xs| ==> Alike(xs[i], ys[i], xs[j], ys[j])
  }

  /** At some two places both sequences differ. */
  ghost predicate BothDiffer(xs: seq<real>, ys: seq<real>)
    requires |xs| == |ys|
  {
    exists i, j :: 0 <= i < j < |xs| && Differ(xs[i], ys[i], xs[j], ys[j])
  }

  function Margin(xs: seq<real>, ys: seq<real>): real
    requires |xs| == |ys|
  {
    Mul(|xs| as real, Dot(xs, ys)) - Mul(Sum(xs), Sum(ys))
  }

  lemma MarginAlgebra(n: real, s: real, d: real, t: real, x: real, y: real)
    ensures Mul(n + 1.0, d + Mul(x, y)) - Mul(s + x, t + y)
            == Mul(n, d) - Mul(s, t) + (d + Mul(n, Mul(x, y)) - Mul(x, t) - Mul(y, s))
  {
    assert (n + 1.0) * (d + x * y) == n * d + n * (x * y) + d + x * y;
    assert (s + x) * (t + y) == s * t + y * s + x * t + x * y;
  }

  lemma MarginStep(xs: seq<real>, ys: seq<real>)
    requires |xs| == |ys| > 0
    ensures var n := |xs| - 1;
            Margin(xs, ys) == Margin(xs[..n], ys[..n]) + Cross(xs[..n], ys[..n], xs[n], ys[n])
  {
    hide Mul;
    var n := |xs| - 1;
    var xs', ys' := xs[..n], ys[..n];
    CrossIs(xs', ys', xs[n], ys[n]);
    MarginAlgebra(n as real, Sum(xs'), Dot(xs', ys'), Sum(ys'), xs[n], ys[n]);
  }

  lemma BothDifferStep(xs: seq<real>, ys: seq<real>)
    requires |xs| == |ys| > 0
    ensures var n := |xs| - 1;
            BothDiffer(xs, ys) <==> BothDiffer(xs[..n], ys[..n]) || SomeDiffer(xs[..n], ys[..n], xs[n], ys[n])
  {
    var n := |xs| - 1;
    var xs', ys' := xs[..n], ys[..n];
    if BothDiffer(xs', ys') {
      var i, j :| 0 <= i < j < n && Differ(xs'[i], ys'[i], xs'[j], ys'[j]);
      assert Differ(xs[i], ys[i], xs[j], ys[j]);
    }
    if SomeDiffer(xs', ys', xs[n], ys[n]) {
      var i :| 0 <= i < n && Differ(xs'[i], ys'[i], xs[n], ys[n]);
      assert Differ(xs[i], ys[i], xs[n], ys[n]);
    }
    if BothDiffer(xs, ys) {
      var i, j :| 0 <= i < j < |xs| && Differ(xs[i], ys[i], xs[j], ys[j]);
      assert if j < n then Differ(xs'[i], ys'[i], xs'[j], ys'[j]) else Differ(xs'[i], ys'[i], xs[n], ys[n]);
    }
  }

  /** Chebyshev's sum inequality with its case of equality: the margin by which `n` times the sum
      of products exceeds the product of the sums is not negative. */
  lemma {:induction false} Chebyshev(xs: seq<real>, ys: seq<real>)
    requires |xs| == |ys| && SimilarlyOrdered(xs, ys)
    ensures Margin(xs, ys) >= 0.0
    ensures Margin(xs, ys) > 0.0 <==> BothDiffer(xs, ys)
    decreases |xs|
  {
    hide Mul;
    if xs == [] {
      MulZero(0.0);
    } else {
      var n := |xs| - 1;
      Chebyshev(xs[..n], ys[..n]);
      CrossSign(xs[..n], ys[..n], xs[n], ys[n]);
      MarginStep(xs, ys);
      BothDifferStep(xs, ys);
    }
  }

  // ---------- weighted sums and the maximum ----------

  ghost predicate AllBelow(xs: seq<real>, ws: seq<real>, m: real)
    requires |xs| == |ws|
  {
    forall i :: 0 <= i < |xs| ==> xs[i] <= m && ws[i] > 0.0
  }

  predicate Constant(xs: seq<real>, m: real) { forall i :: 0 <= i < |xs| ==> xs[i] == m }

  lemma BelowAlgebra(m: real, t: real, w: real, x: real)
    requires x <= m && w > 0.0
    ensures Mul(m, t + w) - Mul(x, w) >= Mul(m, t)
    ensures Mul(m, t + w) - Mul(x, w) == Mul(m, t) <==> x == m
  {
    MulSign(m - x, w);
    assert (m - x) * w == m * w - x * w && m * (t + w) == m * t + m * w;
  }

  /** A weighted sum of numbers up to `m` is up to `m` times the weights. */
  lemma {:induction false} DotBelow(xs: seq<real>, ws: seq<real>, m: real)
    requires |xs| == |ws| && AllBelow(xs, ws, m)
    ensures Dot(xs, ws) <= Mul(m, Sum(ws))
    ensures Dot(xs, ws) == Mul(m, Sum(ws)) <==> Constant(xs, m)
    decreases |xs|
  {
    hide Mul;
    if xs == [] {
      MulZero(m);
    } else {
      var n := |xs| - 1;
      DotBelow(xs[..n], ws[..n], m);
      BelowAlgebra(m, Sum(ws[..n]), ws[n], xs[n]);
      assert Constant(xs, m) <==> Constant(xs[..n], m) && xs[n] == m;
    }
  }

  lemma {:induction false} SumOfPositive(ws: seq<real>)
    requires forall i :: 0 <= i < |ws| ==> ws[i] > 0.0
    ensures Sum(ws) >= 0.0 && (ws != [] ==> Sum(ws) > 0.0)
    decreases |ws|
  {
    if ws != [] { SumOfPositive(ws[..|ws| - 1]); }
  }

  // ---------- quotients ----------

  lemma Difference(x: real, y: real, z: real)
    requires z > 0.0
    ensures x <= y <==> Mul(x, z) <= Mul(y, z)
    ensures x < y <==> Mul(x, z) < Mul(y, z)
  {
    assert (y - x) * z == y * z - x * z && (x - y) * z == x * z - y * z;
    if x <= y { MulSign(y - x, z); } else { MulSign(x - y, z); }
  }

  lemma DivideAndMultiply(a: real, b: real)
    requires b != 0.0
    ensures a == Mul(a / b, b)
  {
  }

  lemma Associate(x: real, b: real, d: real)
    ensures Mul(Mul(x, b), d) == Mul(x, Mul(b, d)) == Mul(d, Mul(x, b)) && Mul(b, d) == Mul(d, b)
  {
  }

  lemma Quotients(a: real, b: real, c: real, d: real)
    requires b > 0.0 && d > 0.0
    ensures a / b <= c / d <==> Mul(a, d) <= Mul(b, c)
    ensures a / b < c / d <==> Mul(a, d) < Mul(b, c)
  {
    hide Mul;
    DivideAndMultiply(a, b);
    DivideAndMultiply(c, d);
    MulSign(b, d);
    Difference(a / b, c / d, Mul(b, d));
    Associate(a / b, b, d);
    Associate(c / d, d, b);
  }

  lemma QuotientBelow(a: real, b: real, m: real)
    requires b > 0.0
    ensures a / b <= m <==> a <= Mul(m, b)
    ensures a / b == m <==> a == Mul(m, b)
  {
    hide Mul;
    DivideAndMultiply(a, b);
    Difference(a / b, m, b);
  }
}
