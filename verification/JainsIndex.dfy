/**
 Jain's fairness index of the shares a quota leaves each job, and how it moves
 along the quota sweep.
 */
module JainsIndex {

  function Min(a: nat, b: nat): nat {
    if a < b then a else b
  }

  /** The documented settle value; quota 0 is unlimited. */
  function Share(demand: nat, quota: nat): nat {
    if quota == 0 then demand else Min(demand, quota)
  }

  // ------------------------------------------------------------------ the index

  function Sum(xs: seq<nat>): nat {
    if xs == [] then 0 else Sum(xs[..|xs| - 1]) + xs[|xs| - 1]
  }

  function SumSquares(xs: seq<nat>): nat {
    if xs == [] then 0 else SumSquares(xs[..|xs| - 1]) + xs[|xs| - 1] * xs[|xs| - 1]
  }

  /** (sum x)^2 / (n * sum x^2), with the script's values for no shares and for all-zero shares. */
  function Index(xs: seq<nat>): real {
    if xs == [] then 0.0
    else if SumSquares(xs) == 0 then 1.0
    else (Sum(xs) * Sum(xs)) as real / (|xs| * SumSquares(xs)) as real
  }

  predicate AllEqual(xs: seq<nat>) {
    forall i, j :: 0 <= i < |xs| && 0 <= j < |xs| ==> xs[i] == xs[j]
  }

  /** Sum of squared distances to `y`. */
  ghost function Spread(xs: seq<nat>, y: int): int {
    if xs == [] then 0
    else var d := xs[|xs| - 1] - y; Spread(xs[..|xs| - 1], y) + d * d
  }

  lemma {:induction false} SpreadExpands(xs: seq<nat>, y: int)
    ensures Spread(xs, y) == SumSquares(xs) - 2 * y * Sum(xs) + |xs| * y * y
  {
    if xs != [] {
      var front, x := xs[..|xs| - 1], xs[|xs| - 1];
      SpreadExpands(front, y);
      SquareExpands(x, y);
      CollectTerms(SumSquares(front), Sum(front), |front|, x, y);
    }
  }

  lemma {:induction false} SpreadZero(xs: seq<nat>, y: int)
    ensures Spread(xs, y) >= 0
    ensures Spread(xs, y) == 0 <==> forall i :: 0 <= i < |xs| ==> xs[i] == y
  {
    if xs != [] {
      var x := xs[|xs| - 1];
      SpreadZero(xs[..|xs| - 1], y);
      SquareExpands(x, y);
      if Spread(xs, y) == 0 {
        ZeroSquare(x - y);
      }
    }
  }

  lemma SquareExpands(x: int, y: int)
    ensures (x - y) * (x - y) == x * x - 2 * y * x + y * y
    ensures (x - y) * (x - y) >= 0
  {
  }

  lemma ZeroSquare(d: int)
    requires d * d <= 0
    ensures d == 0
  {
  }

  lemma CollectTerms(q: int, s: int, n: int, x: int, y: int)
    ensures q - 2 * y * s + n * y * y + (x * x - 2 * y * x + y * y) == (q + x * x) - 2 * y * (s + x) + (n + 1) * y * y
  {
  }

  /** Cauchy-Schwarz for a list, with its equality case. */
  lemma {:induction false} SquareOfSum(xs: seq<nat>)
    ensures Sum(xs) * Sum(xs) <= |xs| * SumSquares(xs)
    ensures Sum(xs) * Sum(xs) == |xs| * SumSquares(xs) <==> AllEqual(xs)
  {
    if xs != [] {
      var front, y := xs[..|xs| - 1], xs[|xs| - 1];
      var s, q, n := Sum(front), SumSquares(front), |front|;
      SquareOfSum(front);
      SpreadExpands(front, y);
      SpreadZero(front, y);
      CauchyStep(s, q, n, y);
      assert AllEqual(xs) <==> AllEqual(front) && forall i :: 0 <= i < n ==> front[i] == y by {
        if AllEqual(xs) {
          forall i | 0 <= i < n ensures front[i] == y { assert xs[i] == xs[n]; }
          assert AllEqual(front);
        }
      }
      if forall i :: 0 <= i < n ==> front[i] == y {
        assert AllEqual(front);
      }
    }
  }

  lemma CauchyStep(s: int, q: int, n: int, y: int)
    ensures (n + 1) * (q + y * y) - (s + y) * (s + y) == (n * q - s * s) + (q - 2 * y * s + n * y * y)
  {
  }

  lemma {:induction false} SquaresBelowSquare(xs: seq<nat>)
    ensures SumSquares(xs) <= Sum(xs) * Sum(xs)
    ensures SumSquares(xs) == 0 <==> forall i :: 0 <= i < |xs| ==> xs[i] == 0
  {
    if xs != [] {
      var front, y := xs[..|xs| - 1], xs[|xs| - 1];
      SquaresBelowSquare(front);
      SquareOfTwo(Sum(front), y);
      if SumSquares(xs) == 0 {
        ZeroSquare(y);
      }
    }
  }

  lemma SquareOfTwo(s: nat, y: nat)
    ensures (s + y) * (s + y) >= s * s + y * y >= s * s
  {
    assert (s + y) * (s + y) == s * s + 2 * (s * y) + y * y;
  }

  lemma CancelPositive(x: real, y: real, p: real)
    requires 0.0 < p && x * p <= y * p
    ensures x <= y
  {
  }

  lemma QuotientAtMost(a: int, b: int, c: int, d: int)
    requires 0 < b && 0 < d && a * d <= c * b
    ensures a as real / b as real <= c as real / d as real
  {
    var x, y := a as real / b as real, c as real / d as real;
    var p := b as real * d as real;
    assert x * p == (x * b as real) * d as real == (a * d) as real;
    assert y * p == (y * d as real) * b as real == (c * b) as real;
    CancelPositive(x, y, p);
  }

  lemma ProductPositive(a: nat, b: nat)
    requires 0 < a && 0 < b
    ensures 0 < a * b
  {
  }

  lemma JainAtLeast(xs: seq<nat>)
    requires xs != [] && SumSquares(xs) != 0
    ensures 1.0 / |xs| as real <= Index(xs)
  {
    var s, q, n := Sum(xs), SumSquares(xs), |xs|;
    SquaresBelowSquare(xs);
    ProductPositive(n, q);
    ScaleBoth(q, s * s, n);
    QuotientAtMost(1, n, s * s, n * q);
  }

  lemma QuotientIsOne(a: int, b: int)
    requires 0 < b
    ensures a as real / b as real == 1.0 <==> a == b
  {
  }

  lemma JainAtMost(xs: seq<nat>)
    requires xs != [] && SumSquares(xs) != 0
    ensures Index(xs) <= 1.0
    ensures Index(xs) == 1.0 <==> Sum(xs) * Sum(xs) == |xs| * SumSquares(xs)
  {
    var a, b := Sum(xs) * Sum(xs), |xs| * SumSquares(xs);
    SquareOfSum(xs);
    ProductPositive(|xs|, SumSquares(xs));
    QuotientAtMost(a, b, 1, 1);
    QuotientIsOne(a, b);
  }

  /**
   The index lies between 1/n and 1, and reaches 1 exactly when all shares are equal;
   without any shares it is 0.
   */
  lemma JainBounds(xs: seq<nat>)
    ensures if xs == [] then Index(xs) == 0.0 else 1.0 / |xs| as real <= Index(xs) <= 1.0
    ensures xs != [] ==> (Index(xs) == 1.0 <==> AllEqual(xs))
  {
    SquareOfSum(xs);
    if xs == [] {
    } else if SumSquares(xs) == 0 {
      SquaresBelowSquare(xs);
      QuotientAtMost(1, |xs|, 1, 1);
    } else {
      JainAtLeast(xs);
      JainAtMost(xs);
    }
  }

  lemma ScaleBoth(a: int, b: int, n: nat)
    requires a <= b
    ensures 1 * (n * a) <= b * n
  {
  }

  // ------------------------------------------------------- values it takes

  /** How many jobs got anything. */
  ghost function NonZero(xs: seq<nat>): nat {
    if xs == [] then 0 else NonZero(xs[..|xs| - 1]) + if xs[|xs| - 1] != 0 then 1 else 0
  }

  lemma {:induction false} NoneIsNoSum(xs: seq<nat>)
    ensures NonZero(xs) == 0 <==> Sum(xs) == 0
  {
    if xs != [] {
      NoneIsNoSum(xs[..|xs| - 1]);
    }
  }

  lemma {:induction false} OneOwnerSquares(xs: seq<nat>)
    ensures SumSquares(xs) <= Sum(xs) * Sum(xs)
    ensures Sum(xs) * Sum(xs) == SumSquares(xs) <==> NonZero(xs) <= 1
  {
    if xs != [] {
      var front, y := xs[..|xs| - 1], xs[|xs| - 1];
      OneOwnerSquares(front);
      NoneIsNoSum(front);
      var s := Sum(front);
      assert (s + y) * (s + y) == s * s + 2 * (s * y) + y * y;
      if s != 0 && y != 0 {
        ProductPositive(s, y);
      }
    }
  }

  lemma QuotientsEqual(a: int, b: int, c: int, d: int)
    requires 0 < b && 0 < d
    ensures a as real / b as real == c as real / d as real <==> a * d == c * b
  {
    var x, y := a as real / b as real, c as real / d as real;
    var p := b as real * d as real;
    assert x * p == (x * b as real) * d as real == (a * d) as real;
    assert y * p == (y * d as real) * b as real == (c * b) as real;
    if a * d == c * b {
      CancelPositive(x, y, p);
      CancelPositive(y, x, p);
    }
  }

  lemma SquaresPositive(xs: seq<nat>)
    requires NonZero(xs) >= 1
    ensures 0 < |xs| * SumSquares(xs)
  {
    SquaresBelowSquare(xs);
    NoneIsNoSum(xs);
    if SumSquares(xs) == 0 {
      ZeroSum(xs);
    }
    ProductPositive(|xs|, SumSquares(xs));
  }

  lemma {:induction false} ZeroSum(xs: seq<nat>)
    requires forall i :: 0 <= i < |xs| ==> xs[i] == 0
    ensures Sum(xs) == 0
  {
    if xs != [] {
      ZeroSum(xs[..|xs| - 1]);
    }
  }

  /** The index is at its least, 1/n, exactly when one job alone got everything. */
  lemma LeastIffOneOwner(xs: seq<nat>)
    requires NonZero(xs) >= 1
    ensures Index(xs) == 1.0 / |xs| as real <==> NonZero(xs) == 1
  {
    var s, q, n := Sum(xs), SumSquares(xs), |xs|;
    SquaresPositive(xs);
    OneOwnerSquares(xs);
    QuotientsEqual(s * s, n * q, 1, n);
    assert s * s * n == 1 * (n * q) <==> s * s == q by {
      SameTimes(n, s * s, q);
    }
  }

  lemma SameTimes(n: nat, a: int, b: int)
    requires 0 < n
    ensures a * n == 1 * (n * b) <==> a == b
  {
    if a < b {
      ProductPositive(n, b - a);
    } else if b < a {
      ProductPositive(n, a - b);
    }
    assert n * (b - a) == n * b - a * n;
  }

  /** Every share is `y` or nothing. */
  predicate EqualOrNothing(xs: seq<nat>, y: nat) {
    forall i :: 0 <= i < |xs| ==> xs[i] == 0 || xs[i] == y
  }

  lemma OneMore(k: nat, y: nat)
    ensures (k + 1) * y == k * y + y
  {
  }

  lemma {:induction false} SumsOfEqual(xs: seq<nat>, y: nat)
    requires 1 <= y && EqualOrNothing(xs, y)
    ensures Sum(xs) == NonZero(xs) * y && SumSquares(xs) == NonZero(xs) * (y * y)
  {
    if xs != [] {
      var k := NonZero(xs[..|xs| - 1]);
      SumsOfEqual(xs[..|xs| - 1], y);
      OneMore(k, y);
      OneMore(k, y * y);
    }
  }

  lemma SquareOfProduct(k: int, y: int, n: int)
    ensures (k * y) * (k * y) * n == k * (n * (k * (y * y)))
  {
    var z := y * y;
    assert (k * y) * (k * y) == k * (k * z);
    var w := k * z;
    assert (k * w) * n == k * (n * w);
  }

  /** When k of n jobs share everything equally, the index is k/n. */
  lemma EqualShareOfSome(xs: seq<nat>, y: nat)
    requires 1 <= y && EqualOrNothing(xs, y) && NonZero(xs) >= 1
    ensures Index(xs) == NonZero(xs) as real / |xs| as real
  {
    var k, n := NonZero(xs), |xs|;
    SquaresPositive(xs);
    SumsOfEqual(xs, y);
    QuotientsEqual(Sum(xs) * Sum(xs), n * SumSquares(xs), k, n);
    SquareOfProduct(k, y, n);
  }

  // -------------------------------------------------- the index along the sweep

  function Shares(demands: seq<nat>, quota: nat): (xs: seq<nat>)
    ensures |xs| == |demands|
  {
    seq(|demands|, i requires 0 <= i < |demands| => Share(demands[i], quota))
  }

  /** How many demands exceed the quota. */
  ghost function Capped(demands: seq<nat>, quota: nat): nat {
    if demands == [] then 0
    else Capped(demands[..|demands| - 1], quota) + if demands[|demands| - 1] > quota then 1 else 0
  }

  /** One more unit of quota adds one slot to each capped job, and nothing else. */
  lemma {:induction false} QuotaStep(demands: seq<nat>, quota: nat)
    requires 1 <= quota
    ensures var x, x', m := Shares(demands, quota), Shares(demands, quota + 1), Capped(demands, quota);
            && Sum(x') == Sum(x) + m
            && SumSquares(x') == SumSquares(x) + m * (2 * quota + 1)
            && m * quota <= Sum(x)
            && SumSquares(x) <= quota * Sum(x)
  {
    if demands != [] {
      var front, d := demands[..|demands| - 1], demands[|demands| - 1];
      QuotaStep(front, quota);
      SharesOfLast(demands, quota);
      SharesOfLast(demands, quota + 1);
      ShareStep(Capped(front, quota), quota, Sum(Shares(front, quota)), Share(d, quota));
      SquareStep(quota);
    }
  }

  lemma SharesOfLast(demands: seq<nat>, quota: nat)
    requires demands != []
    ensures var x, front, a := Shares(demands, quota), Shares(demands[..|demands| - 1], quota), Share(demands[|demands| - 1], quota);
            Sum(x) == Sum(front) + a && SumSquares(x) == SumSquares(front) + a * a
  {
    var x := Shares(demands, quota);
    assert x[..|x| - 1] == Shares(demands[..|demands| - 1], quota);
  }

  lemma ShareStep(m: nat, quota: nat, s: nat, a: nat)
    requires a <= quota
    ensures (m + 1) * quota == m * quota + quota
    ensures (m + 1) * (2 * quota + 1) == m * (2 * quota + 1) + (2 * quota + 1)
    ensures quota * (s + a) == quota * s + quota * a && a * a <= quota * a
  {
  }

  lemma SquareStep(quota: nat)
    ensures (quota + 1) * (quota + 1) == quota * quota + (2 * quota + 1)
  {
  }

  lemma GainBound(s: nat, q: nat, m: nat, quota: nat)
    requires m * quota <= s && q <= quota * s
    ensures 2 * (s * q) + m * q <= (s * s) * (2 * quota + 1)
  {
    MulMono(s, q, quota * s);
    Reassociate(quota, s, s);
    Reassociate(s, quota, s);
    MulMono(m, q, quota * s);
    MulMono(s, m * quota, s);
    assert m * (quota * s) == (m * quota) * s == s * (m * quota);
    assert s * q <= quota * (s * s);
    assert (s * s) * (2 * quota + 1) == 2 * (quota * (s * s)) + s * s;
  }

  /** The inequality behind the curve. */
  lemma CappedInequality(s: nat, q: nat, m: nat, quota: nat)
    requires m * quota <= s && q <= quota * s
    ensures ((s + m) * (s + m)) * q <= (s * s) * (q + m * (2 * quota + 1))
  {
    GainBound(s, q, m, quota);
    MulMono(m, 2 * (s * q) + m * q, (s * s) * (2 * quota + 1));
    ExpandGain(s, q, m, quota);
  }

  lemma MulMono(a: nat, b: int, c: int)
    requires b <= c
    ensures a * b <= a * c
  {
  }

  lemma ExpandSquare(s: int, q: int, m: int)
    ensures ((s + m) * (s + m)) * q == (s * s) * q + m * (2 * (s * q) + m * q)
  {
    assert (s + m) * (s + m) == s * s + m * (2 * s + m);
    assert (m * (2 * s + m)) * q == m * ((2 * s + m) * q);
    assert (2 * s + m) * q == 2 * (s * q) + m * q;
  }

  lemma ExpandGain(s: int, q: int, m: int, quota: int)
    ensures ((s + m) * (s + m)) * q == (s * s) * q + m * (2 * (s * q) + m * q)
    ensures (s * s) * (q + m * (2 * quota + 1)) == (s * s) * q + m * ((s * s) * (2 * quota + 1))
  {
    ExpandSquare(s, q, m);
    var ss, g := s * s, 2 * quota + 1;
    assert ss * (q + m * g) == ss * q + ss * (m * g);
    Reassociate(ss, m, g);
  }

  lemma PositiveShares(demands: seq<nat>, quota: nat)
    requires demands != [] && 1 <= quota && forall i :: 0 <= i < |demands| ==> 1 <= demands[i]
    ensures 0 < SumSquares(Shares(demands, quota))
  {
    var xs := Shares(demands, quota);
    SquaresBelowSquare(xs);
    assert xs[0] != 0;
  }

  lemma CurveStep(demands: seq<nat>, quota: nat)
    requires demands != [] && 1 <= quota && forall i :: 0 <= i < |demands| ==> 1 <= demands[i]
    ensures Index(Shares(demands, quota + 1)) <= Index(Shares(demands, quota))
  {
    var x, x', m, n := Shares(demands, quota), Shares(demands, quota + 1), Capped(demands, quota), |demands|;
    var s, q, s', q' := Sum(x), SumSquares(x), Sum(x'), SumSquares(x');
    QuotaStep(demands, quota);
    PositiveShares(demands, quota);
    PositiveShares(demands, quota + 1);
    CappedInequality(s, q, m, quota);
    ProductPositive(n, q);
    ProductPositive(n, q');
    MulMono(n, (s' * s') * q, (s * s) * q');
    Reassociate(n, s' * s', q);
    Reassociate(n, s * s, q');
    QuotientAtMost(s' * s', n * q', s * s, n * q);
  }

  lemma Reassociate(n: int, a: int, b: int)
    ensures n * (a * b) == a * (n * b)
  {
  }

  /** A looser quota is never fairer: the index of the settled shares is non-increasing in the quota. */
  lemma {:induction false} TighterQuotaIsFairer(demands: seq<nat>, quota: nat, looser: nat)
    requires demands != [] && 1 <= quota <= looser && forall i :: 0 <= i < |demands| ==> 1 <= demands[i]
    ensures Index(Shares(demands, looser)) <= Index(Shares(demands, quota))
    decreases looser - quota
  {
    if quota < looser {
      CurveStep(demands, quota);
      TighterQuotaIsFairer(demands, quota + 1, looser);
    }
  }

  ghost function Largest(demands: seq<nat>): (m: nat)
    ensures forall i :: 0 <= i < |demands| ==> demands[i] <= m
  {
    if demands == [] then 0
    else var r := Largest(demands[..|demands| - 1]); if demands[|demands| - 1] > r then demands[|demands| - 1] else r
  }

  /** And no quota is less fair than the unlimited baseline, quota 0. */
  lemma AnyQuotaBeatsUnlimited(demands: seq<nat>, quota: nat)
    requires demands != [] && 1 <= quota && forall i :: 0 <= i < |demands| ==> 1 <= demands[i]
    ensures Index(Shares(demands, 0)) <= Index(Shares(demands, quota))
  {
    var top := Largest(demands) + quota;
    assert Shares(demands, 0) == Shares(demands, top);
    TighterQuotaIsFairer(demands, quota, top);
  }
}
