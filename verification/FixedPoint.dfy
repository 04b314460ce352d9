/**
 Q16.16 quantisation: when the configuration-time fit check holds, wrapping
 32-bit accumulation is exact, and decoding the sum loses less than one unit in
 the last place per contribution. Doubles are modelled as reals; 65536 is
 1 << NETSUM_Q_FRAC_BITS.
 */
module FixedPoint {
  import opened GradProto

  /** C's conversion from floating point to integer: toward zero. */
  function Truncate(x: real): int {
    if x >= 0.0 then x.Floor else -((-x).Floor)
  }

  /** netsum_to_fixed, before the value is known to fit an int32_t. */
  function ToFixed(v: real): int {
    Truncate(v * 65536.0)
  }

  function ToDouble(fixed: int): real {
    fixed as real / 65536.0
  }

  /** netsum_sum_fits_i32. */
  predicate SumFits(numWorkers: int, maxAbs: real) {
    var maxFixedSum := numWorkers as real * maxAbs * 65536.0;
    maxFixedSum < 2147483647.0 && -maxFixedSum > -2147483648.0
  }

  predicate Within(vs: seq<real>, maxAbs: real) {
    forall i :: 0 <= i < |vs| ==> -maxAbs <= vs[i] <= maxAbs
  }

  ghost function RealSum(vs: seq<real>): real {
    if vs == [] then 0.0 else RealSum(vs[..|vs| - 1]) + vs[|vs| - 1]
  }

  ghost function FixedSum(vs: seq<real>): int {
    if vs == [] then 0 else FixedSum(vs[..|vs| - 1]) + ToFixed(vs[|vs| - 1])
  }

  /** The accumulator after adding the quantised values one by one. */
  function Accumulated(vs: seq<real>): i32 {
    if vs == [] then 0 else Wrap(Accumulated(vs[..|vs| - 1]) as int + ToFixed(vs[|vs| - 1]))
  }

  lemma TruncateError(x: real)
    ensures -1.0 < Truncate(x) as real - x < 1.0
    ensures x >= 0.0 ==> 0.0 <= Truncate(x) as real <= x
    ensures x <= 0.0 ==> x <= Truncate(x) as real <= 0.0
  {
  }

  lemma QuantisedWithin(v: real, maxAbs: real)
    requires -maxAbs <= v <= maxAbs
    ensures -(maxAbs * 65536.0) <= ToFixed(v) as real <= maxAbs * 65536.0
  {
    TruncateError(v * 65536.0);
  }

  /** `b` added up `k` times. */
  ghost function Repeated(k: nat, b: real): real {
    if k == 0 then 0.0 else Repeated(k - 1, b) + b
  }

  lemma {:induction false} RepeatedIsProduct(k: nat, b: real)
    ensures Repeated(k, b) == k as real * b
  {
    if k > 0 {
      RepeatedIsProduct(k - 1, b);
      assert k as real * b == (k - 1) as real * b + b;
    }
  }

  lemma {:induction false} RepeatedGrows(k: nat, n: nat, b: real)
    requires k <= n && 0.0 <= b
    ensures Repeated(k, b) <= Repeated(n, b)
  {
    if k < n {
      RepeatedGrows(k, n - 1, b);
    }
  }

  /** Sums of quantised values stay within the number of values times the magnitude. */
  lemma {:induction false} FixedSumWithin(vs: seq<real>, maxAbs: real)
    requires Within(vs, maxAbs)
    ensures -Repeated(|vs|, maxAbs) * 65536.0 <= FixedSum(vs) as real <= Repeated(|vs|, maxAbs) * 65536.0
  {
    if vs != [] {
      FixedSumWithin(vs[..|vs| - 1], maxAbs);
      QuantisedWithin(vs[|vs| - 1], maxAbs);
    }
  }

  lemma FitBound(k: nat, n: nat, maxAbs: real)
    requires SumFits(n, maxAbs) && 0.0 <= maxAbs && k <= n
    ensures Repeated(k, maxAbs) * 65536.0 < 2147483647.0
  {
    RepeatedGrows(k, n, maxAbs);
    RepeatedIsProduct(n, maxAbs);
  }

  /**
   If the fit check holds for `n` workers of magnitude at most `maxAbs`, then any
   at most `n` such values, in any order, quantise and add up inside int32_t, so
   the wrapping accumulator holds the exact sum at every step.
   */
  lemma {:induction false} AccumulationExact(vs: seq<real>, n: nat, maxAbs: real)
    requires SumFits(n, maxAbs) && Within(vs, maxAbs) && |vs| <= n
    ensures -TWO31 <= FixedSum(vs) < TWO31
    ensures Accumulated(vs) == FixedSum(vs)
    ensures forall i :: 0 <= i < |vs| ==> -TWO31 <= ToFixed(vs[i]) < TWO31
  {
    if vs != [] {
      AccumulationExact(vs[..|vs| - 1], n, maxAbs);
      assert -maxAbs <= vs[0] <= maxAbs;
      FixedSumWithin(vs, maxAbs);
      FitBound(|vs|, n, maxAbs);
      WrapInRange(FixedSum(vs));
      forall i | 0 <= i < |vs| ensures -TWO31 <= ToFixed(vs[i]) < TWO31 {
        FitBound(1, n, maxAbs);
        QuantisedWithin(vs[i], maxAbs);
      }
    }
  }

  /** `n` workers that all send `v`. */
  function Copies(n: nat, v: real): (vs: seq<real>)
    ensures |vs| == n
  {
    seq(n, i => v)
  }

  lemma {:induction false} SumOfCopies(n: nat, v: real)
    ensures FixedSum(Copies(n, v)) == n * ToFixed(v)
  {
    if n > 0 {
      SumOfCopies(n - 1, v);
      assert Copies(n, v)[..n - 1] == Copies(n - 1, v);
      assert n * ToFixed(v) == (n - 1) * ToFixed(v) + ToFixed(v);
    }
  }

  lemma ScaledProduct(n: nat, m: nat)
    ensures n as real * (m as real / 65536.0) * 65536.0 == (n * m) as real
  {
    var v := m as real / 65536.0;
    assert v * 65536.0 == m as real;
    assert n as real * v * 65536.0 == n as real * (v * 65536.0) == n as real * m as real == (n * m) as real;
  }

  /**
   The fit check is no stricter than it must be: for a magnitude that Q16.16 represents,
   it accepts exactly when `n` workers at that magnitude add up to less than INT32_MAX.
   */
  lemma FitsIffWorstCaseFits(n: nat, m: nat)
    ensures SumFits(n, m as real / 65536.0) <==> FixedSum(Copies(n, m as real / 65536.0)) < 0x7fff_ffff
  {
    var v := m as real / 65536.0;
    ScaledProduct(n, m);
    SumOfCopies(n, v);
    assert v * 65536.0 == m as real;
    assert ToFixed(v) == m;
  }

  /** Each contribution loses less than one unit in the last place. */
  lemma {:induction false} QuantisationError(vs: seq<real>)
    ensures vs != [] ==> -(|vs| as real) < FixedSum(vs) as real - RealSum(vs) * 65536.0 < |vs| as real
    ensures vs == [] ==> FixedSum(vs) == 0 && RealSum(vs) == 0.0
  {
    if vs != [] {
      var front, v := vs[..|vs| - 1], vs[|vs| - 1];
      QuantisationError(front);
      TruncateError(v * 65536.0);
      assert RealSum(vs) * 65536.0 == RealSum(front) * 65536.0 + v * 65536.0;
    }
  }

  /** The decoded total is within n / 65536 of the real total, strictly. */
  lemma DecodedTotal(vs: seq<real>, n: nat, maxAbs: real)
    requires SumFits(n, maxAbs) && Within(vs, maxAbs) && 1 <= |vs| <= n
    ensures -(|vs| as real / 65536.0) < ToDouble(Accumulated(vs)) - RealSum(vs) < |vs| as real / 65536.0
  {
    AccumulationExact(vs, n, maxAbs);
    QuantisationError(vs);
  }

  // ------------------------------------------------------ what the packets carry

  /** Lane `i` of the k-th packet carries the quantised k-th gradient. */
  ghost predicate Carries(ps: seq<Packet>, i: nat, vs: seq<real>) {
    |ps| == |vs| && forall k :: 0 <= k < |ps| ==> Lane(ps[k], i) == ToFixed(vs[k])
  }

  lemma {:induction false} CarriedSum(ps: seq<Packet>, i: nat, vs: seq<real>)
    requires Carries(ps, i, vs)
    ensures LaneSum(ps, i) == FixedSum(vs)
  {
    if ps != [] {
      CarriedSum(ps[..|ps| - 1], i, vs[..|vs| - 1]);
    }
  }

  /** End to end on one lane: what a slot holds decodes to the gradients' real sum, up to n / 65536. */
  lemma SlotDecodes(sum: seq<i32>, ps: seq<Packet>, i: nat, vs: seq<real>, n: nat, maxAbs: real)
    requires HoldsSum(sum, ps) && i < MAX_CHUNK_LEN && Carries(ps, i, vs)
    requires SumFits(n, maxAbs) && Within(vs, maxAbs) && 1 <= |vs| <= n
    ensures sum[i] == FixedSum(vs)
    ensures -(|vs| as real / 65536.0) < ToDouble(sum[i]) - RealSum(vs) < |vs| as real / 65536.0
  {
    CarriedSum(ps, i, vs);
    AccumulationExact(vs, n, maxAbs);
    WrapInRange(FixedSum(vs));
    DecodedTotal(vs, n, maxAbs);
  }
}
