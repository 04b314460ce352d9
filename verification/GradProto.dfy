/**
 The shared vocabulary of every NetSum component: machine integers, slot keys,
 parsed gradient packets, and the wrapping per-lane sums that all three
 aggregation points compute.
 */
module GradProto {

  const MAX_CHUNK_LEN: nat := 64
  const MAX_WORKERS: nat := 256
  const TWO16: int := 0x1_0000
  const TWO31: int := 0x8000_0000
  const TWO32: int := 0x1_0000_0000

  type u16 = x: int | 0 <= x < TWO16
  type u32 = x: int | 0 <= x < TWO32
  type i32 = x: int | -TWO31 <= x < TWO31

  datatype Option<+T> = None | Some(value: T)

  /** (job_id, round, chunk_id). */
  datatype Key = Key(job: u32, round: u32, chunk: u32)

  /** A gradient packet whose payload covers its `chunk_len`, so `chunk_len == |values|`. */
  datatype Packet = Packet(key: Key, worker: u16, numWorkers: u16, values: seq<i32>)

  /** The checks every aggregation point makes before it looks at a slot. */
  predicate Bounded(p: Packet) {
    |p.values| <= MAX_CHUNK_LEN && p.worker < MAX_WORKERS
  }

  predicate ValidFanIn(n: int) {
    1 <= n <= MAX_WORKERS
  }

  // ---------------------------------------------------------------- int32_t

  /** Two's-complement truncation to `int32_t`. */
  function Wrap(x: int): i32 {
    (x + TWO31) % TWO32 - TWO31
  }

  lemma WrapAdd(a: int, b: int)
    ensures Wrap(Wrap(a) + b) == Wrap(a + b)
  {
  }

  lemma WrapInRange(a: int)
    requires -TWO31 <= a < TWO31
    ensures Wrap(a) == a
  {
  }

  function Turns(k: int): int {
    k * TWO32
  }

  /** Equal modulo 2^32. */
  ghost predicate Congruent(a: int, b: int) {
    exists k: int :: a - b == Turns(k)
  }

  lemma WrapCongruent(x: int)
    ensures Congruent(Wrap(x), x)
  {
    assert Wrap(x) - x == Turns(-((x + TWO31) / TWO32));
  }

  lemma CongruentSelf(a: int)
    ensures Congruent(a, a)
  {
    assert a - a == Turns(0);
  }

  lemma CongruentSum(a: int, b: int, c: int, d: int)
    requires Congruent(a, b) && Congruent(c, d)
    ensures Congruent(a + c, b + d)
  {
    var k: int :| a - b == Turns(k);
    var l: int :| c - d == Turns(l);
    assert (a + c) - (b + d) == Turns(k + l);
  }

  // ------------------------------------------------------------------ lanes

  /** Lane `i` of a packet; lanes past `chunk_len` contribute nothing. */
  function Lane(p: Packet, i: nat): i32 {
    if i < |p.values| then p.values[i] else 0
  }

  /** The mathematical sum of lane `i` over a sequence of packets. */
  ghost function LaneSum(ps: seq<Packet>, i: nat): int {
    if ps == [] then 0 else LaneSum(ps[..|ps| - 1], i) + Lane(ps[|ps| - 1], i)
  }

  lemma LaneSumSnoc(ps: seq<Packet>, p: Packet, i: nat)
    ensures LaneSum(ps + [p], i) == LaneSum(ps, i) + Lane(p, i)
  {
    assert (ps + [p])[..|ps|] == ps;
  }

  lemma {:induction false} LaneSumAppend(a: seq<Packet>, b: seq<Packet>, i: nat)
    ensures LaneSum(a + b, i) == LaneSum(a, i) + LaneSum(b, i)
  {
    if b == [] {
      assert a + b == a;
    } else {
      LaneSumAppend(a, b[..|b| - 1], i);
      assert (a + b)[..|a + b| - 1] == a + b[..|b| - 1];
    }
  }

  lemma LaneSumRemove(ps: seq<Packet>, j: nat, i: nat)
    requires j < |ps|
    ensures LaneSum(ps, i) == LaneSum(ps[..j] + ps[j + 1..], i) + Lane(ps[j], i)
  {
    assert ps == (ps[..j] + [ps[j]]) + ps[j + 1..];
    LaneSumAppend(ps[..j] + [ps[j]], ps[j + 1..], i);
    LaneSumSnoc(ps[..j], ps[j], i);
    LaneSumAppend(ps[..j], ps[j + 1..], i);
  }

  lemma MultisetRemove(ps: seq<Packet>, j: nat)
    requires j < |ps|
    ensures multiset(ps[..j] + ps[j + 1..]) == multiset(ps) - multiset{ps[j]}
  {
    assert ps == ps[..j] + [ps[j]] + ps[j + 1..];
  }

  /** Summation does not depend on arrival order. */
  lemma {:induction false} LaneSumPermutation(a: seq<Packet>, b: seq<Packet>, i: nat)
    requires multiset(a) == multiset(b)
    ensures LaneSum(a, i) == LaneSum(b, i)
    decreases |a|
  {
    if a == [] {
      assert |multiset(b)| == 0;
    } else {
      var last := |a| - 1;
      assert a[last] in multiset(b);
      var j :| 0 <= j < |b| && b[j] == a[last];
      MultisetRemove(a, last);
      MultisetRemove(b, j);
      LaneSumPermutation(a[..last] + a[last + 1..], b[..j] + b[j + 1..], i);
      LaneSumRemove(a, last, i);
      LaneSumRemove(b, j, i);
    }
  }

  /** `slot->sum[i] += values[i]` over the lanes the packet carries. */
  function Accumulate(sum: seq<i32>, p: Packet): (r: seq<i32>)
    ensures |r| == |sum|
  {
    seq(|sum|, i requires 0 <= i < |sum| => Wrap(sum[i] + Lane(p, i)))
  }

  /** The accumulate loop, lane by lane in place of the old sum. */
  method AccumulateLanes(sum: seq<i32>, p: Packet) returns (r: seq<i32>)
    requires |p.values| <= |sum|
    ensures r == Accumulate(sum, p)
  {
    r := sum;
    var i := 0;
    while i < |p.values|
      invariant 0 <= i <= |p.values| && |r| == |sum|
      invariant forall k :: 0 <= k < |sum| ==> r[k] == if k < i then Wrap(sum[k] as int + p.values[k]) else sum[k]
    {
      r := r[i := Wrap(r[i] as int + p.values[i])];
      i := i + 1;
    }
    forall k | i <= k < |sum| ensures r[k] == Wrap(sum[k] + Lane(p, k)) {
      WrapInRange(sum[k]);
    }
  }

  /** The accumulator holds the wrapped sum of exactly these packets. */
  ghost predicate HoldsSum(sum: seq<i32>, ps: seq<Packet>) {
    |sum| == MAX_CHUNK_LEN && forall i :: 0 <= i < |sum| ==> sum[i] == Wrap(LaneSum(ps, i))
  }

  lemma AccumulateHolds(sum: seq<i32>, ps: seq<Packet>, p: Packet)
    requires HoldsSum(sum, ps)
    ensures HoldsSum(Accumulate(sum, p), ps + [p])
  {
    forall i | 0 <= i < |sum| ensures Accumulate(sum, p)[i] == Wrap(LaneSum(ps + [p], i)) {
      LaneSumSnoc(ps, p, i);
      WrapAdd(LaneSum(ps, i), Lane(p, i));
    }
  }

  /** A fresh slot's accumulator and `seen_worker` bytes, as memset leaves them. */
  function ZeroSum(): seq<i32> {
    seq(MAX_CHUNK_LEN, i => 0)
  }

  function NoneSeen(): seq<bool> {
    seq(MAX_WORKERS, i => false)
  }

  /** `seen[w]` is set for exactly the workers of these packets. */
  ghost predicate SeenExactly(seen: seq<bool>, ps: seq<Packet>) {
    |seen| == MAX_WORKERS && forall w :: 0 <= w < |seen| ==> (seen[w] <==> Contributed(ps, w))
  }

  lemma ContributedSnoc(ps: seq<Packet>, p: Packet, w: int)
    ensures Contributed(ps + [p], w) <==> Contributed(ps, w) || w == p.worker
  {
    if Contributed(ps, w) {
      var i :| 0 <= i < |ps| && ps[i].worker == w;
      assert (ps + [p])[i].worker == w;
    }
    assert (ps + [p])[|ps|] == p;
  }

  lemma SeenSnoc(seen: seq<bool>, ps: seq<Packet>, p: Packet)
    requires SeenExactly(seen, ps) && DistinctWorkers(ps)
    requires p.worker < MAX_WORKERS && !seen[p.worker]
    ensures SeenExactly(seen[p.worker := true], ps + [p]) && DistinctWorkers(ps + [p])
  {
    forall w | 0 <= w < |seen| ensures seen[p.worker := true][w] <==> Contributed(ps + [p], w) {
      ContributedSnoc(ps, p, w);
    }
  }

  // ---------------------------------------------------------- distinct workers

  ghost predicate DistinctWorkers(ps: seq<Packet>) {
    forall i, j :: 0 <= i < j < |ps| ==> ps[i].worker != ps[j].worker
  }

  ghost predicate Contributed(ps: seq<Packet>, w: int) {
    exists i :: 0 <= i < |ps| && ps[i].worker == w
  }

  ghost function WorkerSet(ps: seq<Packet>): set<int> {
    set i | 0 <= i < |ps| :: ps[i].worker
  }

  lemma {:induction false} WorkerSetSize(ps: seq<Packet>)
    requires DistinctWorkers(ps)
    ensures |WorkerSet(ps)| == |ps|
  {
    if ps != [] {
      var front, last := ps[..|ps| - 1], ps[|ps| - 1];
      WorkerSetSize(front);
      assert forall i :: 0 <= i < |front| ==> front[i] == ps[i];
      assert WorkerSet(ps) == WorkerSet(front) + {last.worker};
      assert last.worker !in WorkerSet(front);
    }
  }

  ghost function Below(n: nat): (r: set<int>)
    ensures forall w :: w in r <==> 0 <= w < n
    ensures |r| == n
  {
    if n == 0 then {} else Below(n - 1) + {n - 1}
  }

  lemma SubsetSize(a: set<int>, b: set<int>)
    requires a <= b
    ensures |a| <= |b|
    ensures |a| == |b| ==> a == b
  {
    assert b == a + (b - a);
  }

  lemma SmallerSet<T>(a: set<T>, b: set<T>, x: T)
    requires a <= b && x in b && x !in a
    ensures |a| < |b|
  {
    assert b == a + (b - a) && x in b - a;
  }

  /** Pigeonhole: at most `n` distinct workers below `n`, and `n` of them are all of them. */
  lemma WorkersBelow(ps: seq<Packet>, n: nat)
    requires DistinctWorkers(ps)
    requires forall i :: 0 <= i < |ps| ==> ps[i].worker < n
    ensures |ps| <= n
    ensures |ps| == n ==> forall w :: 0 <= w < n ==> Contributed(ps, w)
  {
    WorkerSetSize(ps);
    assert WorkerSet(ps) <= Below(n);
    SubsetSize(WorkerSet(ps), Below(n));
    if |ps| == n {
      forall w | 0 <= w < n ensures Contributed(ps, w) {
        assert w in WorkerSet(ps);
      }
    }
  }

  // ------------------------------------------------------------- same contents

  /** How often packet `x` occurs in a sequence. */
  ghost function Times(ps: seq<Packet>, x: Packet): nat {
    multiset(ps)[x]
  }

  lemma TimesSnoc(ps: seq<Packet>, p: Packet, x: Packet)
    ensures Times(ps + [p], x) == Times(ps, x) + if x == p then 1 else 0
  {
  }

  lemma {:induction false} NoDuplicatesMultiplicity(ps: seq<Packet>, x: Packet)
    requires DistinctWorkers(ps)
    ensures multiset(ps)[x] == if x in ps then 1 else 0
  {
    if ps != [] {
      var front, last := ps[..|ps| - 1], ps[|ps| - 1];
      NoDuplicatesMultiplicity(front, x);
      assert ps == front + [last];
      assert forall i :: 0 <= i < |front| ==> front[i] == ps[i] && front[i].worker != last.worker;
    }
  }

  lemma SameElementsSameMultiset(a: seq<Packet>, b: seq<Packet>)
    requires DistinctWorkers(a) && DistinctWorkers(b)
    requires forall x :: x in a <==> x in b
    ensures multiset(a) == multiset(b)
  {
    forall x: Packet ensures multiset(a)[x] == multiset(b)[x] {
      NoDuplicatesMultiplicity(a, x);
      NoDuplicatesMultiplicity(b, x);
    }
  }
}
