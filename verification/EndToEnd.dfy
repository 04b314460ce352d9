/**
 Aggregation preserves meaning: a round completed through the userspace
 aggregator and the agg-mode parameter server carries the same sum as the same
 round completed at a noagg parameter server, whatever was lost, reordered,
 duplicated, retransmitted or reaped on the way.
 */
module EndToEnd {
  import opened GradProto
  import opened Conservation
  import A = Aggregator
  import P = ParamServer
  import R = Rounds
  import W = WireFormat

  /**
   A well-formed stream: the packets of one key agree on fan-in and length, stay
   below their fan-in, and a worker's retransmissions are identical.
   */
  ghost predicate WellFormed(ps: seq<Packet>) {
    && (forall i :: 0 <= i < |ps| ==> A.Admissible(ps[i]) && ps[i].worker < ps[i].numWorkers)
    && (forall i, j :: 0 <= i < |ps| && 0 <= j < |ps| && ps[i].key == ps[j].key ==>
          ps[i].numWorkers == ps[j].numWorkers && (ps[i].worker == ps[j].worker ==> ps[i] == ps[j]))
  }

  ghost predicate Among(ps: seq<Packet>, all: seq<Packet>) {
    forall i :: 0 <= i < |ps| ==> ps[i] in all
  }

  /** All of a round's workers, once each. */
  ghost predicate FullRound(ps: seq<Packet>, key: Key) {
    && ps != [] && DistinctWorkers(ps) && |ps| == ps[0].numWorkers
    && forall i :: 0 <= i < |ps| ==> ps[i].key == key
  }

  lemma SameRoundIncluded(all: seq<Packet>, a: seq<Packet>, b: seq<Packet>, key: Key, x: Packet)
    requires WellFormed(all) && Among(a, all) && Among(b, all) && FullRound(a, key) && FullRound(b, key)
    requires x in a
    ensures x in b
  {
    var n := b[0].numWorkers;
    assert a[0] in all && b[0] in all && x in all;
    assert forall i :: 0 <= i < |b| ==> b[i] in all && b[i].worker < n;
    WorkersBelow(b, n);
    assert Contributed(b, x.worker);
    var j :| 0 <= j < |b| && b[j].worker == x.worker;
    assert b[j] in all && b[j] == x;
  }

  /** Two full rounds of one key are the same packets, so they add up to the same lanes. */
  lemma SameRoundSameSum(all: seq<Packet>, a: seq<Packet>, b: seq<Packet>, key: Key, i: nat)
    requires WellFormed(all) && Among(a, all) && Among(b, all) && FullRound(a, key) && FullRound(b, key)
    ensures LaneSum(a, i) == LaneSum(b, i)
  {
    forall x ensures x in a <==> x in b {
      if x in a { SameRoundIncluded(all, a, b, key, x); }
      if x in b { SameRoundIncluded(all, b, a, key, x); }
    }
    SameElementsSameMultiset(a, b);
    LaneSumPermutation(a, b, i);
  }

  // ------------------------------------------------- where summed packets come from

  /** The packets an event stream delivers. */
  ghost function Arrivals(events: seq<A.Event>): seq<Packet> {
    if events == [] then []
    else
      var e := events[|events| - 1];
      Arrivals(events[..|events| - 1]) + if e.Arrival? then [e.p] else []
  }

  lemma ProcessAccepts(a: A.Config, st: A.State, p: Packet, now: int)
    requires A.Shaped(st.cells, st.jobs)
    ensures var st' := A.Process(a, st, p, now).1; st'.accepted == st.accepted || st'.accepted == st.accepted + [p]
  {
    if A.Admissible(p) {
      SlotHandedOut(a, st, p.key);
    }
  }

  lemma {:induction false} ReapAccepts(a: A.Config, st: A.State, now: int, ttl: int, i: nat)
    requires A.Shaped(st.cells, st.jobs) && i <= |st.cells|
    ensures A.Reap(a, st, now, ttl, i).accepted == st.accepted
    decreases |st.cells| - i
  {
    if i < |st.cells| {
      if A.Expired(st.cells[i], now, ttl) {
        ReapAccepts(a, A.FreeSlot(a, st.(reaped := st.reaped + [st.cells[i]]), i), now, ttl, i + 1);
      } else {
        ReapAccepts(a, st, now, ttl, i + 1);
      }
    }
  }

  lemma {:induction false} AcceptedArrived(a: A.Config, slots: nat, jobs: nat, events: seq<A.Event>)
    requires 0 < slots && 0 < jobs
    ensures Among(A.Run(a, slots, jobs, events).accepted, Arrivals(events))
  {
    if events != [] {
      var front := events[..|events| - 1];
      AcceptedArrived(a, slots, jobs, front);
      var st := A.Run(a, slots, jobs, front);
      match events[|events| - 1]
      case Arrival(p, now) => ProcessAccepts(a, st, p, now);
      case Sweep(now, ttl) => ReapAccepts(a, st, now, ttl, 0);
    }
  }

  lemma {:induction false} EmittedCounted(es: seq<A.Emission>, k: nat, x: Packet)
    requires k < |es| && x in es[k].contribs
    ensures TimesOut(es, x) > 0
  {
    if k < |es| - 1 {
      EmittedCounted(es[..|es| - 1], k, x);
    } else {
      assert x in multiset(es[k].contribs);
    }
  }

  /** Every emission is a full round of packets that arrived. */
  lemma EmissionIsFullRound(a: A.Config, slots: nat, jobs: nat, events: seq<A.Event>, k: nat)
    requires 0 < slots < TWO32 && 0 < jobs
    requires k < |A.Run(a, slots, jobs, events).emitted|
    ensures var e := A.Run(a, slots, jobs, events).emitted[k];
            EmissionOk(e) && FullRound(e.contribs, e.key) && Among(e.contribs, Arrivals(events))
  {
    var st := A.Run(a, slots, jobs, events);
    var e := st.emitted[k];
    RunKeepsInv(a, slots, jobs, events);
    AcceptedArrived(a, slots, jobs, events);
    forall i | 0 <= i < |e.contribs| ensures e.contribs[i] in Arrivals(events) {
      var x := e.contribs[i];
      EmittedCounted(st.emitted, k, x);
      assert Times(st.accepted, x) == TimesIn(st.cells, x) + TimesOut(st.emitted, x) + TimesIn(st.reaped, x);
      assert x in multiset(st.accepted);
      assert x in st.accepted;
    }
  }

  // ------------------------------------------------------------ the parameter server

  ghost predicate SummedFrom(st: P.State, inputs: seq<Packet>) {
    && (forall i :: 0 <= i < |st.cells| ==> Among(st.cells[i].contribs, inputs))
    && (forall e :: 0 <= e < |st.completions| ==> Among(st.completions[e].contribs, inputs))
  }

  lemma StepSummedFrom(hash: Key -> nat, aggMode: bool, st: P.State, p: Packet, inputs: seq<Packet>)
    requires P.Shaped(st.cells) && SummedFrom(st, inputs)
    ensures SummedFrom(P.Step(hash, aggMode, st, p), inputs + [p])
  {
    var r := P.FindOrCreate(hash, st.cells, p.key);
    assert SummedFrom(st, inputs + [p]);
    assert P.Claimed(p.key).contribs == [];
    assert SummedFrom(st.(cells := r.1), inputs + [p]);
    if Bounded(p) && r.0.Some? {
      assert Among(P.Deliver(aggMode, r.1[r.0.value], p).contribs, inputs + [p]);
    }
  }

  lemma {:induction false} RunSummedFrom(hash: Key -> nat, aggMode: bool, capacity: nat, inputs: seq<Packet>)
    requires 0 < capacity
    ensures SummedFrom(P.Run(hash, aggMode, capacity, inputs), inputs)
  {
    if inputs != [] {
      var front := inputs[..|inputs| - 1];
      RunSummedFrom(hash, aggMode, capacity, front);
      StepSummedFrom(hash, aggMode, P.Run(hash, aggMode, capacity, front), inputs[|inputs| - 1], front);
      assert front + [inputs[|inputs| - 1]] == inputs;
    }
  }

  // ------------------------------------------------------------------ the theorem

  /** The packet the aggregator sends for an emission: worker 0 of 1. */
  function Downstream(e: A.Emission): Packet {
    Packet(e.key, 0, 1, e.values)
  }

  /** What reaches the parameter server is some emitted packets, in any order and number. */
  ghost predicate Forwarded(inputs: seq<Packet>, emitted: seq<A.Emission>) {
    forall i :: 0 <= i < |inputs| ==> exists k :: 0 <= k < |emitted| && inputs[i] == Downstream(emitted[k])
  }

  lemma EmittedLane(e: A.Emission, i: nat)
    requires EmissionOk(e)
    ensures Lane(Downstream(e), i) == Wrap(LaneSum(e.contribs, i))
  {
    if i >= |e.values| {
      LaneBeyond(e.contribs, i);
    }
  }

  /** A round completed in agg mode holds the sum of a full round of raw packets. */
  lemma AggCompletionIsFullRound(
    a: A.Config, slots: nat, jobs: nat, events: seq<A.Event>,
    hash: Key -> nat, capacity: nat, forwarded: seq<Packet>, c: nat)
    returns (round: seq<Packet>)
    requires 0 < slots < TWO32 && 0 < jobs && 0 < capacity
    requires Forwarded(forwarded, A.Run(a, slots, jobs, events).emitted)
    requires c < |P.Run(hash, true, capacity, forwarded).completions|
    ensures var done := P.Run(hash, true, capacity, forwarded).completions[c];
            FullRound(round, done.key) && Among(round, Arrivals(events)) && HoldsSum(done.sum, round)
  {
    var ps := P.Run(hash, true, capacity, forwarded);
    var done := ps.completions[c];
    P.RunKeepsInv(hash, true, capacity, forwarded);
    RunSummedFrom(hash, true, capacity, forwarded);
    var q := done.contribs[0];
    assert P.CompletionOk(true, done) && done.contribs == [q];
    assert Among(done.contribs, forwarded) && done.contribs[0] in forwarded;
    var i :| 0 <= i < |forwarded| && forwarded[i] == q;
    var emitted := A.Run(a, slots, jobs, events).emitted;
    var k :| 0 <= k < |emitted| && forwarded[i] == Downstream(emitted[k]);
    EmissionIsFullRound(a, slots, jobs, events, k);
    round := emitted[k].contribs;
    forall l | 0 <= l < |done.sum| ensures done.sum[l] == Wrap(LaneSum(round, l)) {
      EmittedLane(emitted[k], l);
      LaneSumSnoc([], q, l);
      assert [] + [q] == [q];
      WrapInRange(Lane(q, l));
    }
  }

  /** A round completed in noagg mode is a full round of raw packets. */
  lemma RawCompletionIsFullRound(hash: Key -> nat, capacity: nat, raw: seq<Packet>, c: nat)
    requires 0 < capacity
    requires c < |P.Run(hash, false, capacity, raw).completions|
    ensures var done := P.Run(hash, false, capacity, raw).completions[c];
            FullRound(done.contribs, done.key) && Among(done.contribs, raw) && HoldsSum(done.sum, done.contribs)
  {
    P.RunKeepsInv(hash, false, capacity, raw);
    RunSummedFrom(hash, false, capacity, raw);
    assert P.CompletionOk(false, P.Run(hash, false, capacity, raw).completions[c]);
  }

  lemma AmongEither(ps: seq<Packet>, a: seq<Packet>, b: seq<Packet>)
    requires Among(ps, a) || Among(ps, b)
    ensures Among(ps, a + b)
  {
  }

  /**
   For any well-formed traffic: whatever part of it reached the aggregator in
   whatever order and however often, with whatever sweeps in between; whatever part
   of the emissions reached the agg-mode server; and whatever part of the traffic
   reached a noagg server: a key both servers complete has the same sum in all
   lanes, and the agg-mode server completes it once.
   */
  lemma AggregationPreservesMeaning(
    a: A.Config, slots: nat, jobs: nat, events: seq<A.Event>,
    hash: Key -> nat, capacity: nat, forwarded: seq<Packet>,
    rawHash: Key -> nat, rawCapacity: nat, raw: seq<Packet>, c: nat, r: nat)
    requires 0 < slots < TWO32 && 0 < jobs && 0 < capacity && 0 < rawCapacity
    requires WellFormed(Arrivals(events) + raw)
    requires Forwarded(forwarded, A.Run(a, slots, jobs, events).emitted)
    requires c < |P.Run(hash, true, capacity, forwarded).completions|
    requires r < |P.Run(rawHash, false, rawCapacity, raw).completions|
    requires P.Run(hash, true, capacity, forwarded).completions[c].key == P.Run(rawHash, false, rawCapacity, raw).completions[r].key
    ensures P.Run(hash, true, capacity, forwarded).completions[c].sum == P.Run(rawHash, false, rawCapacity, raw).completions[r].sum
    ensures forall c' :: 0 <= c' < |P.Run(hash, true, capacity, forwarded).completions| && c' != c ==>
              P.Run(hash, true, capacity, forwarded).completions[c'].key != P.Run(hash, true, capacity, forwarded).completions[c].key
  {
    var agg, noagg := P.Run(hash, true, capacity, forwarded).completions[c], P.Run(rawHash, false, rawCapacity, raw).completions[r];
    var round := AggCompletionIsFullRound(a, slots, jobs, events, hash, capacity, forwarded, c);
    RawCompletionIsFullRound(rawHash, rawCapacity, raw, r);
    var all := Arrivals(events) + raw;
    AmongEither(round, Arrivals(events), raw);
    AmongEither(noagg.contribs, Arrivals(events), raw);
    forall i | 0 <= i < MAX_CHUNK_LEN ensures agg.sum[i] == noagg.sum[i] {
      SameRoundSameSum(all, round, noagg.contribs, agg.key, i);
    }
    P.RunKeepsInv(hash, true, capacity, forwarded);
  }

  // --------------------------------------------------- what the emitted header means

  /**
   An emission on the wire: every parser reads worker 0 of 1 of its key, with its sums
   as values; and it is a round of its own at a server in either mode.
   */
  lemma EmissionClosesItsSlot(
    a: A.Config, slots: nat, jobs: nat, events: seq<A.Event>, k: nat, trailing: seq<W.byte>,
    hash: Key -> nat, aggMode: bool, capacity: nat)
    requires 0 < slots < TWO32 && 0 < jobs && 0 < capacity
    requires k < |A.Run(a, slots, jobs, events).emitted|
    ensures var e := A.Run(a, slots, jobs, events).emitted[k];
            && R.Standalone(Downstream(e))
            && W.AggParse(W.Encode(Downstream(e)) + trailing) == W.Accept(Packet(e.key, 0, 1, e.values))
            && W.XdpParse(W.Encode(Downstream(e)) + trailing) == W.Accept(Packet(e.key, 0, 1, e.values))
            && var log := P.Run(hash, aggMode, capacity, [Downstream(e)]).completions;
               && |log| == 1 && log[0].key == e.key && |log[0].sum| == MAX_CHUNK_LEN
               && forall i :: 0 <= i < MAX_CHUNK_LEN ==> log[0].sum[i] == if i < |e.values| then e.values[i] else 0
  {
    var e := A.Run(a, slots, jobs, events).emitted[k];
    RunKeepsInv(a, slots, jobs, events);
    assert EmissionOk(e);
    assert |e.contribs[0].values| == |e.values|;
    W.RoundTrip(Downstream(e), trailing);
    R.StandaloneCloses(hash, aggMode, capacity, Downstream(e));
  }

  lemma ForwardedStandalone(a: A.Config, slots: nat, jobs: nat, events: seq<A.Event>, forwarded: seq<Packet>, i: nat)
    requires 0 < slots < TWO32 && 0 < jobs && i < |forwarded|
    requires Forwarded(forwarded, A.Run(a, slots, jobs, events).emitted)
    ensures R.Standalone(forwarded[i])
  {
    var emitted := A.Run(a, slots, jobs, events).emitted;
    var k :| 0 <= k < |emitted| && forwarded[i] == Downstream(emitted[k]);
    RunKeepsInv(a, slots, jobs, events);
    assert EmissionOk(emitted[k]);
    assert |emitted[k].contribs[0].values| == |emitted[k].values|;
  }

  // ----------------------------------------------------------- both servers complete

  /** A round completed exactly once in both logs, with the same sum. */
  ghost predicate SameRoundTwice(x: seq<P.Completion>, y: seq<P.Completion>, key: Key) {
    && R.LoggedOnce(x, key) && R.LoggedOnce(y, key)
    && forall c, r :: 0 <= c < |x| && 0 <= r < |y| && x[c].key == key && y[r].key == key ==> x[c].sum == y[r].sum
  }

  /** A noagg server that heard all workers of a well-formed round completes it. */
  lemma RawCompletes(hash: Key -> nat, capacity: nat, raw: seq<Packet>, key: Key, n: nat)
    requires 0 < capacity && 1 <= n && WellFormed(raw) && R.AllSent(raw, key, n)
    requires R.HasSlot(P.Run(hash, false, capacity, raw).cells, key)
    ensures R.LoggedOnce(P.Run(hash, false, capacity, raw).completions, key)
  {
    var _ := R.FullRoundCompletes(hash, capacity, raw, key, n);
  }

  /**
   And the two modes do complete: when one emission of a round reaches the agg-mode
   server and packets of all its workers reach the noagg server, in any order and
   number, and the key has a slot at both, each completes it once, with the same sum.
   */
  lemma BothComplete(
    a: A.Config, slots: nat, jobs: nat, events: seq<A.Event>,
    hash: Key -> nat, capacity: nat, forwarded: seq<Packet>,
    rawHash: Key -> nat, rawCapacity: nat, raw: seq<Packet>, q: Packet, n: nat)
    requires 0 < slots < TWO32 && 0 < jobs && 0 < capacity && 0 < rawCapacity && 1 <= n
    requires WellFormed(Arrivals(events) + raw)
    requires Forwarded(forwarded, A.Run(a, slots, jobs, events).emitted)
    requires q in forwarded && R.HasSlot(P.Run(hash, true, capacity, forwarded).cells, q.key)
    requires R.AllSent(raw, q.key, n) && R.HasSlot(P.Run(rawHash, false, rawCapacity, raw).cells, q.key)
    ensures SameRoundTwice(P.Run(hash, true, capacity, forwarded).completions,
                           P.Run(rawHash, false, rawCapacity, raw).completions, q.key)
  {
    var x, y := P.Run(hash, true, capacity, forwarded).completions, P.Run(rawHash, false, rawCapacity, raw).completions;
    var i :| 0 <= i < |forwarded| && forwarded[i] == q;
    ForwardedStandalone(a, slots, jobs, events, forwarded, i);
    R.FirstPacketCompletes(hash, capacity, forwarded, q);
    WellFormedBack(Arrivals(events), raw);
    RawCompletes(rawHash, rawCapacity, raw, q.key, n);
    forall c, r | 0 <= c < |x| && 0 <= r < |y| && x[c].key == q.key && y[r].key == q.key ensures x[c].sum == y[r].sum {
      AggregationPreservesMeaning(a, slots, jobs, events, hash, capacity, forwarded, rawHash, rawCapacity, raw, c, r);
    }
  }

  lemma WellFormedBack(ps: seq<Packet>, more: seq<Packet>)
    requires WellFormed(ps + more)
    ensures WellFormed(more)
  {
    assert forall i :: 0 <= i < |more| ==> (ps + more)[|ps| + i] == more[i];
  }
}
