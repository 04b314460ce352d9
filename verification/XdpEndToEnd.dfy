/**
 Aggregation in the kernel preserves meaning too: a round completed through any
 interleaving of the kernel program and the agg-mode parameter server carries the
 same sum as the round completed at a noagg parameter server.
 */
module XdpEndToEnd {
  import opened GradProto
  import opened XdpMachine
  import opened XdpSafety
  import opened XdpGuarantees
  import opened EndToEnd
  import opened Conservation
  import A = Aggregator
  import P = ParamServer
  import R = Rounds
  import W = WireFormat
  import D = XdpDelivery
  import O = XdpOnce
  import X = XdpProgram

  /** The packet XDP_TX sends: the header rewritten to worker 0 of 1, the payload to the sums. */
  function Rewritten(v: Verdict): Packet
    requires v.Tx?
  {
    Packet(v.p.key, 0, 1, v.values)
  }

  ghost predicate ForwardedAs(v: Verdict, q: Packet) {
    v.Tx? && q == Rewritten(v)
  }

  /** What reaches the parameter server is some forwarded packets, in any order and number. */
  ghost predicate TransmittedBy(inputs: seq<Packet>, log: seq<Verdict>) {
    forall i :: 0 <= i < |inputs| ==> exists k :: 0 <= k < |log| && ForwardedAs(log[k], inputs[i])
  }

  lemma RewrittenLane(values: seq<i32>, ps: seq<Packet>, n: int, key: Key, arrived: seq<Packet>, i: nat)
    requires SumsDistinctWorkers(values, ps, n, key, arrived)
    ensures Lane(Packet(key, 0, 1, values), i) == Wrap(LaneSum(ps, i))
  {
    if i >= |values| {
      LaneBeyond(ps, i);
    }
  }

  /** Every forwarded packet is the sum of a full round of packets that arrived. */
  lemma ForwardIsFullRound(cfg: X.Config, cpus: nat, actions: seq<Action>, k: nat) returns (round: seq<Packet>)
    requires WellFormed(Run(cfg, cpus, actions).arrived)
    requires k < |Run(cfg, cpus, actions).log| && Run(cfg, cpus, actions).log[k].Tx?
    ensures var s := Run(cfg, cpus, actions);
            && FullRound(round, s.log[k].p.key) && Among(round, s.arrived)
            && SumsDistinctWorkers(s.log[k].values, round, |round|, s.log[k].p.key, s.arrived)
  {
    var s := Run(cfg, cpus, actions);
    ForwardsExactSums(cfg, cpus, actions, k);
    var i := s.heap[s.log[k].ref];
    round := i.contribs[..i.slot.expected];
    FanInOfSlot(s, s.log[k].ref, round[0]);
  }

  /** A slot expects as many workers as every packet of its key says. */
  lemma FanInOfSlot(s: State, r: nat, p: Packet)
    requires WellFormed(s.arrived) && r < |s.heap| && MatchesStream(s.heap[r], s.arrived) && p in s.arrived && p.key == s.heap[r].key
    ensures s.heap[r].slot.expected == p.numWorkers
  {
    var k :| 0 <= k < |s.arrived| && s.arrived[k].key == s.heap[r].key && s.arrived[k].numWorkers == s.heap[r].slot.expected
             && |s.arrived[k].values| == s.heap[r].slot.chunkLen;
    var l :| 0 <= l < |s.arrived| && s.arrived[l] == p;
  }

  /** A round completed in agg mode holds the sum of a full round of raw packets. */
  lemma AggCompletionIsFullKernelRound(
    cfg: X.Config, cpus: nat, actions: seq<Action>,
    hash: Key -> nat, capacity: nat, forwarded: seq<Packet>, c: nat)
    returns (round: seq<Packet>)
    requires 0 < capacity && WellFormed(Run(cfg, cpus, actions).arrived)
    requires TransmittedBy(forwarded, Run(cfg, cpus, actions).log)
    requires c < |P.Run(hash, true, capacity, forwarded).completions|
    ensures var done := P.Run(hash, true, capacity, forwarded).completions[c];
            FullRound(round, done.key) && Among(round, Run(cfg, cpus, actions).arrived) && HoldsSum(done.sum, round)
  {
    var log, done := Run(cfg, cpus, actions).log, P.Run(hash, true, capacity, forwarded).completions[c];
    var q := OneInput(hash, capacity, forwarded, c);
    var i :| 0 <= i < |forwarded| && forwarded[i] == q;
    var k :| 0 <= k < |log| && ForwardedAs(log[k], forwarded[i]);
    round := ForwardIsFullRound(cfg, cpus, actions, k);
    SumOfForward(log[k], q, round, Run(cfg, cpus, actions).arrived, done.sum);
  }

  /** One forwarded packet summed is the round it forwards, summed. */
  lemma SumOfForward(v: Verdict, q: Packet, round: seq<Packet>, arrived: seq<Packet>, sum: seq<i32>)
    requires ForwardedAs(v, q) && SumsDistinctWorkers(v.values, round, |round|, v.p.key, arrived) && HoldsSum(sum, [q])
    ensures HoldsSum(sum, round)
  {
    forall l | 0 <= l < |sum| ensures sum[l] == Wrap(LaneSum(round, l)) {
      RewrittenLane(v.values, round, |round|, q.key, arrived, l);
      LaneSumSnoc([], q, l);
      assert [] + [q] == [q];
      WrapInRange(Lane(q, l));
    }
  }

  /** In agg mode a completion is one input packet, for its key. */
  lemma OneInput(hash: Key -> nat, capacity: nat, inputs: seq<Packet>, c: nat) returns (q: Packet)
    requires 0 < capacity && c < |P.Run(hash, true, capacity, inputs).completions|
    ensures var done := P.Run(hash, true, capacity, inputs).completions[c];
            q in inputs && q.key == done.key && HoldsSum(done.sum, [q])
  {
    var ps := P.Run(hash, true, capacity, inputs);
    var done := ps.completions[c];
    P.RunKeepsInv(hash, true, capacity, inputs);
    RunSummedFrom(hash, true, capacity, inputs);
    assert P.CompletionOk(true, done) && Among(done.contribs, inputs);
    q := done.contribs[0];
    assert done.contribs == [q];
  }

  /**
   For any well-formed traffic, retransmissions included: whatever part of it reached
   the kernel program on any number of CPUs in any interleaving; whatever part of its
   XDP_TX packets reached the agg-mode server, in any order and number; and whatever
   part of the traffic reached a noagg server: a key both servers complete has the
   same sum in all lanes, and the agg-mode server completes it once.
   */
  lemma KernelAggregationPreservesMeaning(
    cfg: X.Config, cpus: nat, actions: seq<Action>,
    hash: Key -> nat, capacity: nat, forwarded: seq<Packet>,
    rawHash: Key -> nat, rawCapacity: nat, raw: seq<Packet>, c: nat, r: nat)
    requires 0 < capacity && 0 < rawCapacity
    requires WellFormed(Run(cfg, cpus, actions).arrived + raw)
    requires TransmittedBy(forwarded, Run(cfg, cpus, actions).log)
    requires c < |P.Run(hash, true, capacity, forwarded).completions|
    requires r < |P.Run(rawHash, false, rawCapacity, raw).completions|
    requires P.Run(hash, true, capacity, forwarded).completions[c].key == P.Run(rawHash, false, rawCapacity, raw).completions[r].key
    ensures P.Run(hash, true, capacity, forwarded).completions[c].sum == P.Run(rawHash, false, rawCapacity, raw).completions[r].sum
    ensures forall c' :: 0 <= c' < |P.Run(hash, true, capacity, forwarded).completions| && c' != c ==>
              P.Run(hash, true, capacity, forwarded).completions[c'].key != P.Run(hash, true, capacity, forwarded).completions[c].key
  {
    var arrived := Run(cfg, cpus, actions).arrived;
    var agg, noagg := P.Run(hash, true, capacity, forwarded).completions[c], P.Run(rawHash, false, rawCapacity, raw).completions[r];
    WellFormedFront(arrived, raw);
    var round := AggCompletionIsFullKernelRound(cfg, cpus, actions, hash, capacity, forwarded, c);
    RawCompletionIsFullRound(rawHash, rawCapacity, raw, r);
    AmongEither(round, arrived, raw);
    AmongEither(noagg.contribs, arrived, raw);
    forall i | 0 <= i < MAX_CHUNK_LEN ensures agg.sum[i] == noagg.sum[i] {
      SameRoundSameSum(arrived + raw, round, noagg.contribs, agg.key, i);
    }
    P.RunKeepsInv(hash, true, capacity, forwarded);
  }

  lemma WellFormedFront(ps: seq<Packet>, more: seq<Packet>)
    requires WellFormed(ps + more)
    ensures WellFormed(ps)
  {
    assert forall i :: 0 <= i < |ps| ==> (ps + more)[i] == ps[i];
  }

  // --------------------------------------------------- what the rewritten header means

  lemma ForwardFits(cfg: X.Config, cpus: nat, actions: seq<Action>, k: nat)
    requires k < |Run(cfg, cpus, actions).log| && Run(cfg, cpus, actions).log[k].Tx?
    ensures R.Standalone(Rewritten(Run(cfg, cpus, actions).log[k]))
  {
    var s := Run(cfg, cpus, actions);
    ForwardsExactSums(cfg, cpus, actions, k);
    RunSafe(cfg, cpus, actions);
    assert InstanceOk(s, s.log[k].ref);
  }

  /**
   Whatever arrived and however the CPUs interleaved, an XDP_TX packet on the wire is
   read by every parser as worker 0 of 1 of its key, with the sums as values; and it is
   a round of its own at a server in either mode.
   */
  lemma ForwardClosesItsSlot(
    cfg: X.Config, cpus: nat, actions: seq<Action>, k: nat, trailing: seq<W.byte>,
    hash: Key -> nat, aggMode: bool, capacity: nat)
    requires 0 < capacity && k < |Run(cfg, cpus, actions).log| && Run(cfg, cpus, actions).log[k].Tx?
    ensures var v := Run(cfg, cpus, actions).log[k];
            && |v.values| <= MAX_CHUNK_LEN
            && W.AggParse(W.Encode(Rewritten(v)) + trailing) == W.Accept(Packet(v.p.key, 0, 1, v.values))
            && W.XdpParse(W.Encode(Rewritten(v)) + trailing) == W.Accept(Packet(v.p.key, 0, 1, v.values))
            && var done := P.Run(hash, aggMode, capacity, [Rewritten(v)]).completions;
               && |done| == 1 && done[0].key == v.p.key && |done[0].sum| == MAX_CHUNK_LEN
               && forall i :: 0 <= i < MAX_CHUNK_LEN ==> done[0].sum[i] == if i < |v.values| then v.values[i] else 0
  {
    var v := Run(cfg, cpus, actions).log[k];
    ForwardFits(cfg, cpus, actions, k);
    W.RoundTrip(Rewritten(v), trailing);
    R.StandaloneCloses(hash, aggMode, capacity, Rewritten(v));
  }

  /** Forwarding a key again, whichever CPU closes it, changes nothing at a server in either mode. */
  lemma ForwardAgainIgnored(
    cfg: X.Config, cpus: nat, actions: seq<Action>, k: nat, l: nat,
    hash: Key -> nat, aggMode: bool, capacity: nat, inputs: seq<Packet>)
    requires var log := Run(cfg, cpus, actions).log;
             k < |log| && l < |log| && log[k].Tx? && log[l].Tx? && log[k].p.key == log[l].p.key && Rewritten(log[k]) in inputs
    requires 0 < capacity
    ensures P.Run(hash, aggMode, capacity, inputs + [Rewritten(Run(cfg, cpus, actions).log[l])]) == P.Run(hash, aggMode, capacity, inputs)
  {
    var log := Run(cfg, cpus, actions).log;
    ForwardFits(cfg, cpus, actions, k);
    ForwardFits(cfg, cpus, actions, l);
    R.StandaloneAgain(hash, aggMode, capacity, inputs, Rewritten(log[k]), Rewritten(log[l]));
  }

  lemma TransmittedStandalone(cfg: X.Config, cpus: nat, actions: seq<Action>, forwarded: seq<Packet>, q: Packet)
    requires TransmittedBy(forwarded, Run(cfg, cpus, actions).log) && q in forwarded
    ensures R.Standalone(q)
  {
    var log := Run(cfg, cpus, actions).log;
    var i :| 0 <= i < |forwarded| && forwarded[i] == q;
    var k :| 0 <= k < |log| && ForwardedAs(log[k], forwarded[i]);
    ForwardFits(cfg, cpus, actions, k);
  }

  /**
   And the two modes do complete: when one XDP_TX of a round reaches the agg-mode
   server and packets of all its workers reach the noagg server, in any order and
   number, and the key has a slot at both, each completes it once, with the same sum.
   */
  lemma BothCompleteThroughKernel(
    cfg: X.Config, cpus: nat, actions: seq<Action>,
    hash: Key -> nat, capacity: nat, forwarded: seq<Packet>,
    rawHash: Key -> nat, rawCapacity: nat, raw: seq<Packet>, q: Packet, n: nat)
    requires 0 < capacity && 0 < rawCapacity && 1 <= n
    requires WellFormed(Run(cfg, cpus, actions).arrived + raw)
    requires TransmittedBy(forwarded, Run(cfg, cpus, actions).log)
    requires q in forwarded && R.HasSlot(P.Run(hash, true, capacity, forwarded).cells, q.key)
    requires R.AllSent(raw, q.key, n) && R.HasSlot(P.Run(rawHash, false, rawCapacity, raw).cells, q.key)
    ensures SameRoundTwice(P.Run(hash, true, capacity, forwarded).completions,
                           P.Run(rawHash, false, rawCapacity, raw).completions, q.key)
  {
    var x, y := P.Run(hash, true, capacity, forwarded).completions, P.Run(rawHash, false, rawCapacity, raw).completions;
    TransmittedStandalone(cfg, cpus, actions, forwarded, q);
    R.FirstPacketCompletes(hash, capacity, forwarded, q);
    WellFormedBack(Run(cfg, cpus, actions).arrived, raw);
    RawCompletes(rawHash, rawCapacity, raw, q.key, n);
    forall c, r | 0 <= c < |x| && 0 <= r < |y| && x[c].key == q.key && y[r].key == q.key ensures x[c].sum == y[r].sum {
      KernelAggregationPreservesMeaning(cfg, cpus, actions, hash, capacity, forwarded, rawHash, rawCapacity, raw, c, r);
    }
  }

  // ------------------------------------------------------- one traffic, both ways

  /** The same packets, in any order and number. */
  ghost predicate SameTraffic(raw: seq<Packet>, arrived: seq<Packet>) {
    forall x :: x in raw <==> x in arrived
  }

  lemma PlaceOf(arrived: seq<Packet>, raw: seq<Packet>, i: nat) returns (k: nat)
    requires SameTraffic(raw, arrived) && i < |arrived + raw|
    ensures k < |arrived| && arrived[k] == (arrived + raw)[i]
  {
    var x := (arrived + raw)[i];
    assert i >= |arrived| ==> raw[i - |arrived|] == x && x in raw;
    assert x in arrived;
    k :| 0 <= k < |arrived| && arrived[k] == x;
  }

  lemma SameTrafficWellFormed(arrived: seq<Packet>, raw: seq<Packet>)
    requires WellFormed(arrived) && SameTraffic(raw, arrived)
    ensures WellFormed(arrived + raw)
  {
    var all := arrived + raw;
    forall i | 0 <= i < |all| ensures A.Admissible(all[i]) && all[i].worker < all[i].numWorkers {
      var k := PlaceOf(arrived, raw, i);
    }
    forall i, j | 0 <= i < |all| && 0 <= j < |all| && all[i].key == all[j].key
      ensures all[i].numWorkers == all[j].numWorkers && (all[i].worker == all[j].worker ==> all[i] == all[j])
    {
      var k := PlaceOf(arrived, raw, i);
      var l := PlaceOf(arrived, raw, j);
      assert arrived[k].key == arrived[l].key;
    }
  }

  lemma EachSentAllSent(arrived: seq<Packet>, raw: seq<Packet>, key: Key, n: nat)
    requires WellFormed(arrived) && SameTraffic(raw, arrived) && 1 <= n && D.EachSent(arrived, key, n)
    ensures R.AllSent(raw, key, n)
  {
    forall w | 0 <= w < n ensures R.Sent(raw, key, w) {
      assert D.Sent(arrived, key, n, w);
      var k :| 0 <= k < |arrived| && arrived[k].key == key && arrived[k].numWorkers == n && arrived[k].worker == w;
      assert arrived[k] in raw;
    }
    assert D.Sent(arrived, key, n, 0);
    var k :| 0 <= k < |arrived| && arrived[k].key == key && arrived[k].numWorkers == n && arrived[k].worker == 0;
    forall x | x in raw && x.key == key ensures x.numWorkers == n {
      var l :| 0 <= l < |arrived| && arrived[l] == x;
    }
  }

  /** The round was forwarded. */
  lemma RoundForwarded(cfg: X.Config, cpus: nat, actions: seq<Action>, key: Key, n: nat) returns (k: nat)
    requires cfg.populated && D.NeverRefused(cfg, cpus, actions, key)
    requires var s := Run(cfg, cpus, actions);
             O.OncePerWorker(s.arrived, key) && Quiescent(s) && 1 <= n && D.EachSent(s.arrived, key, n)
    ensures var log := Run(cfg, cpus, actions).log; k < |log| && log[k].Tx? && log[k].p.key == key
  {
    var s := Run(cfg, cpus, actions);
    D.DeliveredUnlessRefused(cfg, cpus, actions, key, n);
    var vs := D.VerdictsFor(s.log, key);
    var j :| 0 <= j < n && D.ForwardsAll(vs[j], s.arrived, key, n);
    D.VerdictsForMembers(s.log, key, vs[j]);
    k :| 0 <= k < |s.log| && s.log[k] == vs[j];
  }

  /**
   The same traffic, through the kernel program to an agg-mode server or straight to a
   noagg server: when each of a round's n workers sent once, none of its packets was
   refused admission, every CPU is done, and its XDP_TX got through, both servers
   complete the round exactly once, with the same sum, as long as both gave it a slot.
   */
  lemma OneTrafficBothWays(
    cfg: X.Config, cpus: nat, actions: seq<Action>, key: Key, n: nat,
    hash: Key -> nat, capacity: nat, forwarded: seq<Packet>,
    rawHash: Key -> nat, rawCapacity: nat, raw: seq<Packet>)
    requires 0 < capacity && 0 < rawCapacity && 1 <= n && cfg.populated && D.NeverRefused(cfg, cpus, actions, key)
    requires var s := Run(cfg, cpus, actions);
             && WellFormed(s.arrived) && SameTraffic(raw, s.arrived) && Quiescent(s)
             && O.OncePerWorker(s.arrived, key) && D.EachSent(s.arrived, key, n)
             && TransmittedBy(forwarded, s.log)
             && forall k :: 0 <= k < |s.log| && s.log[k].Tx? && s.log[k].p.key == key ==> Rewritten(s.log[k]) in forwarded
    requires R.HasSlot(P.Run(hash, true, capacity, forwarded).cells, key)
    requires R.HasSlot(P.Run(rawHash, false, rawCapacity, raw).cells, key)
    ensures SameRoundTwice(P.Run(hash, true, capacity, forwarded).completions,
                           P.Run(rawHash, false, rawCapacity, raw).completions, key)
  {
    var s := Run(cfg, cpus, actions);
    var k := RoundForwarded(cfg, cpus, actions, key, n);
    SameTrafficWellFormed(s.arrived, raw);
    EachSentAllSent(s.arrived, raw, key, n);
    BothCompleteThroughKernel(cfg, cpus, actions, hash, capacity, forwarded, rawHash, rawCapacity, raw, Rewritten(s.log[k]), n);
  }
}
