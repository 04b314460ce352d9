/**
 One key's packets on the concurrent kernel program, when each worker sends once
 for that key; the rest of the stream is arbitrary. Then no packet of the key
 finds its slot already complete, and the key has at most one instance.
 */
module XdpOnce {
  import opened GradProto
  import opened XdpMachine
  import opened XdpSafety
  import opened XdpGuarantees
  import opened XdpOverrun
  import X = XdpProgram

  /** The key's packets agree on the fan-in and the length, and come from different workers below the fan-in. */
  ghost predicate OncePerWorker(ps: seq<Packet>, key: Key) {
    && (forall i :: 0 <= i < |ps| && ps[i].key == key ==> ValidFanIn(ps[i].numWorkers) && ps[i].worker < ps[i].numWorkers)
    && (forall i, j :: 0 <= i < j < |ps| && ps[i].key == key && ps[j].key == key ==> Compatible(ps[i], ps[j]))
  }

  predicate Compatible(p: Packet, q: Packet) {
    p.worker != q.worker && p.numWorkers == q.numWorkers && |p.values| == |q.values|
  }

  /** Workers other than the first one's, all below its fan-in. */
  lemma OtherWorkers(ps: seq<Packet>, k: nat, ks: seq<nat>) returns (qs: seq<Packet>)
    requires Overrun(ps, k, ks) && OncePerWorker(ps, ps[k].key)
    ensures |qs| == ps[k].numWorkers && DistinctWorkers(qs) && !Contributed(qs, ps[k].worker)
    ensures ps[k].worker < ps[k].numWorkers && forall i :: 0 <= i < |qs| ==> qs[i].worker < ps[k].numWorkers
  {
    qs := seq(|ks|, i requires 0 <= i < |ks| => ps[ks[i]]);
  }

  /** A stream whose workers all send once has no overruns: n - 1 other workers are not n. */
  lemma OnceMeansNoOverrun(ps: seq<Packet>)
    requires forall key :: OncePerWorker(ps, key)
    ensures NoOverrun(ps)
  {
    forall k: nat, ks: seq<nat> ensures !Overrun(ps, k, ks) {
      if Overrun(ps, k, ks) {
        var qs := OtherWorkers(ps, k, ks);
        WorkersBelow(qs, ps[k].numWorkers);
        assert false;
      }
    }
  }

  // ------------------------------------------------------------------- invariant

  /** A packet of the key that is not absorbed yet. */
  predicate PendingFor(u: Cpu, key: Key) {
    Pending(u.pc) && u.p.key == key
  }

  ghost predicate PendingDistinct(s: State, key: Key) {
    forall c, d :: 0 <= c < d < |s.cpus| && PendingFor(s.cpus[c], key) && PendingFor(s.cpus[d], key) ==> s.cpus[c].p.worker != s.cpus[d].p.worker
  }

  ghost predicate PendingUnspent(s: State, key: Key) {
    forall c, r :: 0 <= c < |s.cpus| && 0 <= r < |s.heap| && PendingFor(s.cpus[c], key) && s.heap[r].key == key
      ==> !Contributed(s.heap[r].contribs, s.cpus[c].p.worker)
  }

  ghost predicate OneInstance(s: State, key: Key) {
    forall r, q :: 0 <= r < q < |s.heap| ==> s.heap[r].key != key || s.heap[q].key != key
  }

  ghost predicate OnceInv(s: State, key: Key) {
    PendingDistinct(s, key) && PendingUnspent(s, key) && OneInstance(s, key)
  }

  // --------------------------------------------------- a pending packet's slot is open

  lemma AgreesWithStream(s: State, r: nat, p: Packet)
    requires r < |s.heap| && MatchesStream(s.heap[r], s.arrived) && OncePerWorker(s.arrived, s.heap[r].key)
    requires p in s.arrived && p.key == s.heap[r].key
    ensures p.numWorkers == s.heap[r].slot.expected && |p.values| == s.heap[r].slot.chunkLen && p.worker < p.numWorkers
  {
  }

  /** Pigeonhole: a completed slot has heard from every worker, so nobody is still on the way to it. */
  lemma PendingMeansOpen(s: State, c: nat, r: nat)
    requires c < |s.cpus| && r < |s.heap| && Pending(s.cpus[c].pc) && s.cpus[c].p.key == s.heap[r].key
    requires Safe(s) && FromArrivals(s) && OncePerWorker(s.arrived, s.heap[r].key) && PendingUnspent(s, s.heap[r].key)
    ensures s.heap[r].closer.None? && !s.heap[r].removed && Mapped(s, s.heap[r].key, r)
  {
    var i := s.heap[r];
    assert InstanceOk(s, r);
    AgreesWithStream(s, r, s.cpus[c].p);
    forall k | 0 <= k < |i.contribs| ensures i.contribs[k].worker < i.slot.expected {
      AgreesWithStream(s, r, i.contribs[k]);
    }
    assert !Contributed(i.contribs, s.cpus[c].p.worker);
    WorkersBelow(i.contribs, i.slot.expected);
  }

  // ------------------------------------------------------------------ preservation

  ghost predicate Settled(s: State, key: Key) {
    Safe(s) && FromArrivals(s) && OncePerWorker(s.arrived, key) && OnceInv(s, key)
  }

  lemma PendingStaysDistinct(s: State, s': State, c: nat, key: Key)
    requires PendingDistinct(s, key) && c < |s.cpus| && Follows(s, s', c)
    ensures PendingDistinct(s', key)
  {
  }

  lemma PendingStaysUnspent(s: State, s': State, c: nat, key: Key)
    requires Safe(s) && PendingDistinct(s, key) && PendingUnspent(s, key) && c < |s.cpus| && Follows(s, s', c)
    ensures PendingUnspent(s', key)
  {
    var u := s.cpus[c];
    forall d, r | 0 <= d < |s'.cpus| && 0 <= r < |s'.heap| && PendingFor(s'.cpus[d], key) && s'.heap[r].key == key
      ensures !Contributed(s'.heap[r].contribs, s'.cpus[d].p.worker)
    {
      if r < |s.heap| {
        assert InstanceFollows(s.heap[r], s'.heap[r], r, u, s'.cpus[c]);
        assert PendingFor(s.cpus[d], key);
        assert !Contributed(s.heap[r].contribs, s.cpus[d].p.worker);
        assert CpuOk(s, c) && CpuShape(u, |s.heap|);
        ContributedSnoc(s.heap[r].contribs, u.p, s.cpus[d].p.worker);
      }
    }
  }

  lemma StillOneInstance(s: State, s': State, c: nat, key: Key)
    requires Settled(s, key) && c < |s.cpus| && Follows(s, s', c)
    ensures OneInstance(s', key)
  {
    forall r | 0 <= r < |s.heap| ensures s'.heap[r].key == s.heap[r].key {
      assert InstanceFollows(s.heap[r], s'.heap[r], r, s.cpus[c], s'.cpus[c]);
    }
    if |s'.heap| > |s.heap| && s.cpus[c].p.key == key {
      forall r | 0 <= r < |s.heap| ensures s.heap[r].key != key {
        if s.heap[r].key == key {
          PendingMeansOpen(s, c, r);
        }
      }
    }
  }

  /** The key cannot be deleted under a CPU that still has a packet for it. */
  lemma PendingKeyStays(s: State, s': State, c: nat, d: nat)
    requires d < |s.cpus| && Pending(s.cpus[d].pc) && s.cpus[d].p.key in s.slotMap
    requires Settled(s, s.cpus[d].p.key) && c < |s.cpus| && Follows(s, s', c)
    ensures s.cpus[d].p.key in s'.slotMap && s'.slotMap[s.cpus[d].p.key] == s.slotMap[s.cpus[d].p.key]
  {
    var key := s.cpus[d].p.key;
    if s.cpus[c].pc.Delete? {
      PendingMeansOpen(s, d, s.slotMap[key]);
      DeletesItsOwn(s, c);
    }
  }

  lemma StepKeepsOnce(s: State, s': State, c: nat, key: Key)
    requires Settled(s, key) && c < |s.cpus| && Follows(s, s', c)
    ensures OnceInv(s', key)
  {
    PendingStaysDistinct(s, s', c, key);
    PendingStaysUnspent(s, s', c, key);
    StillOneInstance(s, s', c, key);
  }

  lemma NewIsDifferent(ps: seq<Packet>, p: Packet, q: Packet)
    requires OncePerWorker(ps + [p], p.key) && q in ps && q.key == p.key
    ensures q.worker != p.worker
  {
    var k :| 0 <= k < |ps| && ps[k] == q;
    assert (ps + [p])[k] == q && (ps + [p])[|ps|] == p;
  }

  /** The state just after CPU `c` is handed `p`. */
  ghost predicate Received(s: State, s': State, c: nat, p: Packet) {
    && c < |s.cpus| && s.cpus[c].pc.Idle? && |s'.cpus| == |s.cpus| && s'.cpus == s.cpus[c := s'.cpus[c]]
    && s'.cpus[c].pc.Lookup? && s'.cpus[c].p == p && s'.heap == s.heap && s'.slotMap == s.slotMap && s'.arrived == s.arrived + [p]
    && s'.log == s.log
  }

  lemma ArrivalKeepsOnce(s: State, s': State, c: nat, p: Packet, key: Key)
    requires Safe(s) && FromArrivals(s) && OnceInv(s, key) && Received(s, s', c, p) && OncePerWorker(s'.arrived, key)
    ensures OnceInv(s', key)
  {
    if p.key == key {
      forall d | 0 <= d < |s.cpus| && d != c && PendingFor(s.cpus[d], key) ensures s.cpus[d].p.worker != p.worker {
        NewIsDifferent(s.arrived, p, s.cpus[d].p);
      }
      forall r | 0 <= r < |s.heap| && s.heap[r].key == key ensures !Contributed(s.heap[r].contribs, p.worker) {
        UnheardOf(s, r, p);
      }
    }
  }

  lemma UnheardOf(s: State, r: nat, p: Packet)
    requires Safe(s) && FromArrivals(s) && OncePerWorker(s.arrived + [p], p.key) && r < |s.heap| && s.heap[r].key == p.key
    ensures !Contributed(s.heap[r].contribs, p.worker)
  {
    assert InstanceOk(s, r);
    forall k | 0 <= k < |s.heap[r].contribs| ensures s.heap[r].contribs[k].worker != p.worker {
      NewIsDifferent(s.arrived, p, s.heap[r].contribs[k]);
    }
  }

  lemma OncePrefix(ps: seq<Packet>, more: seq<Packet>, key: Key)
    requires ps <= more && OncePerWorker(more, key)
    ensures OncePerWorker(ps, key)
  {
    assert forall i :: 0 <= i < |ps| ==> ps[i] == more[i];
  }

  /** Every state of every interleaving, for a key whose workers send once. */
  lemma {:induction false} RunSettled(cfg: X.Config, cpus: nat, actions: seq<Action>, key: Key)
    requires OncePerWorker(Run(cfg, cpus, actions).arrived, key)
    ensures Settled(Run(cfg, cpus, actions), key)
  {
    RunSafe(cfg, cpus, actions);
    RunFromArrivals(cfg, cpus, actions);
    if actions != [] {
      var before, a := actions[..|actions| - 1], actions[|actions| - 1];
      var s := Run(cfg, cpus, before);
      ApplyGrowsStream(cfg, s, a);
      OncePrefix(s.arrived, Apply(cfg, s, a).arrived, key);
      RunSettled(cfg, cpus, before, key);
      ApplyKeepsOnce(cfg, s, a, key);
    }
  }

  lemma ApplyKeepsOnce(cfg: X.Config, s: State, a: Action, key: Key)
    requires Settled(s, key) && OncePerWorker(Apply(cfg, s, a).arrived, key)
    ensures OnceInv(Apply(cfg, s, a), key)
  {
    if a.c < |s.cpus| {
      if a.Go? {
        StepKeepsOnce(s, Exec(cfg, s, a.c), a.c, key);
      } else if s.cpus[a.c].pc.Idle? && Bounded(a.p) {
        ArrivalKeepsOnce(s, Receive(s, a.c, a.p), a.c, a.p, key);
      }
    }
  }
}
