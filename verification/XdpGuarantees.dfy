/**
 What the kernel program guarantees for every interleaving of any number of
 CPUs on any packets, duplicates included: an instance completes at most once,
 with the sums over exactly the expected number of distinct workers, and the
 delete by key outside the lock removes that very instance.
 */
module XdpGuarantees {
  import opened GradProto
  import opened XdpMachine
  import opened XdpSafety
  import X = XdpProgram

  /** Every state of every interleaving of any number of CPUs, on any packets. */
  lemma {:induction false} RunSafe(cfg: X.Config, cpus: nat, actions: seq<Action>)
    ensures Safe(Run(cfg, cpus, actions))
  {
    if actions != [] {
      var s, a := Run(cfg, cpus, actions[..|actions| - 1]), actions[|actions| - 1];
      RunSafe(cfg, cpus, actions[..|actions| - 1]);
      if a.c < |s.cpus| {
        if a.Arrive? {
          ReceiveKeeps(s, a.c, a.p);
        } else {
          ExecKeepsSafe(cfg, s, a.c);
        }
      }
    }
  }

  /** The slot's fan-in and length are those of some packet of its key that arrived. */
  ghost predicate MatchesStream(i: Instance, arrived: seq<Packet>) {
    exists k :: 0 <= k < |arrived| && arrived[k].key == i.key && arrived[k].numWorkers == i.slot.expected && |arrived[k].values| == i.slot.chunkLen
  }

  /** Everything in flight or absorbed did arrive, and so did what opened each slot. */
  ghost predicate FromArrivals(s: State) {
    && (forall r :: 0 <= r < |s.heap| ==> MatchesStream(s.heap[r], s.arrived))
    && (forall c :: 0 <= c < |s.cpus| && !s.cpus[c].pc.Idle? ==> s.cpus[c].p in s.arrived)
    && (forall r, k :: 0 <= r < |s.heap| && 0 <= k < |s.heap[r].contribs| ==> s.heap[r].contribs[k] in s.arrived)
  }

  lemma ApplyKeepsFromArrivals(cfg: X.Config, s: State, a: Action)
    requires PointersOk(s) && FromArrivals(s)
    ensures FromArrivals(Apply(cfg, s, a))
  {
    if a.c < |s.cpus| {
      if a.Go? {
        StepKeepsFromArrivals(s, Exec(cfg, s, a.c), a.c);
      } else {
        ArrivalKeepsFromArrivals(s, a.c, a.p);
      }
    }
  }

  lemma MoreStream(i: Instance, arrived: seq<Packet>, more: seq<Packet>)
    requires MatchesStream(i, arrived) && arrived <= more
    ensures MatchesStream(i, more)
  {
    var k :| 0 <= k < |arrived| && arrived[k].key == i.key && arrived[k].numWorkers == i.slot.expected && |arrived[k].values| == i.slot.chunkLen;
    assert more[k] == arrived[k];
  }

  lemma ArrivalKeepsFromArrivals(s: State, c: nat, p: Packet)
    requires PointersOk(s) && FromArrivals(s) && c < |s.cpus|
    ensures FromArrivals(Receive(s, c, p))
  {
    var s' := Receive(s, c, p);
    forall r | 0 <= r < |s'.heap| ensures MatchesStream(s'.heap[r], s'.arrived) {
      MoreStream(s.heap[r], s.arrived, s'.arrived);
    }
  }

  lemma StepKeepsFromArrivals(s: State, s': State, c: nat)
    requires FromArrivals(s) && c < |s.cpus| && Follows(s, s', c) && (s.cpus[c].pc.Idle? ==> s' == s)
    ensures FromArrivals(s')
  {
    forall r | 0 <= r < |s'.heap| ensures MatchesStream(s'.heap[r], s'.arrived) {
      if r < |s.heap| {
        assert InstanceFollows(s.heap[r], s'.heap[r], r, s.cpus[c], s'.cpus[c]);
        assert MatchesStream(s.heap[r], s.arrived);
      } else {
        var k :| 0 <= k < |s.arrived| && s.arrived[k] == s.cpus[c].p;
      }
    }
  }

  lemma {:induction false} RunFromArrivals(cfg: X.Config, cpus: nat, actions: seq<Action>)
    ensures FromArrivals(Run(cfg, cpus, actions))
  {
    if actions != [] {
      RunFromArrivals(cfg, cpus, actions[..|actions| - 1]);
      ApplyKeepsFromArrivals(cfg, Run(cfg, cpus, actions[..|actions| - 1]), actions[|actions| - 1]);
    }
  }

  lemma ApplyGrowsStream(cfg: X.Config, s: State, a: Action)
    requires PointersOk(s)
    ensures s.arrived <= Apply(cfg, s, a).arrived
  {
    if a.c < |s.cpus| && a.Go? {
      assert Follows(s, Exec(cfg, s, a.c), a.c);
    }
  }

  /** Every completion is in the log. */
  ghost predicate CompletionsLogged(s: State) {
    forall r :: 0 <= r < |s.heap| && s.heap[r].closer.Some? ==> r in s.completed
  }

  lemma {:induction false} RunCompletionsLogged(cfg: X.Config, cpus: nat, actions: seq<Action>)
    ensures CompletionsLogged(Run(cfg, cpus, actions))
  {
    if actions != [] {
      var s, a := Run(cfg, cpus, actions[..|actions| - 1]), actions[|actions| - 1];
      RunCompletionsLogged(cfg, cpus, actions[..|actions| - 1]);
      if a.c < |s.cpus| && a.Go? {
        assert Follows(s, Exec(cfg, s, a.c), a.c);
      }
    }
  }

  // ----------------------------------------------------------------- main results

  /** `values` are the wrapped lane sums of `n` packets that arrived for this key, from `n` different workers. */
  ghost predicate SumsDistinctWorkers(values: seq<i32>, ps: seq<Packet>, n: int, key: Key, arrived: seq<Packet>) {
    && |ps| == n && DistinctWorkers(ps)
    && (forall k :: 0 <= k < |ps| ==> ps[k] in arrived && ps[k].key == key && |ps[k].values| == |values|)
    && (forall k :: 0 <= k < |values| ==> values[k] == Wrap(LaneSum(ps, k)))
  }

  /** Every slot instance completes at most once, and is forwarded at most once. */
  lemma CompletesAtMostOnce(cfg: X.Config, cpus: nat, actions: seq<Action>)
    ensures var s := Run(cfg, cpus, actions);
            && (forall k, l :: 0 <= k < l < |s.completed| ==> s.completed[k] != s.completed[l])
            && (forall k, l :: 0 <= k < l < |s.log| && s.log[k].Tx? && s.log[l].Tx? ==> s.log[k].ref != s.log[l].ref)
  {
    RunSafe(cfg, cpus, actions);
  }

  /** Every forwarded packet carries the sums over exactly as many distinct workers as its slot expects. */
  lemma ForwardsExactSums(cfg: X.Config, cpus: nat, actions: seq<Action>, k: nat)
    requires k < |Run(cfg, cpus, actions).log| && Run(cfg, cpus, actions).log[k].Tx?
    ensures var s := Run(cfg, cpus, actions);
            var v := s.log[k];
            && v.ref < |s.heap|
            && var i := s.heap[v.ref];
               && i.key == v.p.key && 0 < i.slot.expected <= |i.contribs|
               && SumsDistinctWorkers(v.values, i.contribs[..i.slot.expected], i.slot.expected, v.p.key, s.arrived)
               && |v.values| == i.slot.chunkLen && MatchesStream(i, s.arrived)
  {
    var s := Run(cfg, cpus, actions);
    RunSafe(cfg, cpus, actions);
    RunFromArrivals(cfg, cpus, actions);
    assert VerdictOk(s.heap, s.log[k]);
    assert InstanceOk(s, s.log[k].ref);
  }

  /** When a CPU deletes by key, outside the lock, the map still holds the very instance it completed. */
  lemma DeleteNeverHitsNewer(cfg: X.Config, cpus: nat, actions: seq<Action>, c: nat)
    requires c < cpus && Run(cfg, cpus, actions).cpus[c].pc.Delete?
    ensures var s := Run(cfg, cpus, actions);
            var u := s.cpus[c];
            Mapped(s, u.p.key, u.ref) && s.heap[u.ref].closer == Some(c) && u.ref in s.completed
  {
    RunSafe(cfg, cpus, actions);
    RunCompletionsLogged(cfg, cpus, actions);
    DeletesItsOwn(Run(cfg, cpus, actions), c);
  }
}
